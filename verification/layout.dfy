/** The vertex layout a generated program expects: which attributes exist,
    in which order, with how many floats each, and the capacity bound of the
    fixed attribute table. */
module Layout {
  import opened Base
  import opened CC

  /** The name of a vertex attribute, without its `a`/`v` stage prefix. */
  datatype AttribName =
    | VtxPos
    | TexCoord(unit: nat)
    | TexClamp(axis: nat, unit: nat)
    | Fog
    | GrayscaleColor
    | Input(k: nat)

  /** The letter of a clamp axis in generated names: S for axis 0, T for axis 1. */
  function AxisLetter(axis: nat): string
  {
    if axis == 0 then "S" else "T"
  }

  function NameText(n: AttribName): string
  {
    match n
    case VtxPos => "VtxPos"
    case TexCoord(i) => "TexCoord" + NatToString(i)
    case TexClamp(j, i) => "TexClamp" + AxisLetter(j) + NatToString(i)
    case Fog => "Fog"
    case GrayscaleColor => "GrayscaleColor"
    case Input(k) => "Input" + NatToString(k)
  }

  /** One attribute: its name and its width in floats. */
  datatype Attrib = Attrib(name: AttribName, size: nat)

  /** The number of generic inputs the loops emit: a negative count emits none. */
  function InputCount(f: CCFeatures): nat
  {
    if f.numInputs < 0 then 0 else f.numInputs
  }

  /** Generic inputs carry alpha exactly when the program does. */
  function InputWidth(f: CCFeatures): nat
  {
    if f.optAlpha then 4 else 3
  }

  /** The attributes of texture unit `i`: its coordinate, then one clamp
      bound per clamped axis, or nothing for an unused unit. */
  function TexAttribs(f: CCFeatures, i: nat): seq<Attrib>
    requires i < 2
  {
    if !f.usedTextures.At(i) then []
    else [Attrib(TexCoord(i), 2)]
         + (if f.clamp.At(i).At(0) then [Attrib(TexClamp(0, i), 1)] else [])
         + (if f.clamp.At(i).At(1) then [Attrib(TexClamp(1, i), 1)] else [])
  }

  /** The generic inputs 1..n, each `width` floats wide. */
  function InputAttribs(n: nat, width: nat): (r: seq<Attrib>)
    ensures |r| == n
    ensures forall k :: 0 <= k < n ==> r[k] == Attrib(Input(k + 1), width)
  {
    if n == 0 then [] else InputAttribs(n - 1, width) + [Attrib(Input(n), width)]
  }

  /** The attributes that are passed on to the fragment stage, in binding
      order: per used texture unit its coordinate and clamp bounds, then fog,
      grayscale, and the generic inputs. */
  function VaryingAttribs(f: CCFeatures): seq<Attrib>
  {
    TexAttribs(f, 0) + TexAttribs(f, 1)
    + (if f.optFog then [Attrib(Fog, 4)] else [])
    + (if f.optGrayscale then [Attrib(GrayscaleColor, 4)] else [])
    + InputAttribs(InputCount(f), InputWidth(f))
  }

  /** The full attribute table in binding order: the position first, then
      the varying attributes. */
  function AttribTable(f: CCFeatures): seq<Attrib>
  {
    [Attrib(VtxPos, 4)] + VaryingAttribs(f)
  }

  function Sizes(attrs: seq<Attrib>): (r: seq<nat>)
    ensures |r| == |attrs|
    ensures forall k :: 0 <= k < |attrs| ==> r[k] == attrs[k].size
  {
    seq(|attrs|, k requires 0 <= k < |attrs| => attrs[k].size)
  }

  lemma SizesAppend(a: seq<Attrib>, b: seq<Attrib>)
    ensures Sizes(a + b) == Sizes(a) + Sizes(b)
  {
  }

  /** The floats of a table: the sum of its attribute widths. */
  function FloatsOf(attrs: seq<Attrib>): nat
  {
    SumOf(Sizes(attrs))
  }

  lemma FloatsOfAppend(a: seq<Attrib>, b: seq<Attrib>)
    ensures FloatsOf(a + b) == FloatsOf(a) + FloatsOf(b)
  {
    SizesAppend(a, b);
    SumOfAppend(Sizes(a), Sizes(b));
  }

  lemma FloatsOfSmall(a: Attrib)
    ensures FloatsOf([]) == 0
    ensures FloatsOf([a]) == a.size
  {
    assert Sizes([a]) == [a.size];
    assert [a.size][..0] == [];
  }

  /** The floats of one interleaved vertex, counted as the shader generator
      counts them while it emits declarations: 4 for the position, 2 per used
      texture unit and 1 per clamped axis of it, 4 for fog, 4 for grayscale,
      and 4 or 3 per generic input. The count is the table's float total. */
  method CountFloats(f: CCFeatures) returns (numFloats: nat)
    ensures numFloats == FloatsOf(AttribTable(f))
  {
    numFloats := 4;
    var tex0 := CountTextureFloats(f, 0);
    var tex1 := CountTextureFloats(f, 1);
    numFloats := numFloats + tex0 + tex1;
    if f.optFog {
      numFloats := numFloats + 4;
    }
    if f.optGrayscale {
      numFloats := numFloats + 4;
    }
    var inputs := CountInputFloats(InputCount(f), InputWidth(f));
    numFloats := numFloats + inputs;
    FloatsOfSmall(Attrib(VtxPos, 4));
    FloatsOfSmall(Attrib(Fog, 4));
    FloatsOfSmall(Attrib(GrayscaleColor, 4));
    var fog := if f.optFog then [Attrib(Fog, 4)] else [];
    var gray := if f.optGrayscale then [Attrib(GrayscaleColor, 4)] else [];
    var t0, t1 := TexAttribs(f, 0), TexAttribs(f, 1);
    var ins := InputAttribs(InputCount(f), InputWidth(f));
    FloatsOfAppend(t0, t1);
    FloatsOfAppend(t0 + t1, fog);
    FloatsOfAppend(t0 + t1 + fog, gray);
    FloatsOfAppend(t0 + t1 + fog + gray, ins);
    FloatsOfAppend([Attrib(VtxPos, 4)], VaryingAttribs(f));
  }

  /** The floats texture unit `i` adds: 2 for its coordinate when it is used,
      and 1 more per clamped axis. */
  method CountTextureFloats(f: CCFeatures, i: nat) returns (k: nat)
    requires i < 2
    ensures k == FloatsOf(TexAttribs(f, i))
  {
    k := 0;
    FloatsOfSmall(Attrib(TexCoord(i), 2));
    if f.usedTextures.At(i) {
      k := k + 2;
      for j := 0 to 2
        invariant k == 2 + (if j >= 1 && f.clamp.At(i).At(0) then 1 else 0)
                         + (if j >= 2 && f.clamp.At(i).At(1) then 1 else 0)
      {
        if f.clamp.At(i).At(j) {
          k := k + 1;
        }
      }
      var s := if f.clamp.At(i).At(0) then [Attrib(TexClamp(0, i), 1)] else [];
      var t := if f.clamp.At(i).At(1) then [Attrib(TexClamp(1, i), 1)] else [];
      FloatsOfSmall(Attrib(TexCoord(i), 2));
      FloatsOfSmall(Attrib(TexClamp(0, i), 1));
      FloatsOfSmall(Attrib(TexClamp(1, i), 1));
      FloatsOfAppend([Attrib(TexCoord(i), 2)], s);
      FloatsOfAppend([Attrib(TexCoord(i), 2)] + s, t);
    }
  }

  /** The floats the `n` generic inputs add, `width` each. */
  method CountInputFloats(n: nat, width: nat) returns (k: nat)
    ensures k == FloatsOf(InputAttribs(n, width))
    ensures k == n * width
  {
    k := 0;
    for i := 0 to n
      invariant k == FloatsOf(InputAttribs(i, width))
      invariant k == i * width
    {
      FloatsOfAppend(InputAttribs(i, width), [Attrib(Input(i + 1), width)]);
      FloatsOfSmall(Attrib(Input(i + 1), width));
      k := k + width;
    }
  }

  predicate SmallSizes(attrs: seq<Attrib>)
  {
    forall k :: 0 <= k < |attrs| ==> 1 <= attrs[k].size <= 4
  }

  lemma SmallSizesAppend(a: seq<Attrib>, b: seq<Attrib>)
    requires SmallSizes(a) && SmallSizes(b)
    ensures SmallSizes(a + b)
  {
  }

  /** Every attribute is one to four floats wide. */
  lemma AttribSizesSmall(f: CCFeatures)
    ensures forall k :: 0 <= k < |AttribTable(f)| ==> 1 <= AttribTable(f)[k].size <= 4
  {
    var fog := if f.optFog then [Attrib(Fog, 4)] else [];
    var gray := if f.optGrayscale then [Attrib(GrayscaleColor, 4)] else [];
    var t0, t1 := TexAttribs(f, 0), TexAttribs(f, 1);
    var ins := InputAttribs(InputCount(f), InputWidth(f));
    assert SmallSizes(t0) && SmallSizes(t1) && SmallSizes(fog) && SmallSizes(gray) && SmallSizes(ins);
    SmallSizesAppend(t0, t1);
    SmallSizesAppend(t0 + t1, fog);
    SmallSizesAppend(t0 + t1 + fog, gray);
    SmallSizesAppend(t0 + t1 + fog + gray, ins);
    SmallSizesAppend([Attrib(VtxPos, 4)], VaryingAttribs(f));
    assert SmallSizes(AttribTable(f));
  }

  /** The floats of a vertex are bounded by 20 plus four per input, so with
      at most seven inputs they fit the byte the program stores them in. */
  lemma FloatsBound(f: CCFeatures)
    ensures FloatsOf(AttribTable(f)) <= 20 + 4 * InputCount(f)
  {
    var pos := [Attrib(VtxPos, 4)];
    var fog := if f.optFog then [Attrib(Fog, 4)] else [];
    var gray := if f.optGrayscale then [Attrib(GrayscaleColor, 4)] else [];
    var t0, t1 := TexAttribs(f, 0), TexAttribs(f, 1);
    var ins := InputAttribs(InputCount(f), InputWidth(f));
    assert AttribTable(f) == pos + (t0 + t1 + fog + gray + ins);
    FloatsOfParts(pos, t0, t1, fog, gray, ins);
    FloatsOfSmall(Attrib(VtxPos, 4));
    FloatsOfSmall(Attrib(Fog, 4));
    FloatsOfSmall(Attrib(GrayscaleColor, 4));
    TexFloatsBound(f, 0);
    TexFloatsBound(f, 1);
    InputFloats(InputCount(f), InputWidth(f));
  }

  lemma FloatsOfParts(p: seq<Attrib>, t0: seq<Attrib>, t1: seq<Attrib>, fog: seq<Attrib>, gray: seq<Attrib>, ins: seq<Attrib>)
    ensures FloatsOf(p + (t0 + t1 + fog + gray + ins))
            == FloatsOf(p) + FloatsOf(t0) + FloatsOf(t1) + FloatsOf(fog) + FloatsOf(gray) + FloatsOf(ins)
  {
    FloatsOfAppend(t0, t1);
    FloatsOfAppend(t0 + t1, fog);
    FloatsOfAppend(t0 + t1 + fog, gray);
    FloatsOfAppend(t0 + t1 + fog + gray, ins);
    FloatsOfAppend(p, t0 + t1 + fog + gray + ins);
  }

  lemma TexFloatsBound(f: CCFeatures, i: nat)
    requires i < 2
    ensures FloatsOf(TexAttribs(f, i)) <= 4
  {
    FloatsOfSmall(Attrib(TexCoord(i), 2));
    FloatsOfSmall(Attrib(TexClamp(0, i), 1));
    FloatsOfSmall(Attrib(TexClamp(1, i), 1));
    if f.usedTextures.At(i) {
      var s := if f.clamp.At(i).At(0) then [Attrib(TexClamp(0, i), 1)] else [];
      var t := if f.clamp.At(i).At(1) then [Attrib(TexClamp(1, i), 1)] else [];
      FloatsOfAppend([Attrib(TexCoord(i), 2)], s);
      FloatsOfAppend([Attrib(TexCoord(i), 2)] + s, t);
    }
  }

  lemma {:induction false} InputFloats(n: nat, width: nat)
    ensures FloatsOf(InputAttribs(n, width)) == n * width
  {
    FloatsOfSmall(Attrib(Input(n), width));
    if n > 0 {
      InputFloats(n - 1, width);
      FloatsOfAppend(InputAttribs(n - 1, width), [Attrib(Input(n), width)]);
    }
  }

  /** The number of entries the fixed attribute table of a program holds. */
  const MaxAttribs: nat := 16

  /** Every feature flag set: the largest table for a given input count. */
  function AllFeatures(n: int): CCFeatures
  {
    CCFeatures(
      Pair2(Pair(Quad(0, 0, 0, 0), Quad(0, 0, 0, 0)), Pair(Quad(0, 0, 0, 0), Quad(0, 0, 0, 0))),
      true, true, true, true, true, true, true, true,
      Pair2(Pair(true, true), Pair(true, true)),
      Pair(true, true),
      n,
      Pair2(Pair(false, false), Pair(false, false)),
      Pair2(Pair(false, false), Pair(false, false)),
      Pair2(Pair(false, false), Pair(false, false)),
      Pair(false, false))
  }

  /** The table holds at most 1 + 2 * 3 + 1 + 1 + n entries, exactly that
      many when every feature is on; so it fits the 16 slots of a program for
      every feature set with n inputs exactly when n <= 7. */
  lemma AttribTableCapacity(n: int)
    ensures forall f: CCFeatures :: f.numInputs == n ==> |AttribTable(f)| <= 9 + InputCount(f)
    ensures |AttribTable(AllFeatures(n))| == 9 + InputCount(AllFeatures(n))
    ensures n <= 7 ==> forall f: CCFeatures :: f.numInputs == n ==> |AttribTable(f)| <= MaxAttribs
    ensures n > 7 ==> AllFeatures(n).numInputs == n && |AttribTable(AllFeatures(n))| > MaxAttribs
  {
  }

  /** The position of a name in binding order: the position, per texture unit
      its coordinate and then its S and T clamp bounds, fog, grayscale, and
      the inputs by number. */
  function NameRank(n: AttribName): nat
  {
    match n
    case VtxPos => 0
    case TexCoord(i) => 1 + 3 * i
    case TexClamp(j, i) => 2 + 3 * i + j
    case Fog => 7
    case GrayscaleColor => 8
    case Input(k) => 8 + k
  }

  /** A name the generator can produce: clamp axes are S or T. */
  predicate ProperName(n: AttribName)
  {
    n.TexClamp? ==> n.axis < 2
  }

  /** Every entry is a proper name whose rank lies in `[lo, hi)`. */
  predicate RanksWithin(t: seq<Attrib>, lo: nat, hi: nat)
  {
    forall k :: 0 <= k < |t| ==> ProperName(t[k].name) && lo <= NameRank(t[k].name) < hi
  }

  predicate RanksIncrease(t: seq<Attrib>)
  {
    forall k, m :: 0 <= k < m < |t| ==> NameRank(t[k].name) < NameRank(t[m].name)
  }

  lemma RanksJoin(a: seq<Attrib>, b: seq<Attrib>, lo: nat, mid: nat, hi: nat)
    requires lo <= mid <= hi
    requires RanksWithin(a, lo, mid) && RanksIncrease(a)
    requires RanksWithin(b, mid, hi) && RanksIncrease(b)
    ensures RanksWithin(a + b, lo, hi) && RanksIncrease(a + b)
  {
    var t := a + b;
    forall k, m | 0 <= k < m < |t|
      ensures NameRank(t[k].name) < NameRank(t[m].name)
    {
      if m < |a| {
        assert t[k] == a[k] && t[m] == a[m];
      } else if k >= |a| {
        assert t[k] == b[k - |a|] && t[m] == b[m - |a|];
      } else {
        assert t[k] == a[k] && t[m] == b[m - |a|];
      }
    }
  }

  lemma TexRanks(f: CCFeatures, i: nat)
    requires i < 2
    ensures RanksWithin(TexAttribs(f, i), 1 + 3 * i, 4 + 3 * i)
    ensures RanksIncrease(TexAttribs(f, i))
  {
  }

  lemma InputRanks(n: nat, width: nat)
    ensures RanksWithin(InputAttribs(n, width), 9, 9 + n)
    ensures RanksIncrease(InputAttribs(n, width))
  {
  }

  /** Distinct proper names have distinct texts, so a lookup by name cannot
      confuse two of them. */
  lemma NameTextInjective(a: AttribName, b: AttribName)
    requires ProperName(a) && ProperName(b)
    requires NameText(a) == NameText(b)
    ensures a == b
  {
    var s := NameText(a);
    match a
    case TexCoord(i) =>
      assert s[4] == 'o';
      if b.TexCoord? {
        assert s[8..] == NatToString(i) == NatToString(b.unit);
        NatToStringInjective(i, b.unit);
      }
    case TexClamp(j, i) =>
      assert s[4] == 'l';
      if b.TexClamp? {
        assert s[9..] == NatToString(i) == NatToString(b.unit);
        NatToStringInjective(i, b.unit);
        assert s[8] == AxisLetter(j)[0] == AxisLetter(b.axis)[0];
      }
    case Input(k) =>
      assert s[0] == 'I';
      if b.Input? {
        assert s[5..] == NatToString(k) == NatToString(b.k);
        NatToStringInjective(k, b.k);
      }
    case _ =>
      assert s[0] == NameText(b)[0];
  }

  /** The attribute table lists proper names in strictly increasing rank. */
  lemma TableRanks(f: CCFeatures)
    ensures RanksWithin(AttribTable(f), 0, 9 + InputCount(f))
    ensures RanksIncrease(AttribTable(f))
  {
    var pos := [Attrib(VtxPos, 4)];
    var t0, t1 := TexAttribs(f, 0), TexAttribs(f, 1);
    var fog := if f.optFog then [Attrib(Fog, 4)] else [];
    var gray := if f.optGrayscale then [Attrib(GrayscaleColor, 4)] else [];
    var ins := InputAttribs(InputCount(f), InputWidth(f));
    TexRanks(f, 0);
    TexRanks(f, 1);
    InputRanks(InputCount(f), InputWidth(f));
    RanksOfParts(pos, t0, t1, fog, gray, ins, InputCount(f));
  }

  lemma RanksOfParts(pos: seq<Attrib>, t0: seq<Attrib>, t1: seq<Attrib>, fog: seq<Attrib>, gray: seq<Attrib>,
                     ins: seq<Attrib>, n: nat)
    requires RanksWithin(pos, 0, 1) && RanksWithin(t0, 1, 4) && RanksWithin(t1, 4, 7)
    requires RanksWithin(fog, 7, 8) && RanksWithin(gray, 8, 9) && RanksWithin(ins, 9, 9 + n)
    requires RanksIncrease(pos) && RanksIncrease(t0) && RanksIncrease(t1)
    requires RanksIncrease(fog) && RanksIncrease(gray) && RanksIncrease(ins)
    ensures RanksWithin(pos + (t0 + t1 + fog + gray + ins), 0, 9 + n)
    ensures RanksIncrease(pos + (t0 + t1 + fog + gray + ins))
  {
    RanksJoin(t0, t1, 1, 4, 7);
    RanksJoin(t0 + t1, fog, 1, 7, 8);
    RanksJoin(t0 + t1 + fog, gray, 1, 8, 9);
    RanksJoin(t0 + t1 + fog + gray, ins, 1, 9, 9 + n);
    RanksJoin(pos, t0 + t1 + fog + gray + ins, 0, 1, 9 + n);
  }

  /** No two entries of the attribute table share a name, so each location
      the program is asked for belongs to exactly one entry. */
  lemma TableNamesDistinct(f: CCFeatures)
    ensures forall k, m :: 0 <= k < m < |AttribTable(f)| ==>
              NameText(AttribTable(f)[k].name) != NameText(AttribTable(f)[m].name)
  {
    var t := AttribTable(f);
    TableRanks(f);
    forall k, m | 0 <= k < m < |t|
      ensures NameText(t[k].name) != NameText(t[m].name)
    {
      if NameText(t[k].name) == NameText(t[m].name) {
        NameTextInjective(t[k].name, t[m].name);
      }
    }
  }
}
