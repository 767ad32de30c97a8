/** The colour-combiner vocabulary: the term selectors, the option bit masks
    and the decoded feature record the shader generator consumes. */
module CC {
  import opened Base

  /** The combiner term selectors, in declaration order. `Noise` is the
      enumerator the generator reads beyond the fourteen of the header. */
  datatype Selector =
    | Zero
    | Input1 | Input2 | Input3 | Input4 | Input5 | Input6 | Input7
    | Texel0 | Texel0A | Texel1 | Texel1A
    | One
    | Combined
    | Noise

  /** Every selector, listed in enumerator order. */
  const AllSelectors: seq<Selector> :=
    [Zero, Input1, Input2, Input3, Input4, Input5, Input6, Input7,
     Texel0, Texel0A, Texel1, Texel1A, One, Combined, Noise]

  /** The enumerator value of a selector; it always fits the 4-bit slot the
      packed identifier reserves for it. */
  function Code(s: Selector): (b: u8)
    ensures b < 16
  {
    match s
    case Zero => 0
    case Input1 => 1
    case Input2 => 2
    case Input3 => 3
    case Input4 => 4
    case Input5 => 5
    case Input6 => 6
    case Input7 => 7
    case Texel0 => 8
    case Texel0A => 9
    case Texel1 => 10
    case Texel1A => 11
    case One => 12
    case Combined => 13
    case Noise => 14
  }

  /** The selector a stored byte names, or `None` for a value no enumerator has. */
  function SelectorOf(b: int): (r: Option<Selector>)
    ensures r.Some? <==> 0 <= b < |AllSelectors|
    ensures r.Some? ==> Code(r.value) == b
  {
    if 0 <= b < |AllSelectors| then Some(AllSelectors[b]) else None
  }

  lemma CodeRoundTrip(s: Selector)
    ensures SelectorOf(Code(s)) == Some(s)
  {
  }

  /** The enumerators are contiguous from 0: the k-th listed selector has
      value k, the header's fourteen occupy 0..13, and every selector is listed. */
  lemma EnumeratorValues()
    ensures forall k :: 0 <= k < |AllSelectors| ==> Code(AllSelectors[k]) == k
    ensures forall s: Selector :: s in AllSelectors
    ensures Code(Zero) == 0 && Code(One) == 12 && Code(Combined) == 13
  {
    forall s: Selector
      ensures s in AllSelectors
    {
      assert AllSelectors[Code(s)] == s;
    }
  }

  // Option bits of the second identifier word.
  const OPT_ALPHA: bv32 := 1 << 0
  const OPT_FOG: bv32 := 1 << 1
  const OPT_TEXTURE_EDGE: bv32 := 1 << 2
  const OPT_NOISE: bv32 := 1 << 3
  const OPT_2CYC: bv32 := 1 << 4

  const OptionMasks: seq<bv32> := [OPT_ALPHA, OPT_FOG, OPT_TEXTURE_EDGE, OPT_NOISE, OPT_2CYC]

  function HasOption(bits: bv32, mask: bv32): bool
  {
    bits & mask != 0
  }

  /** The five option masks are the single bits 0 to 4, so they are pairwise disjoint. */
  lemma OptionMasksAreDistinctBits()
    ensures forall k :: 0 <= k < |OptionMasks| ==> OptionMasks[k] == 1 << k
    ensures forall k, m :: 0 <= k < m < |OptionMasks| ==> OptionMasks[k] & OptionMasks[m] == 0
  {
  }

  /** Because the masks are disjoint, setting one option never changes
      whether another is reported set. */
  lemma {:induction false} OptionsIndependent(bits: bv32, k: nat, m: nat)
    requires k < |OptionMasks| && m < |OptionMasks|
    ensures HasOption(bits | OptionMasks[k], OptionMasks[k])
    ensures k != m ==> HasOption(bits | OptionMasks[k], OptionMasks[m]) == HasOption(bits, OptionMasks[m])
  {
    OptionMasksAreDistinctBits();
    var a := OptionMasks[k];
    assert a != 0;
    SetBitKept(bits, a);
    if k != m {
      var b := OptionMasks[m];
      if k < m {
        assert a & b == 0;
      } else {
        assert b & a == 0;
        AndCommutes(a, b);
      }
      OtherBitUnchanged(bits, a, b);
    }
  }

  lemma SetBitKept(bits: bv32, a: bv32)
    requires a != 0
    ensures (bits | a) & a != 0
  {
  }

  lemma AndCommutes(a: bv32, b: bv32)
    ensures a & b == b & a
  {
  }

  lemma OtherBitUnchanged(bits: bv32, a: bv32, b: bv32)
    requires a & b == 0
    ensures (bits | a) & b == bits & b
  {
  }

  /** The decoded combiner configuration. `c` is indexed [cycle][channel][slot]
      (channel 0 colour, 1 alpha); the shape flags are indexed [cycle][channel];
      `clamp` is indexed [texture unit][axis] (axis 0 is S, 1 is T). */
  datatype CCFeatures = CCFeatures(
    c: Pair2<Quad<u8>>,
    optAlpha: bool,
    optFog: bool,
    optTextureEdge: bool,
    optNoise: bool,
    opt2Cyc: bool,
    optGrayscale: bool,
    optAlphaThreshold: bool,
    optInvisible: bool,
    clamp: Pair2<bool>,
    usedTextures: Pair<bool>,
    numInputs: int,
    doSingle: Pair2<bool>,
    doMultiply: Pair2<bool>,
    doMix: Pair2<bool>,
    colorAlphaSame: Pair<bool>)

  /** The decoder from the packed identifier pair: total, one record per pair,
      no error result. Its body is not part of this model. */
  type Decoder = (u64, u32) -> CCFeatures

  /** The selector grid laid out as the C array `uint8_t c[2][2][4]` lies in memory. */
  function FlattenGrid(g: Pair2<Quad<u8>>): (r: seq<u8>)
    ensures |r| == 2 * 2 * 4
    ensures forall cyc, ch, slot :: 0 <= cyc < 2 && 0 <= ch < 2 && 0 <= slot < 4 ==>
              r[8 * cyc + 4 * ch + slot] == g.At(cyc).At(ch).At(slot)
  {
    var q0, q1, q2, q3 := g.fst.fst, g.fst.snd, g.snd.fst, g.snd.snd;
    [q0.s0, q0.s1, q0.s2, q0.s3, q1.s0, q1.s1, q1.s2, q1.s3,
     q2.s0, q2.s1, q2.s2, q2.s3, q3.s0, q3.s1, q3.s2, q3.s3]
  }

  function UnflattenGrid(r: seq<u8>): Pair2<Quad<u8>>
    requires |r| == 16
  {
    Pair2(Pair(Quad(r[0], r[1], r[2], r[3]), Quad(r[4], r[5], r[6], r[7])),
         Pair(Quad(r[8], r[9], r[10], r[11]), Quad(r[12], r[13], r[14], r[15])))
  }

  /** The grid holds exactly 2 x 2 x 4 selectors and nothing else. */
  lemma GridRoundTrip(g: Pair2<Quad<u8>>, r: seq<u8>)
    ensures UnflattenGrid(FlattenGrid(g)) == g
    ensures |r| == 16 ==> FlattenGrid(UnflattenGrid(r)) == r
  {
  }
}
