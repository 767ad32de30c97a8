/** The fragment stage text: its declarations, its texture fetches, the
    combiner cycles and the post-combiner effects, with the order and the
    gating the generator gives them. */
module Fragment {
  import opened Base
  import opened CC
  import opened Layout
  import opened Terms
  import opened Vertex

  // Declarations.

  function FragClampVarying(f: CCFeatures, i: nat, j: nat): seq<string>
    requires i < 2 && j < 2
  {
    if f.clamp.At(i).At(j) then [VaryingLine("float", "TexClamp" + AxisLetter(j) + NatToString(i))] else []
  }

  function FragTexVaryings(f: CCFeatures, i: nat): seq<string>
    requires i < 2
  {
    if f.usedTextures.At(i) then
      [VaryingLine("vec2", "TexCoord" + NatToString(i))] + FragClampVarying(f, i, 0) + FragClampVarying(f, i, 1)
    else []
  }

  function FragInputVaryings(n: nat, optAlpha: bool): seq<string>
  {
    if n == 0 then [] else FragInputVaryings(n - 1, optAlpha) + [VaryingLine(InputType(optAlpha), "Input" + NatToString(n))]
  }

  /** The varyings the fragment stage reads, in the order it declares them. */
  function FragmentVaryings(f: CCFeatures): seq<string>
  {
    FragTexVaryings(f, 0) + FragTexVaryings(f, 1)
    + (if f.optFog then [VaryingLine("vec4", "Fog")] else [])
    + (if f.optGrayscale then [VaryingLine("vec4", "GrayscaleColor")] else [])
    + FragInputVaryings(InputCount(f), f.optAlpha)
  }

  /** The varying declaration of every attribute, in table order. */
  function Varyings(attrs: seq<Attrib>): (r: seq<string>)
    ensures |r| == |attrs|
    ensures forall k :: 0 <= k < |attrs| ==> r[k] == VaryingDecl(attrs[k])
  {
    seq(|attrs|, k requires 0 <= k < |attrs| => VaryingDecl(attrs[k]))
  }

  lemma VaryingsAppend(a: seq<Attrib>, b: seq<Attrib>)
    ensures Varyings(a + b) == Varyings(a) + Varyings(b)
  {
  }

  lemma VaryingsSingle(a: Attrib)
    ensures Varyings([]) == []
    ensures Varyings([a]) == [VaryingDecl(a)]
  {
  }

  lemma {:induction false} TexVaryingsFollowTable(f: CCFeatures, i: nat)
    requires i < 2
    ensures FragTexVaryings(f, i) == Varyings(TexAttribs(f, i))
  {
    if f.usedTextures.At(i) {
      var c := [Attrib(TexCoord(i), 2)];
      var s := if f.clamp.At(i).At(0) then [Attrib(TexClamp(0, i), 1)] else [];
      var t := if f.clamp.At(i).At(1) then [Attrib(TexClamp(1, i), 1)] else [];
      VaryingsAppend(c, s);
      VaryingsAppend(c + s, t);
      VaryingsSingle(c[0]);
      VaryingsSingle(Attrib(TexClamp(0, i), 1));
      VaryingsSingle(Attrib(TexClamp(1, i), 1));
    }
  }

  lemma {:induction false} InputVaryingsFollowTable(n: nat, optAlpha: bool)
    ensures FragInputVaryings(n, optAlpha) == Varyings(InputAttribs(n, if optAlpha then 4 else 3))
  {
    var width := if optAlpha then 4 else 3;
    if n > 0 {
      InputVaryingsFollowTable(n - 1, optAlpha);
      var a := Attrib(Input(n), width);
      assert InputAttribs(n, width) == InputAttribs(n - 1, width) + [a];
      VaryingsAppend(InputAttribs(n - 1, width), [a]);
      VaryingsSingle(a);
      assert GlslType(width) == InputType(optAlpha) by {
        if optAlpha {
          assert GlslType(4) == "vec4";
        } else {
          assert GlslType(3) == "vec3";
        }
      }
    }
  }

  lemma FixedVaryingsFollowTable(f: CCFeatures)
    ensures Varyings(if f.optFog then [Attrib(Fog, 4)] else [])
            == (if f.optFog then [VaryingLine("vec4", "Fog")] else [])
    ensures Varyings(if f.optGrayscale then [Attrib(GrayscaleColor, 4)] else [])
            == (if f.optGrayscale then [VaryingLine("vec4", "GrayscaleColor")] else [])
  {
    assert GlslType(4) == "vec4";
    VaryingsSingle(Attrib(Fog, 4));
    VaryingsSingle(Attrib(GrayscaleColor, 4));
  }

  /** The fragment stage declares one varying per attribute after the
      position, in table order, with the attribute's type. */
  lemma {:induction false} FragmentVaryingsFollowTable(f: CCFeatures)
    ensures FragmentVaryings(f) == Varyings(VaryingAttribs(f))
  {
    TexVaryingsFollowTable(f, 0);
    TexVaryingsFollowTable(f, 1);
    InputVaryingsFollowTable(InputCount(f), f.optAlpha);
    FixedVaryingsFollowTable(f);
    var t0, t1 := TexAttribs(f, 0), TexAttribs(f, 1);
    var fog := if f.optFog then [Attrib(Fog, 4)] else [];
    var gray := if f.optGrayscale then [Attrib(GrayscaleColor, 4)] else [];
    var ins := InputAttribs(InputCount(f), if f.optAlpha then 4 else 3);
    assert VaryingAttribs(f) == t0 + t1 + fog + gray + ins;
    VaryingsAppend(t0, t1);
    VaryingsAppend(t0 + t1, fog);
    VaryingsAppend(t0 + t1 + fog, gray);
    VaryingsAppend(t0 + t1 + fog + gray, ins);
  }

  /** The two stages agree on their interface: the k-th varying the fragment
      stage reads is declared, with the same type and name, as the k-th
      varying of the vertex stage, and the vertex stage writes it in `main`. */
  lemma StagesAgree(f: CCFeatures)
    ensures 2 * |FragmentVaryings(f)| == |VertexDecls(f)|
    ensures |FragmentVaryings(f)| == |VertexCopies(f)| == |VaryingAttribs(f)|
    ensures forall k :: 0 <= k < |FragmentVaryings(f)| ==>
              && FragmentVaryings(f)[k] == VertexDecls(f)[2 * k + 1]
              && VertexCopies(f)[k] == CopyStmt(VaryingAttribs(f)[k])
  {
    FragmentVaryingsFollowTable(f);
    VertexDeclsFollowTable(f);
    var v := VaryingAttribs(f);
    forall k | 0 <= k < |v|
      ensures FragmentVaryings(f)[k] == VertexDecls(f)[2 * k + 1]
    {
      DeclPairsAt(v, k);
    }
  }

  /** A sampler uniform per used texture unit. */
  function Samplers(f: CCFeatures): seq<string>
  {
    (if f.usedTextures.At(0) then ["uniform sampler2D uTex0;"] else [])
    + (if f.usedTextures.At(1) then ["uniform sampler2D uTex1;"] else [])
  }

  const UniformLines: seq<string> := ["uniform int frame_count;", "uniform float noise_scale;"]

  /** The hash-based noise function; it is declared whatever the features. */
  const RandomFunction: seq<string> := [
    "float random(in vec3 value) {",
    "    float random = dot(sin(value), vec3(12.9898, 78.233, 37.719));",
    "    return fract(sin(random) * 143758.5453);",
    "}"
  ]

  /** The texture lookup helper: with three-point filtering it reconstructs
      from three texels, otherwise it samples once. */
  function FilterHelper(threePoint: bool): seq<string>
  {
    if threePoint then [
      "#define TEX_OFFSET(off) texture2D(tex, texCoord - (off)/texSize)",
      "vec4 filter3point(in sampler2D tex, in vec2 texCoord, in vec2 texSize) {",
      "    vec2 offset = fract(texCoord*texSize - vec2(0.5));",
      "    offset -= step(1.0, offset.x + offset.y);",
      "    vec4 c0 = TEX_OFFSET(offset);",
      "    vec4 c1 = TEX_OFFSET(vec2(offset.x - sign(offset.x), offset.y));",
      "    vec4 c2 = TEX_OFFSET(vec2(offset.x, offset.y - sign(offset.y)));",
      "    return c0 + abs(offset.x)*(c1-c0) + abs(offset.y)*(c2-c0);",
      "}",
      "vec4 hookTexture2D(in sampler2D tex, in vec2 uv, in vec2 texSize) {",
      "    return filter3point(tex, uv, texSize);",
      "}"
    ] else [
      "vec4 hookTexture2D(in sampler2D tex, in vec2 uv, in vec2 texSize) {",
      "    return texture2D(tex, uv);",
      "}"
    ]
  }

  const WrapDefine: string := "#define WRAP(x, low, high) mod((x)-(low), (high)-(low)) + (low)"

  // Texture fetches.

  /** How a unit's coordinate is clamped before the fetch. */
  datatype ClampForm = Unclamped | BothAxes | SOnly | TOnly

  function ClampFormOf(s: bool, t: bool): ClampForm
  {
    if !s && !t then Unclamped else if s && t then BothAxes else if s then SOnly else TOnly
  }

  /** The axes whose clamp varying a form reads (0 for S, 1 for T). */
  function ClampedAxes(form: ClampForm): set<nat>
  {
    match form
    case Unclamped => {}
    case BothAxes => {0, 1}
    case SOnly => {0}
    case TOnly => {1}
  }

  function TexSizeLine(i: nat): string
  {
    "vec2 texSize" + NatToString(i) + " = textureSize(uTex" + NatToString(i) + ", 0);"
  }

  function FetchLine(i: nat, form: ClampForm): string
  {
    var n := NatToString(i);
    "vec4 texVal" + n + " = hookTexture2D(uTex" + n + ", "
    + (match form
       case Unclamped => "vTexCoord" + n
       case BothAxes =>
         "clamp(vTexCoord" + n + ", 0.5 / texSize" + n + ", vec2(vTexClampS" + n + ", vTexClampT" + n + "))"
       case SOnly =>
         "vec2(clamp(vTexCoord" + n + ".s, 0.5 / texSize" + n + ".s, vTexClampS" + n + "), vTexCoord" + n + ".t)"
       case TOnly =>
         "vec2(vTexCoord" + n + ".s, clamp(vTexCoord" + n + ".t, 0.5 / texSize" + n + ".t, vTexClampT" + n + "))")
    + ", texSize" + n + ");"
  }

  function FetchLines(f: CCFeatures, i: nat): seq<string>
    requires i < 2
  {
    if f.usedTextures.At(i) then
      [TexSizeLine(i), FetchLine(i, ClampFormOf(f.clamp.At(i).At(0), f.clamp.At(i).At(1)))]
    else []
  }

  function TextureFetches(f: CCFeatures): seq<string>
  {
    FetchLines(f, 0) + FetchLines(f, 1)
  }

  /** The fetch of a used unit reads exactly the clamp varyings that the
      attribute table gives that unit: the fetch never names a varying that
      was not declared, and no declared clamp bound goes unused. */
  lemma FetchReadsDeclaredClamps(f: CCFeatures, i: nat, j: nat)
    requires i < 2 && j < 2 && f.usedTextures.At(i)
    ensures j in ClampedAxes(ClampFormOf(f.clamp.At(i).At(0), f.clamp.At(i).At(1)))
            <==> Attrib(TexClamp(j, i), 1) in VaryingAttribs(f)
  {
    var a := Attrib(TexClamp(j, i), 1);
    var fog := if f.optFog then [Attrib(Fog, 4)] else [];
    var gray := if f.optGrayscale then [Attrib(GrayscaleColor, 4)] else [];
    var ins := InputAttribs(InputCount(f), InputWidth(f));
    assert VaryingAttribs(f) == TexAttribs(f, 0) + TexAttribs(f, 1) + fog + gray + ins;
    assert a !in fog && a !in gray;
    NoClampAmongInputs(InputCount(f), InputWidth(f), j, i);
    ClampInTexAttribs(f, j, i, 0);
    ClampInTexAttribs(f, j, i, 1);
  }

  lemma NoClampAmongInputs(n: nat, width: nat, j: nat, i: nat)
    ensures Attrib(TexClamp(j, i), 1) !in InputAttribs(n, width)
  {
    var ins := InputAttribs(n, width);
    forall k | 0 <= k < |ins|
      ensures ins[k] != Attrib(TexClamp(j, i), 1)
    {
      assert ins[k].name == Input(k + 1);
    }
  }

  lemma ClampInTexAttribs(f: CCFeatures, j: nat, i: nat, u: nat)
    requires i < 2 && j < 2 && u < 2
    ensures Attrib(TexClamp(j, i), 1) in TexAttribs(f, u)
            <==> u == i && f.usedTextures.At(i) && f.clamp.At(i).At(j)
  {
  }

  // The combiner cycles.

  /** The right-hand side of one cycle's assignment: one formula over all
      channels, or a colour and an alpha formula joined into a `vec4`. */
  datatype CycleBody = Joint(formula: string) | Split(color: string, alpha: string)

  function CycleCount(f: CCFeatures): nat
  {
    if f.opt2Cyc then 2 else 1
  }

  /** The assignment of cycle `c`. Colour and alpha are synthesised apart
      only when the program has alpha and the two formulas differ; the joint
      formula reads the colour row and renders with alpha when the program
      has it. */
  function CycleBodyOf(f: CCFeatures, c: nat): CycleBody
    requires c < 2
  {
    if !f.colorAlphaSame.At(c) && f.optAlpha then
      Split(AppendFormula(f.c.At(c), f.doSingle.At(c).At(0), f.doMultiply.At(c).At(0), f.doMix.At(c).At(0),
                          false, false, true),
            AppendFormula(f.c.At(c), f.doSingle.At(c).At(1), f.doMultiply.At(c).At(1), f.doMix.At(c).At(1),
                          true, true, true))
    else
      Joint(AppendFormula(f.c.At(c), f.doSingle.At(c).At(0), f.doMultiply.At(c).At(0), f.doMix.At(c).At(0),
                          f.optAlpha, false, f.optAlpha))
  }

  /** One step of the combiner section of `main`. */
  datatype Step =
    | Combine(cycle: nat, body: CycleBody)
    | WrapAccumulator
    | WrapFinal
    | ClampFinal

  /** The steps cycle `c` contributes: its assignment, and after cycle 0 the
      wrap of the signed accumulator. */
  function CycleSteps(f: CCFeatures, c: nat): seq<Step>
    requires c < 2
  {
    [Combine(c, CycleBodyOf(f, c))] + (if c == 0 then [WrapAccumulator] else [])
  }

  function StepsUpTo(f: CCFeatures, n: nat): seq<Step>
    requires n <= 2
  {
    if n == 0 then [] else StepsUpTo(f, n - 1) + CycleSteps(f, n - 1)
  }

  /** The combiner section: the cycles in order, then the final wrap and clamp. */
  function CombinerSteps(f: CCFeatures): seq<Step>
  {
    StepsUpTo(f, CycleCount(f)) + [WrapFinal, ClampFinal]
  }

  function StepText(s: Step): string
  {
    match s
    case Combine(_, Joint(x)) => "texel = " + x + ";\n"
    case Combine(_, Split(x, a)) => "texel = vec4(" + x + ", " + a + ")" + ";\n"
    case WrapAccumulator => "texel = WRAP(texel, -1.01, 1.01);"
    case WrapFinal => "texel = WRAP(texel, -0.51, 1.51);"
    case ClampFinal => "texel = clamp(texel, 0.0, 1.0);"
  }

  function CombinerText(f: CCFeatures): string
  {
    var steps := CombinerSteps(f);
    Concat(seq(|steps|, k requires 0 <= k < |steps| => StepText(steps[k])))
  }

  /** The combiner section runs cycle 0, wraps the accumulator into
      [-1.01, 1.01), runs cycle 1 only for two-cycle programs, then wraps
      into [-0.51, 1.51) and clamps to [0, 1]: one assignment per cycle, and
      the accumulator wrap exactly once. */
  lemma {:induction false} CombinerLayout(f: CCFeatures)
    ensures var s := CombinerSteps(f);
      && |s| == CycleCount(f) + 3
      && s[0] == Combine(0, CycleBodyOf(f, 0))
      && s[1] == WrapAccumulator
      && (f.opt2Cyc ==> s[2] == Combine(1, CycleBodyOf(f, 1)))
      && s[|s| - 2] == WrapFinal
      && s[|s| - 1] == ClampFinal
    ensures forall k :: 0 <= k < |CombinerSteps(f)| ==>
              (CombinerSteps(f)[k].Combine? <==> k == 0 || (f.opt2Cyc && k == 2))
    ensures forall k :: 0 <= k < |CombinerSteps(f)| ==> (CombinerSteps(f)[k] == WrapAccumulator <==> k == 1)
  {
    assert StepsUpTo(f, 1) == CycleSteps(f, 0);
    if f.opt2Cyc {
      assert StepsUpTo(f, 2) == CycleSteps(f, 0) + CycleSteps(f, 1);
    }
  }

  /** A cycle is split into separate colour and alpha formulas exactly when
      the program has alpha and the decoder found the two formulas different. */
  lemma SplitExactly(f: CCFeatures, c: nat)
    requires c < 2
    ensures CycleBodyOf(f, c).Split? <==> f.optAlpha && !f.colorAlphaSame.At(c)
  {
  }

  /** The flags and selectors one channel of one cycle is built from. */
  predicate SameChannel(f: CCFeatures, g: CCFeatures, c: nat, ch: nat)
    requires c < 2 && ch < 2
  {
    && f.c.At(c).At(ch) == g.c.At(c).At(ch)
    && f.doSingle.At(c).At(ch) == g.doSingle.At(c).At(ch)
    && f.doMultiply.At(c).At(ch) == g.doMultiply.At(c).At(ch)
    && f.doMix.At(c).At(ch) == g.doMix.At(c).At(ch)
  }

  /** A joint assignment does not look at the alpha channel's selectors or
      shape flags at all; a split one reads both channels. */
  lemma JointIgnoresAlphaChannel(f: CCFeatures, g: CCFeatures, c: nat)
    requires c < 2
    requires f.optAlpha == g.optAlpha && f.colorAlphaSame.At(c) == g.colorAlphaSame.At(c)
    requires SameChannel(f, g, c, 0)
    requires CycleBodyOf(f, c).Joint?
    ensures CycleBodyOf(g, c) == CycleBodyOf(f, c)
  {
    assert f.c.At(c).At(Index(false)) == g.c.At(c).At(Index(false));
  }

  /** A one-cycle program does not depend on anything of cycle 1. */
  lemma OneCycleIgnoresSecond(f: CCFeatures, g: CCFeatures)
    requires !f.opt2Cyc && !g.opt2Cyc && f.optAlpha == g.optAlpha
    requires f.colorAlphaSame.At(0) == g.colorAlphaSame.At(0)
    requires SameChannel(f, g, 0, 0) && SameChannel(f, g, 0, 1)
    ensures CombinerSteps(f) == CombinerSteps(g)
  {
    assert f.c.At(0).At(Index(false)) == g.c.At(0).At(Index(false));
    assert f.c.At(0).At(Index(true)) == g.c.At(0).At(Index(true));
    assert CycleBodyOf(f, 0) == CycleBodyOf(g, 0);
    assert StepsUpTo(f, 1) == CycleSteps(f, 0);
    assert StepsUpTo(g, 1) == CycleSteps(g, 0);
  }

  // The effects after the combiner.

  /** An effect applied to `texel` after the combiner, and the final write. */
  datatype Effect =
    | FogBlend(withAlpha: bool)
    | EdgeTest
    | NoiseDither
    | Grayscale
    | AlphaThreshold
    | Invisible
    | Output(withAlpha: bool)

  /** The effects in the order the generator emits them. */
  function PostEffects(f: CCFeatures): seq<Effect>
  {
    (if f.optFog then [FogBlend(f.optAlpha)] else [])
    + (if f.optTextureEdge && f.optAlpha then [EdgeTest] else [])
    + (if f.optAlpha && f.optNoise then [NoiseDither] else [])
    + (if f.optGrayscale then [Grayscale] else [])
    + (if f.optAlpha then
         (if f.optAlphaThreshold then [AlphaThreshold] else [])
         + (if f.optInvisible then [Invisible] else [])
         + [Output(true)]
       else [Output(false)])
  }

  /** The position of an effect in the fixed order. */
  function Rank(e: Effect): nat
  {
    match e
    case FogBlend(_) => 0
    case EdgeTest => 1
    case NoiseDither => 2
    case Grayscale => 3
    case AlphaThreshold => 4
    case Invisible => 5
    case Output(_) => 6
  }

  /** Whether a feature set calls for an effect: every alpha effect needs
      the program to have alpha, and the fog blend and the final write take
      the program's alpha as their form. */
  predicate Enabled(f: CCFeatures, e: Effect)
  {
    match e
    case FogBlend(a) => f.optFog && a == f.optAlpha
    case EdgeTest => f.optTextureEdge && f.optAlpha
    case NoiseDither => f.optNoise && f.optAlpha
    case Grayscale => f.optGrayscale
    case AlphaThreshold => f.optAlphaThreshold && f.optAlpha
    case Invisible => f.optInvisible && f.optAlpha
    case Output(a) => a == f.optAlpha
  }

  predicate StrictlyRanked(es: seq<Effect>)
  {
    forall k, m :: 0 <= k < m < |es| ==> Rank(es[k]) < Rank(es[m])
  }

  /** The effects are emitted in the fixed order fog, edge test, noise,
      grayscale, alpha threshold, invisibility, output; each exactly when the
      features call for it; the output last. */
  lemma PostEffectsOrdered(f: CCFeatures)
    ensures StrictlyRanked(PostEffects(f))
    ensures forall e :: e in PostEffects(f) <==> Enabled(f, e)
    ensures |PostEffects(f)| > 0 && PostEffects(f)[|PostEffects(f)| - 1] == Output(f.optAlpha)
  {
    PostEffectsRanked(f);
    PostEffectsEnabled(f);
  }

  /** The five groups the generator emits one after another. */
  function EffectGroups(f: CCFeatures): seq<seq<Effect>>
  {
    [if f.optFog then [FogBlend(f.optAlpha)] else [],
     if f.optTextureEdge && f.optAlpha then [EdgeTest] else [],
     if f.optAlpha && f.optNoise then [NoiseDither] else [],
     if f.optGrayscale then [Grayscale] else [],
     if f.optAlpha then
       (if f.optAlphaThreshold then [AlphaThreshold] else [])
       + (if f.optInvisible then [Invisible] else [])
       + [Output(true)]
     else [Output(false)]]
  }

  lemma PostEffectsGrouped(f: CCFeatures)
    ensures var g := EffectGroups(f);
      PostEffects(f) == g[0] + g[1] + g[2] + g[3] + g[4]
  {
  }

  lemma {:induction false} PostEffectsRanked(f: CCFeatures)
    ensures StrictlyRanked(PostEffects(f))
  {
    var g := EffectGroups(f);
    PostEffectsGrouped(f);
    GroupRanks(f, 0);
    GroupRanks(f, 1);
    GroupRanks(f, 2);
    GroupRanks(f, 3);
    TailRanked(f);
    var a1 := g[0] + g[1];
    RankedAppend(g[0], g[1], 1, 2);
    var a2 := a1 + g[2];
    RankedAppend(a1, g[2], 2, 3);
    var a3 := a2 + g[3];
    RankedAppend(a2, g[3], 3, 4);
    RankedAppend(a3, g[4], 4, 7);
  }

  /** Each of the first four groups holds at most its one effect, of rank
      equal to the group's position. */
  lemma GroupRanks(f: CCFeatures, i: nat)
    requires i < 4
    ensures var g := EffectGroups(f)[i];
      && |g| <= 1
      && (forall e :: e in g ==> Rank(e) == i)
      && StrictlyRanked(g)
  {
  }

  lemma {:induction false} PostEffectsEnabled(f: CCFeatures)
    ensures forall e :: e in PostEffects(f) <==> Enabled(f, e)
    ensures |PostEffects(f)| > 0 && PostEffects(f)[|PostEffects(f)| - 1] == Output(f.optAlpha)
  {
    var g := EffectGroups(f);
    PostEffectsGrouped(f);
    forall e
      ensures e in PostEffects(f) <==> Enabled(f, e)
    {
      assert e in PostEffects(f) <==> e in g[0] || e in g[1] || e in g[2] || e in g[3] || e in g[4];
      TailMembers(f, e);
    }
  }

  lemma TailRanked(f: CCFeatures)
    ensures var tail := EffectGroups(f)[4];
      && StrictlyRanked(tail)
      && (forall e :: e in tail ==> 4 <= Rank(e))
  {
  }

  lemma TailMembers(f: CCFeatures, e: Effect)
    ensures e in EffectGroups(f)[4] <==> Enabled(f, e) && 4 <= Rank(e)
  {
  }

  /** Appending a ranked list whose ranks lie in [r, t) to a ranked list
      whose ranks lie below r keeps it ranked, with all ranks below t. */
  lemma RankedAppend(a: seq<Effect>, b: seq<Effect>, r: nat, t: nat)
    requires StrictlyRanked(a) && StrictlyRanked(b) && r <= t
    requires forall x :: x in a ==> Rank(x) < r
    requires forall y :: y in b ==> r <= Rank(y) < t
    ensures StrictlyRanked(a + b)
    ensures forall x :: x in a + b ==> Rank(x) < t
  {
    forall k, m | 0 <= k < m < |a + b|
      ensures Rank((a + b)[k]) < Rank((a + b)[m])
    {
      if k < |a| && m >= |a| {
        assert (a + b)[k] in a && (a + b)[m] in b;
      }
    }
    forall x | x in a + b
      ensures Rank(x) < t
    {
      assert x in a || x in b;
    }
  }

  /** Ordering and membership determine the effect list: any strictly
      ranked list of exactly the enabled effects is the generator's. */
  lemma PostEffectsUnique(f: CCFeatures, es: seq<Effect>)
    requires StrictlyRanked(es)
    requires forall e :: e in es <==> Enabled(f, e)
    ensures es == PostEffects(f)
  {
    PostEffectsOrdered(f);
    RankedUnique(es, PostEffects(f));
  }

  lemma {:induction false} RankedUnique(a: seq<Effect>, b: seq<Effect>)
    requires StrictlyRanked(a) && StrictlyRanked(b)
    requires forall e :: e in a <==> e in b
    ensures a == b
    decreases |a|
  {
    assert |a| > 0 ==> a[0] in b;
    assert |b| > 0 ==> b[0] in a;
    if |a| > 0 {
      var i :| 0 <= i < |b| && b[i] == a[0];
      var j :| 0 <= j < |a| && a[j] == b[0];
      assert Rank(a[0]) <= Rank(a[j]);
      assert Rank(b[0]) <= Rank(b[i]);
      assert i == 0;
      forall e
        ensures e in a[1..] <==> e in b[1..]
      {
        if e in a[1..] {
          var k :| 1 <= k < |a| && a[k] == e;
          assert Rank(a[0]) < Rank(a[k]);
          assert e in b;
        }
        if e in b[1..] {
          var k :| 1 <= k < |b| && b[k] == e;
          assert Rank(b[0]) < Rank(b[k]);
          assert e in a;
        }
      }
      RankedUnique(a[1..], b[1..]);
      assert a == [a[0]] + a[1..] && b == [b[0]] + b[1..];
    }
  }

  function EffectLines(e: Effect): seq<string>
  {
    match e
    case FogBlend(true) => ["texel = vec4(mix(texel.rgb, vFog.rgb, vFog.a), texel.a);"]
    case FogBlend(false) => ["texel = mix(texel, vFog.rgb, vFog.a);"]
    case EdgeTest => ["if (texel.a > 0.19) texel.a = 1.0; else discard;"]
    case NoiseDither =>
      ["texel.a *= floor(clamp(random(vec3(floor(gl_FragCoord.xy * noise_scale), float(frame_count))) + texel.a, 0.0, 1.0));"]
    case Grayscale => [
      "float intensity = (texel.r + texel.g + texel.b) / 3.0;",
      "vec3 new_texel = vGrayscaleColor.rgb * intensity;",
      "texel.rgb = mix(texel.rgb, new_texel, vGrayscaleColor.a);"]
    case AlphaThreshold => ["if (texel.a < 8.0 / 256.0) discard;"]
    case Invisible => ["texel.a = 0.0;"]
    case Output(true) => ["gl_FragColor = texel;"]
    case Output(false) => ["gl_FragColor = vec4(texel, 1.0);"]
  }

  function EffectsLines(es: seq<Effect>): seq<string>
  {
    if |es| == 0 then [] else EffectsLines(es[..|es| - 1]) + EffectLines(es[|es| - 1])
  }

  // The whole stage.

  /** The declarations: version, varyings, samplers, uniforms. */
  function Declarations(f: CCFeatures): seq<string>
  {
    ["#version 130"] + FragmentVaryings(f) + Samplers(f) + UniformLines
  }

  /** The helper functions declared before `main`. */
  function Helpers(threePoint: bool): seq<string>
  {
    RandomFunction + FilterHelper(threePoint)
  }

  /** The opening of `main` up to the declaration of the accumulator `texel`,
      four components wide exactly with alpha. */
  function MainPrologue(f: CCFeatures): seq<string>
  {
    ["void main() {", WrapDefine] + TextureFetches(f) + [TexelDecl(f.optAlpha)]
  }

  /** The declaration of the accumulator `texel`. */
  function TexelDecl(optAlpha: bool): string
  {
    if optAlpha then "vec4 texel;" else "vec3 texel;"
  }

  /** The lines before the combiner section. */
  function FragmentHeader(f: CCFeatures, threePoint: bool): seq<string>
  {
    Declarations(f) + Helpers(threePoint) + MainPrologue(f)
  }

  /** The fragment shader text. `threePoint` is whether the current filter
      mode is three-point filtering. */
  function FragmentShader(f: CCFeatures, threePoint: bool): string
  {
    Concat(Lines(FragmentHeader(f, threePoint)))
    + CombinerText(f)
    + Concat(Lines(EffectsLines(PostEffects(f)) + ["}"]))
  }

  /** The header is the declarations, then the helper functions opening
      with the noise function, which is declared whether or not any term or
      effect uses noise, and it ends with the accumulator. */
  lemma HeaderLayout(f: CCFeatures, threePoint: bool)
    ensures var h := FragmentHeader(f, threePoint);
      var n := |Declarations(f)|;
      && |h| > n + 4
      && h[..n] == Declarations(f)
      && h[n..n + 4] == RandomFunction
      && h[|h| - 1] == TexelDecl(f.optAlpha)
  {
    HeaderPieces(f, threePoint);
    HeaderEnd(f, threePoint);
  }

  lemma HeaderPieces(f: CCFeatures, threePoint: bool)
    ensures var h := FragmentHeader(f, threePoint);
      var n := |Declarations(f)|;
      && |h| > n + 4
      && h[..n] == Declarations(f)
      && h[n..n + 4] == RandomFunction
  {
    var h, d, fh, m := FragmentHeader(f, threePoint), Declarations(f), FilterHelper(threePoint), MainPrologue(f);
    assert h == d + (RandomFunction + fh) + m;
    HeaderSlices(d, RandomFunction, fh, m);
  }

  lemma HeaderEnd(f: CCFeatures, threePoint: bool)
    ensures var h := FragmentHeader(f, threePoint);
      |h| >= 1 && h[|h| - 1] == TexelDecl(f.optAlpha)
  {
    var h, d, fh, m := FragmentHeader(f, threePoint), Declarations(f), FilterHelper(threePoint), MainPrologue(f);
    assert h == d + (RandomFunction + fh) + m;
    PrologueEndsWithAccumulator(f);
    HeaderSlices(d, RandomFunction, fh, m);
  }

  lemma PrologueEndsWithAccumulator(f: CCFeatures)
    ensures var m := MainPrologue(f);
      |m| >= 1 && m[|m| - 1] == TexelDecl(f.optAlpha)
  {
  }

  /** The declarations open the stage in a fixed order: the version line,
      the varyings, one sampler per used unit, then the two uniforms. */
  lemma DeclarationsLayout(f: CCFeatures)
    ensures var d := Declarations(f);
      && |d| == 3 + |FragmentVaryings(f)| + |Samplers(f)|
      && |Samplers(f)| == (if f.usedTextures.At(0) then 1 else 0) + (if f.usedTextures.At(1) then 1 else 0)
      && d[0] == "#version 130"
      && d[1..1 + |FragmentVaryings(f)|] == FragmentVaryings(f)
      && d[|d| - 2..] == UniformLines
  {
  }

  lemma HeaderSlices<T>(d: seq<T>, r: seq<T>, fh: seq<T>, m: seq<T>)
    requires |m| >= 1
    ensures (d + (r + fh) + m)[..|d|] == d
    ensures (d + (r + fh) + m)[|d|..|d| + |r|] == r
    ensures (d + (r + fh) + m)[|d + (r + fh) + m| - 1] == m[|m| - 1]
  {
  }
}
