/** Rendering of one combiner term as shading-language text, and the formula
    builder that strings four terms into one of the four combiner shapes. */
module Terms {
  import opened Base
  import opened CC

  /** The per-pixel pseudo-random scalar in [0, 1] the noise selector stands for. */
  const RandNoise: string :=
    "((random(vec3(floor(gl_FragCoord.xy * noise_scale), float(frame_count))) + 1.0) / 2.0)"

  /** The text of one term. `withAlpha` asks for a four-component value,
      `onlyAlpha` for the scalar alpha component, `inputsHaveAlpha` says the
      vertex inputs were declared with four components, and `hintSingle`
      allows an alpha-texel term to stay a bare scalar. */
  function ItemToStr(item: int, withAlpha: bool, onlyAlpha: bool, inputsHaveAlpha: bool, hintSingle: bool): string
  {
    match SelectorOf(item)
    case None => ""
    case Some(s) =>
      if !onlyAlpha then
        match s
        case Zero => if withAlpha then "vec4(0.0, 0.0, 0.0, 0.0)" else "vec3(0.0, 0.0, 0.0)"
        case One => if withAlpha then "vec4(1.0, 1.0, 1.0, 1.0)" else "vec3(1.0, 1.0, 1.0)"
        case Input1 => if withAlpha || !inputsHaveAlpha then "vInput1" else "vInput1.rgb"
        case Input2 => if withAlpha || !inputsHaveAlpha then "vInput2" else "vInput2.rgb"
        case Input3 => if withAlpha || !inputsHaveAlpha then "vInput3" else "vInput3.rgb"
        case Input4 => if withAlpha || !inputsHaveAlpha then "vInput4" else "vInput4.rgb"
        case Input5 => ""
        case Input6 => ""
        case Input7 => ""
        case Texel0 => if withAlpha then "texVal0" else "texVal0.rgb"
        case Texel0A =>
          if hintSingle then "texVal0.a"
          else if withAlpha then "vec4(texVal0.a, texVal0.a, texVal0.a, texVal0.a)"
          else "vec3(texVal0.a, texVal0.a, texVal0.a)"
        case Texel1A =>
          if hintSingle then "texVal1.a"
          else if withAlpha then "vec4(texVal1.a, texVal1.a, texVal1.a, texVal1.a)"
          else "vec3(texVal1.a, texVal1.a, texVal1.a)"
        case Texel1 => if withAlpha then "texVal1" else "texVal1.rgb"
        case Combined => if withAlpha then "texel" else "texel.rgb"
        case Noise =>
          if withAlpha then "vec4(" + RandNoise + ", " + RandNoise + ", " + RandNoise + ", " + RandNoise + ")"
          else "vec3(" + RandNoise + ", " + RandNoise + ", " + RandNoise + ")"
      else
        match s
        case Zero => "0.0"
        case One => "1.0"
        case Input1 => "vInput1.a"
        case Input2 => "vInput2.a"
        case Input3 => "vInput3.a"
        case Input4 => "vInput4.a"
        case Input5 => ""
        case Input6 => ""
        case Input7 => ""
        case Texel0 => "texVal0.a"
        case Texel0A => "texVal0.a"
        case Texel1A => "texVal1.a"
        case Texel1 => "texVal1.a"
        case Combined => "texel.a"
        case Noise => RandNoise
  }

  predicate EndsWith(s: string, suffix: string)
  {
    |suffix| <= |s| && s[|s| - |suffix|..] == suffix
  }

  /** Text denoting a single scalar: a constant, an alpha component or the noise value. */
  predicate IsScalarText(r: string)
  {
    r == "0.0" || r == "1.0" || r == RandNoise || EndsWith(r, ".a")
  }

  /** With `onlyAlpha` every known term renders as a scalar; unknown ones render empty. */
  lemma OnlyAlphaIsScalar(item: int, withAlpha: bool, inputsHaveAlpha: bool, hintSingle: bool)
    ensures var r := ItemToStr(item, withAlpha, true, inputsHaveAlpha, hintSingle);
            r == "" || IsScalarText(r)
    ensures var r := ItemToStr(item, withAlpha, true, inputsHaveAlpha, hintSingle);
            r != "" <==> SelectorOf(item).Some? && SelectorOf(item).value !in {Input5, Input6, Input7}
  {
  }

  /** An input term gets the `.rgb` swizzle exactly when a three-component
      value is wanted from an input declared with four. */
  lemma InputSwizzle(k: nat, withAlpha: bool, inputsHaveAlpha: bool, hintSingle: bool)
    requires 1 <= k <= 4
    ensures var r := ItemToStr(k, withAlpha, false, inputsHaveAlpha, hintSingle);
            r == "vInput" + NatToString(k) + (if !withAlpha && inputsHaveAlpha then ".rgb" else "")
    ensures EndsWith(ItemToStr(k, withAlpha, false, inputsHaveAlpha, hintSingle), ".rgb")
            <==> !withAlpha && inputsHaveAlpha
  {
    var r := ItemToStr(k, withAlpha, false, inputsHaveAlpha, hintSingle);
    if !(!withAlpha && inputsHaveAlpha) {
      assert r[|r| - 4..] != ".rgb" by {
        assert r[|r| - 1] == NatToString(k)[0];
      }
    }
  }

  /** In a colour context an alpha-texel term stays a bare scalar exactly
      under the single-element hint; for every other term the hint is ignored. */
  lemma HintOnlyForAlphaTexels(item: int, withAlpha: bool, onlyAlpha: bool, inputsHaveAlpha: bool)
    ensures item == Code(Texel0A) && !onlyAlpha ==>
              (ItemToStr(item, withAlpha, onlyAlpha, inputsHaveAlpha, true) == "texVal0.a")
              && ItemToStr(item, withAlpha, onlyAlpha, inputsHaveAlpha, false) != "texVal0.a"
    ensures item == Code(Texel1A) && !onlyAlpha ==>
              (ItemToStr(item, withAlpha, onlyAlpha, inputsHaveAlpha, true) == "texVal1.a")
              && ItemToStr(item, withAlpha, onlyAlpha, inputsHaveAlpha, false) != "texVal1.a"
    ensures (onlyAlpha || (item != Code(Texel0A) && item != Code(Texel1A))) ==>
              ItemToStr(item, withAlpha, onlyAlpha, inputsHaveAlpha, true)
              == ItemToStr(item, withAlpha, onlyAlpha, inputsHaveAlpha, false)
  {
  }

  /** A value that names no selector renders as the empty text, and so do the
      inputs 5 to 7, which the renderer has no case for. */
  lemma EmptyRendering(item: int, withAlpha: bool, onlyAlpha: bool, inputsHaveAlpha: bool, hintSingle: bool)
    ensures ItemToStr(item, withAlpha, onlyAlpha, inputsHaveAlpha, hintSingle) == ""
            <==> SelectorOf(item).None? || item in {Code(Input5), Code(Input6), Code(Input7)}
  {
  }

  /** The four shapes a combiner formula can take. */
  datatype Shape = Single | Multiply | Mix | General

  /** The shape picked from the decoded flags; the first flag set wins. */
  function ShapeOf(doSingle: bool, doMultiply: bool, doMix: bool): (sh: Shape)
    ensures sh == Single <==> doSingle
    ensures sh == Multiply <==> !doSingle && doMultiply
    ensures sh == Mix <==> !doSingle && !doMultiply && doMix
    ensures sh == General <==> !doSingle && !doMultiply && !doMix
  {
    if doSingle then Single else if doMultiply then Multiply else if doMix then Mix else General
  }

  /** The slots of the row each shape reads. */
  function ShapeSlots(sh: Shape): set<nat>
  {
    match sh
    case Single => {3}
    case Multiply => {0, 2}
    case Mix => {0, 1, 2}
    case General => {0, 1, 2, 3}
  }

  /** One combiner formula for one cycle: the shape chosen by the flags, its
      terms taken from row `c[onlyAlpha]`, the factor slot 2 rendered with
      the single-element hint. */
  function AppendFormula(c: Pair<Quad<u8>>, doSingle: bool, doMultiply: bool, doMix: bool,
                         withAlpha: bool, onlyAlpha: bool, optAlpha: bool): string
  {
    var row := c.At(Index(onlyAlpha));
    var t0 := ItemToStr(row.s0, withAlpha, onlyAlpha, optAlpha, false);
    var t1 := ItemToStr(row.s1, withAlpha, onlyAlpha, optAlpha, false);
    var t2 := ItemToStr(row.s2, withAlpha, onlyAlpha, optAlpha, true);
    var t3 := ItemToStr(row.s3, withAlpha, onlyAlpha, optAlpha, false);
    match ShapeOf(doSingle, doMultiply, doMix)
    case Single => t3
    case Multiply => t0 + " * " + t2
    case Mix => "mix(" + t1 + ", " + t0 + ", " + t2 + ")"
    case General => "(" + t0 + " - " + t1 + ") * " + t2 + " + " + t3
  }

  /** The formula reads row `c[onlyAlpha]` only, and of it only the slots its
      shape uses: single ignores slots 0-2, multiply slots 1 and 3, mix slot 3. */
  lemma FormulaReadsShapeSlots(c1: Pair<Quad<u8>>, c2: Pair<Quad<u8>>, doSingle: bool, doMultiply: bool, doMix: bool,
                               withAlpha: bool, onlyAlpha: bool, optAlpha: bool)
    requires forall k :: k in ShapeSlots(ShapeOf(doSingle, doMultiply, doMix)) ==>
               k < 4 && c1.At(Index(onlyAlpha)).At(k) == c2.At(Index(onlyAlpha)).At(k)
    ensures AppendFormula(c1, doSingle, doMultiply, doMix, withAlpha, onlyAlpha, optAlpha)
            == AppendFormula(c2, doSingle, doMultiply, doMix, withAlpha, onlyAlpha, optAlpha)
  {
    var sh := ShapeOf(doSingle, doMultiply, doMix);
    if sh != Single {
      assert 0 in ShapeSlots(sh) && 2 in ShapeSlots(sh);
    }
    if sh == Mix || sh == General {
      assert 1 in ShapeSlots(sh);
    }
    if sh == Single || sh == General {
      assert 3 in ShapeSlots(sh);
    }
  }

  /** Only the factor slot 2 is rendered with the single-element hint: an
      alpha texel in any other slot of a colour formula is widened to a vector. */
  lemma HintOnFactorSlot(c: Pair<Quad<u8>>, withAlpha: bool, optAlpha: bool)
    requires c.fst == Quad(Code(Texel0A), Code(Texel0A), Code(Texel0A), Code(Texel0A))
    ensures AppendFormula(c, false, true, false, withAlpha, false, optAlpha)
            == (if withAlpha then "vec4(texVal0.a, texVal0.a, texVal0.a, texVal0.a)"
                else "vec3(texVal0.a, texVal0.a, texVal0.a)") + " * texVal0.a"
    ensures AppendFormula(c, true, false, false, withAlpha, false, optAlpha) != "texVal0.a"
  {
  }

  /** The value a colour texel term names: a sampled texture or the
      first cycle's combined colour. */
  function TexelBase(s: Selector): string
  {
    match s
    case Texel0 => "texVal0"
    case Texel1 => "texVal1"
    case _ => "texel"
  }

  /** A texture or combined-colour term is its value, swizzled to `.a` in the
      alpha channel and to `.rgb` exactly when a three-component colour is
      wanted; neither the input width nor the single-element hint matters. */
  lemma TexelSwizzle(s: Selector, withAlpha: bool, onlyAlpha: bool, inputsHaveAlpha: bool, hintSingle: bool)
    requires s == Texel0 || s == Texel1 || s == Combined
    ensures var r := ItemToStr(Code(s), withAlpha, onlyAlpha, inputsHaveAlpha, hintSingle);
            r == TexelBase(s) + (if onlyAlpha then ".a" else if withAlpha then "" else ".rgb")
    ensures EndsWith(ItemToStr(Code(s), withAlpha, onlyAlpha, inputsHaveAlpha, hintSingle), ".rgb")
            <==> !withAlpha && !onlyAlpha
  {
    CodeRoundTrip(s);
    var r := ItemToStr(Code(s), withAlpha, onlyAlpha, inputsHaveAlpha, hintSingle);
    if onlyAlpha || withAlpha {
      assert r[|r| - 1] != 'b';
    }
  }
}
