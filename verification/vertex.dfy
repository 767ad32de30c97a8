/** The vertex stage text: the attribute and varying declarations the
    generator writes for a feature set, the copies in `main`, and their
    agreement with the attribute table. */
module Vertex {
  import opened Base
  import opened CC
  import opened Layout

  /** The GLSL type of an attribute `size` floats wide. */
  function GlslType(size: nat): string
  {
    match size
    case 1 => "float"
    case 2 => "vec2"
    case 3 => "vec3"
    case 4 => "vec4"
    case _ => "vec" + NatToString(size)
  }

  /** The type the generic inputs are declared with: `vec4` with alpha, `vec3` without. */
  function InputType(optAlpha: bool): string
  {
    if optAlpha then "vec4" else "vec3"
  }

  // The three line formats of the vertex stage.

  function AttributeLine(ty: string, name: string): string
  {
    "attribute " + ty + " a" + name + ";"
  }

  function VaryingLine(ty: string, name: string): string
  {
    "varying " + ty + " v" + name + ";"
  }

  function CopyLine(name: string): string
  {
    "v" + name + " = a" + name + ";"
  }

  /** The declaration of an attribute of the vertex stage. */
  function AttributeDecl(a: Attrib): string
  {
    AttributeLine(GlslType(a.size), NameText(a.name))
  }

  /** The declaration of the varying that carries an attribute onwards. */
  function VaryingDecl(a: Attrib): string
  {
    VaryingLine(GlslType(a.size), NameText(a.name))
  }

  /** The statement of `main` that hands an attribute on to its varying. */
  function CopyStmt(a: Attrib): string
  {
    CopyLine(NameText(a.name))
  }

  /** Each attribute followed by its varying, in table order. */
  function DeclPairs(attrs: seq<Attrib>): (r: seq<string>)
    ensures |r| == 2 * |attrs|
  {
    if |attrs| == 0 then []
    else DeclPairs(attrs[..|attrs| - 1]) + [AttributeDecl(attrs[|attrs| - 1]), VaryingDecl(attrs[|attrs| - 1])]
  }

  lemma {:induction false} DeclPairsAppend(a: seq<Attrib>, b: seq<Attrib>)
    ensures DeclPairs(a + b) == DeclPairs(a) + DeclPairs(b)
    decreases |b|
  {
    if |b| == 0 {
      assert a + b == a;
    } else {
      assert (a + b)[..|a + b| - 1] == a + b[..|b| - 1];
      DeclPairsAppend(a, b[..|b| - 1]);
    }
  }

  /** Within the declaration block, entry 2k declares the k-th attribute and
      entry 2k + 1 the varying that carries it. */
  lemma {:induction false} DeclPairsAt(attrs: seq<Attrib>, k: nat)
    requires k < |attrs|
    ensures DeclPairs(attrs)[2 * k] == AttributeDecl(attrs[k])
    ensures DeclPairs(attrs)[2 * k + 1] == VaryingDecl(attrs[k])
    decreases |attrs|
  {
    if k < |attrs| - 1 {
      DeclPairsAt(attrs[..|attrs| - 1], k);
    }
  }

  function Copies(attrs: seq<Attrib>): (r: seq<string>)
    ensures |r| == |attrs|
    ensures forall k :: 0 <= k < |attrs| ==> r[k] == CopyStmt(attrs[k])
  {
    seq(|attrs|, k requires 0 <= k < |attrs| => CopyStmt(attrs[k]))
  }

  lemma CopiesAppend(a: seq<Attrib>, b: seq<Attrib>)
    ensures Copies(a + b) == Copies(a) + Copies(b)
  {
  }

  // The generator, written in the order and with the gating of its loops.

  function ClampDecls(f: CCFeatures, i: nat, j: nat): seq<string>
    requires i < 2 && j < 2
  {
    if f.clamp.At(i).At(j) then
      [AttributeLine("float", "TexClamp" + AxisLetter(j) + NatToString(i)),
       VaryingLine("float", "TexClamp" + AxisLetter(j) + NatToString(i))]
    else []
  }

  function TexDecls(f: CCFeatures, i: nat): seq<string>
    requires i < 2
  {
    if f.usedTextures.At(i) then
      [AttributeLine("vec2", "TexCoord" + NatToString(i)), VaryingLine("vec2", "TexCoord" + NatToString(i))]
      + ClampDecls(f, i, 0) + ClampDecls(f, i, 1)
    else []
  }

  function InputDecls(n: nat, optAlpha: bool): seq<string>
  {
    if n == 0 then []
    else
      InputDecls(n - 1, optAlpha)
      + [AttributeLine(InputType(optAlpha), "Input" + NatToString(n)),
         VaryingLine(InputType(optAlpha), "Input" + NatToString(n))]
  }

  /** The declarations between the position attribute and `main`. */
  function VertexDecls(f: CCFeatures): seq<string>
  {
    TexDecls(f, 0) + TexDecls(f, 1)
    + (if f.optFog then [AttributeLine("vec4", "Fog"), VaryingLine("vec4", "Fog")] else [])
    + (if f.optGrayscale then [AttributeLine("vec4", "GrayscaleColor"), VaryingLine("vec4", "GrayscaleColor")] else [])
    + InputDecls(InputCount(f), f.optAlpha)
  }

  function ClampCopy(f: CCFeatures, i: nat, j: nat): seq<string>
    requires i < 2 && j < 2
  {
    if f.clamp.At(i).At(j) then [CopyLine("TexClamp" + AxisLetter(j) + NatToString(i))] else []
  }

  function TexCopies(f: CCFeatures, i: nat): seq<string>
    requires i < 2
  {
    if f.usedTextures.At(i) then
      [CopyLine("TexCoord" + NatToString(i))] + ClampCopy(f, i, 0) + ClampCopy(f, i, 1)
    else []
  }

  function InputCopies(n: nat): seq<string>
  {
    if n == 0 then [] else InputCopies(n - 1) + [CopyLine("Input" + NatToString(n))]
  }

  /** The statements of `main` before the position is written. */
  function VertexCopies(f: CCFeatures): seq<string>
  {
    TexCopies(f, 0) + TexCopies(f, 1)
    + (if f.optFog then [CopyLine("Fog")] else [])
    + (if f.optGrayscale then [CopyLine("GrayscaleColor")] else [])
    + InputCopies(InputCount(f))
  }

  /** The vertex shader, line by line. */
  function VertexLines(f: CCFeatures): seq<string>
  {
    ["#version 110", AttributeLine("vec4", "VtxPos")]
    + VertexDecls(f)
    + ["void main() {"]
    + VertexCopies(f)
    + ["gl_Position = aVtxPos;", "}"]
  }

  /** The vertex shader text: every line terminated by a newline. */
  function VertexShader(f: CCFeatures): string
  {
    Concat(Lines(VertexLines(f)))
  }

  // Agreement of the generated text with the attribute table.

  lemma {:induction false} TexDeclsFollowTable(f: CCFeatures, i: nat)
    requires i < 2
    ensures TexDecls(f, i) == DeclPairs(TexAttribs(f, i))
    ensures TexCopies(f, i) == Copies(TexAttribs(f, i))
  {
    if f.usedTextures.At(i) {
      var c := [Attrib(TexCoord(i), 2)];
      var s := if f.clamp.At(i).At(0) then [Attrib(TexClamp(0, i), 1)] else [];
      var t := if f.clamp.At(i).At(1) then [Attrib(TexClamp(1, i), 1)] else [];
      DeclPairsAppend(c, s);
      DeclPairsAppend(c + s, t);
      CopiesAppend(c, s);
      CopiesAppend(c + s, t);
      assert DeclPairs(c) == [AttributeDecl(c[0]), VaryingDecl(c[0])];
      assert DeclPairs(s) == ClampDecls(f, i, 0) by {
        if f.clamp.At(i).At(0) {
          assert DeclPairs(s) == [AttributeDecl(s[0]), VaryingDecl(s[0])];
        }
      }
      assert DeclPairs(t) == ClampDecls(f, i, 1) by {
        if f.clamp.At(i).At(1) {
          assert DeclPairs(t) == [AttributeDecl(t[0]), VaryingDecl(t[0])];
        }
      }
    }
  }

  lemma {:induction false} InputDeclsFollowTable(n: nat, optAlpha: bool)
    ensures InputDecls(n, optAlpha) == DeclPairs(InputAttribs(n, if optAlpha then 4 else 3))
    ensures InputCopies(n) == Copies(InputAttribs(n, if optAlpha then 4 else 3))
  {
    var width := if optAlpha then 4 else 3;
    if n > 0 {
      InputDeclsFollowTable(n - 1, optAlpha);
      var prefix := InputAttribs(n - 1, width);
      var a := Attrib(Input(n), width);
      assert InputAttribs(n, width) == prefix + [a];
      DeclPairsAppend(prefix, [a]);
      CopiesAppend(prefix, [a]);
      InputEntry(n, optAlpha);
    }
  }

  /** The declarations and the copy of the n-th generic input follow its table entry. */
  lemma InputEntry(n: nat, optAlpha: bool)
    ensures var a := Attrib(Input(n), if optAlpha then 4 else 3);
      && DeclPairs([a]) == [AttributeLine(InputType(optAlpha), "Input" + NatToString(n)),
                            VaryingLine(InputType(optAlpha), "Input" + NatToString(n))]
      && Copies([a]) == [CopyLine("Input" + NatToString(n))]
  {
    var a := Attrib(Input(n), if optAlpha then 4 else 3);
    assert GlslType(a.size) == InputType(optAlpha) by {
      if optAlpha {
        assert GlslType(4) == "vec4";
      } else {
        assert GlslType(3) == "vec3";
      }
    }
    SingleAttrib(a);
  }

  /** The generator declares, for every attribute of the table after the
      position and in table order, the attribute and then its varying; and
      `main` copies each of them, in the same order. So the vertex stage
      binds exactly the attributes the program records and writes exactly
      the varyings it declares. */
  lemma VertexDeclsFollowTable(f: CCFeatures)
    ensures VertexDecls(f) == DeclPairs(VaryingAttribs(f))
    ensures VertexCopies(f) == Copies(VaryingAttribs(f))
    ensures VertexLines(f)[1] == AttributeDecl(AttribTable(f)[0])
  {
    assert VertexLines(f)[1] == AttributeLine("vec4", "VtxPos");
    assert AttribTable(f)[0] == Attrib(VtxPos, 4);
    assert GlslType(4) == "vec4";
    DeclsFollowTable(f);
    CopiesFollowTable(f);
  }

  lemma {:induction false} DeclsFollowTable(f: CCFeatures)
    ensures VertexDecls(f) == DeclPairs(VaryingAttribs(f))
  {
    TexDeclsFollowTable(f, 0);
    TexDeclsFollowTable(f, 1);
    InputDeclsFollowTable(InputCount(f), f.optAlpha);
    FogAndGrayscaleFollowTable(f);
    var t0, t1 := TexAttribs(f, 0), TexAttribs(f, 1);
    var fog := if f.optFog then [Attrib(Fog, 4)] else [];
    var gray := if f.optGrayscale then [Attrib(GrayscaleColor, 4)] else [];
    var ins := InputAttribs(InputCount(f), if f.optAlpha then 4 else 3);
    assert VaryingAttribs(f) == t0 + t1 + fog + gray + ins;
    DeclPairsAppend(t0, t1);
    DeclPairsAppend(t0 + t1, fog);
    DeclPairsAppend(t0 + t1 + fog, gray);
    DeclPairsAppend(t0 + t1 + fog + gray, ins);
  }

  lemma {:induction false} CopiesFollowTable(f: CCFeatures)
    ensures VertexCopies(f) == Copies(VaryingAttribs(f))
  {
    TexDeclsFollowTable(f, 0);
    TexDeclsFollowTable(f, 1);
    InputDeclsFollowTable(InputCount(f), f.optAlpha);
    FogAndGrayscaleFollowTable(f);
    var t0, t1 := TexAttribs(f, 0), TexAttribs(f, 1);
    var fog := if f.optFog then [Attrib(Fog, 4)] else [];
    var gray := if f.optGrayscale then [Attrib(GrayscaleColor, 4)] else [];
    var ins := InputAttribs(InputCount(f), if f.optAlpha then 4 else 3);
    assert VaryingAttribs(f) == t0 + t1 + fog + gray + ins;
    CopiesAppend(t0, t1);
    CopiesAppend(t0 + t1, fog);
    CopiesAppend(t0 + t1 + fog, gray);
    CopiesAppend(t0 + t1 + fog + gray, ins);
  }

  lemma FogAndGrayscaleFollowTable(f: CCFeatures)
    ensures var fog := if f.optFog then [Attrib(Fog, 4)] else [];
      && DeclPairs(fog) == (if f.optFog then [AttributeLine("vec4", "Fog"), VaryingLine("vec4", "Fog")] else [])
      && Copies(fog) == (if f.optFog then [CopyLine("Fog")] else [])
    ensures var gray := if f.optGrayscale then [Attrib(GrayscaleColor, 4)] else [];
      && DeclPairs(gray)
         == (if f.optGrayscale then [AttributeLine("vec4", "GrayscaleColor"), VaryingLine("vec4", "GrayscaleColor")] else [])
      && Copies(gray) == (if f.optGrayscale then [CopyLine("GrayscaleColor")] else [])
  {
    assert GlslType(4) == "vec4";
    SingleAttrib(Attrib(Fog, 4));
    SingleAttrib(Attrib(GrayscaleColor, 4));
    assert CopyStmt(Attrib(GrayscaleColor, 4)) == CopyLine("GrayscaleColor");
  }

  lemma SingleAttrib(a: Attrib)
    ensures DeclPairs([]) == [] && Copies([]) == []
    ensures DeclPairs([a]) == [AttributeDecl(a), VaryingDecl(a)]
    ensures Copies([a]) == [CopyStmt(a)]
  {
    assert [a][..0] == [];
  }

  /** The text opens with the two version and position lines, contains one
      `main` header, and closes by writing the position. */
  lemma VertexFrame(f: CCFeatures)
    ensures var ls := VertexLines(f);
      && |ls| == 2 * |VaryingAttribs(f)| + |VaryingAttribs(f)| + 5
      && ls[0] == "#version 110"
      && ls[2 + 2 * |VaryingAttribs(f)|] == "void main() {"
      && ls[|ls| - 2] == "gl_Position = aVtxPos;"
      && ls[|ls| - 1] == "}"
  {
    VertexDeclsFollowTable(f);
  }
}
