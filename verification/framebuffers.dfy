/** The framebuffer table: slot 0 stands for the window's own framebuffer,
    every other slot for an offscreen target with a colour buffer (a texture
    when single-sampled, a renderbuffer when multisampled) and a
    depth-stencil renderbuffer. The driver's objects are modelled by a small
    state that the recorded calls act on. */
module Framebuffers {
  import opened Base

  /** The logical description of a framebuffer and the four driver objects it owns. */
  datatype Framebuffer = Framebuffer(
    width: u32,
    height: u32,
    hasDepthBuffer: bool,
    msaaLevel: u32,
    invertY: bool,
    fbo: u32,
    clrbuf: u32,
    clrbufMsaa: u32,
    rbo: u32)

  /** A value-initialised entry: every field zero or false. */
  const Zeroed := Framebuffer(0, 0, false, 0, false, 0, 0, 0, 0)

  /** The names the driver hands out for a new framebuffer's objects. */
  datatype Handles = Handles(fbo: u32, clrbuf: u32, clrbufMsaa: u32, rbo: u32)

  /** Renderbuffer storage; a sample count of 0 is single-sampled storage. */
  datatype Storage = Storage(samples: u32, width: u32, height: u32)

  /** What a framebuffer's colour attachment point refers to. */
  datatype ColorTarget = NoColor | Texture(name: u32) | Renderbuffer(name: u32)

  /** The part of the driver's state the table manages: the bound
      framebuffer, texture and renderbuffer storage, and what each
      framebuffer has attached (0 for no depth attachment). */
  datatype Gpu = Gpu(
    bound: u32,
    textures: map<u32, (u32, u32)>,
    renderbuffers: map<u32, Storage>,
    color: map<u32, ColorTarget>,
    depth: map<u32, u32>)

  /** One driver call, or a short fixed group of them, issued by an update. */
  datatype Call =
    | BindFramebuffer(fbo: u32)
    | ColorTexture(texture: u32, width: u32, height: u32)
    | ColorMultisample(renderbuffer: u32, samples: u32, width: u32, height: u32)
    | DepthStorage(renderbuffer: u32, samples: u32, width: u32, height: u32)
    | AttachDepth(renderbuffer: u32)
    | DetachDepth

  /** The effect of one call: attachments act on the bound framebuffer. */
  function Step(g: Gpu, call: Call): Gpu
  {
    match call
    case BindFramebuffer(fbo) => g.(bound := fbo)
    case ColorTexture(t, w, h) =>
      g.(textures := g.textures[t := (w, h)], color := g.color[g.bound := Texture(t)])
    case ColorMultisample(r, s, w, h) =>
      g.(renderbuffers := g.renderbuffers[r := Storage(s, w, h)], color := g.color[g.bound := Renderbuffer(r)])
    case DepthStorage(r, s, w, h) => g.(renderbuffers := g.renderbuffers[r := Storage(s, w, h)])
    case AttachDepth(r) => g.(depth := g.depth[g.bound := r])
    case DetachDepth => g.(depth := g.depth[g.bound := 0])
  }

  /** The effect of a sequence of calls, in order. */
  function Apply(g: Gpu, calls: seq<Call>): Gpu
    decreases |calls|
  {
    if |calls| == 0 then g else Apply(Step(g, calls[0]), calls[1..])
  }

  function Max1(v: u32): (r: u32)
    ensures r >= 1 && r >= v
    ensures v >= 1 ==> r == v
    ensures v == 0 ==> r == 1
  {
    if v < 1 then 1 else v
  }

  /** The sample count the storage calls receive: levels 0 and 1 both mean
      single-sampled storage. */
  function Samples(msaaLevel: u32): u32
  {
    if msaaLevel <= 1 then 0 else msaaLevel
  }

  function DepthOf(g: Gpu, fbo: u32): u32
  {
    if fbo in g.depth then g.depth[fbo] else 0
  }

  /** The table right after initialisation: the window's slot alone, every
      field zero. */
  function InitTable(): (fbs: seq<Framebuffer>)
    ensures |fbs| == 1 && fbs[0].fbo == 0
    ensures fbs[0].width == 0 && fbs[0].height == 0 && !fbs[0].hasDepthBuffer
    ensures fbs[0].msaaLevel == 0 && !fbs[0].invertY
    ensures fbs[0].clrbuf == 0 && fbs[0].clrbufMsaa == 0 && fbs[0].rbo == 0
  {
    [Zeroed]
  }

  /** A new offscreen framebuffer: appended with zeroed logical fields and
      the driver's fresh objects; its index is the table's previous length.
      The driver gives the new colour texture and depth renderbuffer a 1x1
      storage. */
  function CreateFramebuffer(fbs: seq<Framebuffer>, g: Gpu, h: Handles): (r: (seq<Framebuffer>, Gpu, nat))
    ensures r.2 == |fbs| && |r.0| == |fbs| + 1 && r.0[..|fbs|] == fbs
    ensures r.0[r.2] == Zeroed.(fbo := h.fbo, clrbuf := h.clrbuf, clrbufMsaa := h.clrbufMsaa, rbo := h.rbo)
    ensures h.clrbuf in r.1.textures && r.1.textures[h.clrbuf] == (1, 1)
    ensures h.rbo in r.1.renderbuffers && r.1.renderbuffers[h.rbo] == Storage(0, 1, 1)
    ensures r.1.bound == g.bound && r.1.color == g.color && r.1.depth == g.depth
  {
    var fb := Zeroed.(fbo := h.fbo, clrbuf := h.clrbuf, clrbufMsaa := h.clrbufMsaa, rbo := h.rbo);
    (fbs + [fb],
     g.(textures := g.textures[h.clrbuf := (1, 1)], renderbuffers := g.renderbuffers[h.rbo := Storage(0, 1, 1)]),
     |fbs|)
  }

  /** Whether the stored dimensions or sample level differ from the requested ones. */
  predicate Resized(fb: Framebuffer, width: u32, height: u32, msaaLevel: u32)
  {
    fb.width != width || fb.height != height || fb.msaaLevel != msaaLevel
  }

  /** The calls an update issues for an offscreen framebuffer, after binding it. */
  function AttachmentCalls(fb: Framebuffer, width: u32, height: u32, msaaLevel: u32, hasDepth: bool): seq<Call>
  {
    var resized := Resized(fb, width, height, msaaLevel);
    var colorCalls :=
      if !resized then []
      else if msaaLevel <= 1 then [ColorTexture(fb.clrbuf, width, height)]
      else [ColorMultisample(fb.clrbufMsaa, msaaLevel, width, height)];
    var depthCalls :=
      if hasDepth && (resized || !fb.hasDepthBuffer) then [DepthStorage(fb.rbo, Samples(msaaLevel), width, height)]
      else [];
    var attachCalls :=
      if !fb.hasDepthBuffer && hasDepth then [AttachDepth(fb.rbo)]
      else if fb.hasDepthBuffer && !hasDepth then [DetachDepth]
      else [];
    colorCalls + depthCalls + attachCalls
  }

  /** A new table and the calls an update issued. */
  datatype Updated = Updated(fbs: seq<Framebuffer>, calls: seq<Call>)

  /** Updating a framebuffer's parameters: bind it, reallocate and re-attach
      what changed (never for the window's slot 0), then overwrite its
      logical fields, with width and height raised to at least 1. */
  function Update(fbs: seq<Framebuffer>, fbId: nat, width: u32, height: u32, msaaLevel: u32,
                  invertY: bool, hasDepth: bool): (r: Updated)
    requires fbId < |fbs|
    ensures |r.fbs| == |fbs|
    ensures forall j :: 0 <= j < |fbs| && j != fbId ==> r.fbs[j] == fbs[j]
    ensures var fb := r.fbs[fbId];
      && fb.width >= 1 && fb.height >= 1
      && (width >= 1 ==> fb.width == width) && (height >= 1 ==> fb.height == height)
      && (width == 0 ==> fb.width == 1) && (height == 0 ==> fb.height == 1)
      && fb.msaaLevel == msaaLevel && fb.hasDepthBuffer == hasDepth && fb.invertY == invertY
    ensures var fb := r.fbs[fbId]; var prev := fbs[fbId];
      fb.fbo == prev.fbo && fb.clrbuf == prev.clrbuf && fb.clrbufMsaa == prev.clrbufMsaa && fb.rbo == prev.rbo
    ensures |r.calls| >= 1 && r.calls[0] == BindFramebuffer(fbs[fbId].fbo)
    ensures fbId == 0 ==> |r.calls| == 1
  {
    var fb := fbs[fbId];
    var w := Max1(width);
    var h := Max1(height);
    var calls := [BindFramebuffer(fb.fbo)] + (if fbId != 0 then AttachmentCalls(fb, w, h, msaaLevel, hasDepth) else []);
    var fb' := fb.(width := w, height := h, hasDepthBuffer := hasDepth, msaaLevel := msaaLevel, invertY := invertY);
    Updated(fbs[fbId := fb'], calls)
  }

  /** Whether a call allocates colour storage. */
  predicate IsColorAlloc(c: Call)
  {
    c.ColorTexture? || c.ColorMultisample?
  }

  /** Whether a call allocates depth storage. */
  predicate IsDepthAlloc(c: Call)
  {
    c.DepthStorage?
  }

  /** Colour storage is reallocated exactly when an offscreen framebuffer's
      width, height or sample level (after raising the sizes to 1) changes. */
  lemma ColorReallocIff(fbs: seq<Framebuffer>, fbId: nat, width: u32, height: u32, msaaLevel: u32,
                        invertY: bool, hasDepth: bool)
    requires fbId < |fbs|
    ensures var r := Update(fbs, fbId, width, height, msaaLevel, invertY, hasDepth);
      (exists k :: 0 <= k < |r.calls| && IsColorAlloc(r.calls[k]))
        <==> fbId != 0 && Resized(fbs[fbId], Max1(width), Max1(height), msaaLevel)
  {
    var r := Update(fbs, fbId, width, height, msaaLevel, invertY, hasDepth);
    if fbId != 0 && Resized(fbs[fbId], Max1(width), Max1(height), msaaLevel) {
      assert IsColorAlloc(r.calls[1]);
    }
  }

  /** Depth storage is reallocated exactly when depth is requested and the
      framebuffer either changed size or sample level or had no depth buffer. */
  lemma DepthReallocIff(fbs: seq<Framebuffer>, fbId: nat, width: u32, height: u32, msaaLevel: u32,
                        invertY: bool, hasDepth: bool)
    requires fbId < |fbs|
    ensures var r := Update(fbs, fbId, width, height, msaaLevel, invertY, hasDepth);
      (exists k :: 0 <= k < |r.calls| && IsDepthAlloc(r.calls[k]))
        <==> fbId != 0 && hasDepth
             && (Resized(fbs[fbId], Max1(width), Max1(height), msaaLevel) || !fbs[fbId].hasDepthBuffer)
  {
    var r := Update(fbs, fbId, width, height, msaaLevel, invertY, hasDepth);
    var fb := fbs[fbId];
    if fbId != 0 && hasDepth && (Resized(fb, Max1(width), Max1(height), msaaLevel) || !fb.hasDepthBuffer) {
      var k := if Resized(fb, Max1(width), Max1(height), msaaLevel) then 2 else 1;
      assert IsDepthAlloc(r.calls[k]);
    }
  }

  /** Repeating an update with the same parameters only binds the
      framebuffer again and leaves the table as it was. */
  lemma UpdateIdempotent(fbs: seq<Framebuffer>, fbId: nat, width: u32, height: u32, msaaLevel: u32,
                         invertY: bool, hasDepth: bool)
    requires fbId < |fbs|
    ensures var r1 := Update(fbs, fbId, width, height, msaaLevel, invertY, hasDepth);
      var r2 := Update(r1.fbs, fbId, width, height, msaaLevel, invertY, hasDepth);
      r2.fbs == r1.fbs && r2.calls == [BindFramebuffer(fbs[fbId].fbo)]
  {
  }

  /** The driver's objects agree with an offscreen framebuffer's logical
      fields: the colour attachment is the texture or the multisampled
      renderbuffer its sample level selects, with storage of its size, and a
      depth buffer of its size is attached exactly when it has one. */
  ghost predicate Synced(fb: Framebuffer, g: Gpu)
  {
    && fb.width >= 1 && fb.height >= 1
    && (fb.msaaLevel <= 1 ==>
          && fb.fbo in g.color && g.color[fb.fbo] == Texture(fb.clrbuf)
          && fb.clrbuf in g.textures && g.textures[fb.clrbuf] == (fb.width, fb.height))
    && (fb.msaaLevel > 1 ==>
          && fb.fbo in g.color && g.color[fb.fbo] == Renderbuffer(fb.clrbufMsaa)
          && fb.clrbufMsaa in g.renderbuffers
          && g.renderbuffers[fb.clrbufMsaa] == Storage(fb.msaaLevel, fb.width, fb.height))
    && (fb.hasDepthBuffer <==> DepthOf(g, fb.fbo) == fb.rbo)
    && (fb.hasDepthBuffer ==>
          fb.rbo in g.renderbuffers && g.renderbuffers[fb.rbo] == Storage(Samples(fb.msaaLevel), fb.width, fb.height))
  }

  /** A freshly created framebuffer that was never updated: zero size, no
      depth buffer, nothing attached for depth. */
  ghost predicate Blank(fb: Framebuffer, g: Gpu)
  {
    fb.width == 0 && !fb.hasDepthBuffer && DepthOf(g, fb.fbo) == 0
  }

  /** The driver never gives the colour and the depth renderbuffer the same
      name, and never names a renderbuffer 0. */
  predicate DistinctHandles(fb: Framebuffer)
  {
    fb.clrbufMsaa != fb.rbo && fb.rbo != 0
  }

  /** Creating a framebuffer from a fresh framebuffer name yields a blank entry. */
  lemma CreateIsBlank(fbs: seq<Framebuffer>, g: Gpu, h: Handles)
    requires h.fbo !in g.depth
    ensures var r := CreateFramebuffer(fbs, g, h); Blank(r.0[r.2], r.1)
  {
  }

  /** Updating an offscreen framebuffer that was blank or in step with the
      driver leaves it in step with the driver after the update's calls. */
  lemma UpdateSyncs(fbs: seq<Framebuffer>, fbId: nat, width: u32, height: u32, msaaLevel: u32,
                    invertY: bool, hasDepth: bool, g: Gpu)
    requires 0 < fbId < |fbs|
    requires DistinctHandles(fbs[fbId])
    requires Synced(fbs[fbId], g) || Blank(fbs[fbId], g)
    ensures var r := Update(fbs, fbId, width, height, msaaLevel, invertY, hasDepth);
      Synced(r.fbs[fbId], Apply(g, r.calls))
  {
    var fb := fbs[fbId];
    var w := Max1(width);
    var h := Max1(height);
    var r := Update(fbs, fbId, width, height, msaaLevel, invertY, hasDepth);
    var g1 := Step(g, BindFramebuffer(fb.fbo));
    var rest := AttachmentCalls(fb, w, h, msaaLevel, hasDepth);
    assert r.calls == [BindFramebuffer(fb.fbo)] + rest;
    ApplyAppend(g, [BindFramebuffer(fb.fbo)], rest);
    AttachmentCallsSync(fb, w, h, msaaLevel, hasDepth, invertY, g1);
  }

  lemma AttachmentCallsSync(fb: Framebuffer, w: u32, h: u32, msaaLevel: u32, hasDepth: bool, invertY: bool, g: Gpu)
    requires w >= 1 && h >= 1
    requires g.bound == fb.fbo
    requires DistinctHandles(fb)
    requires Synced(fb, g) || Blank(fb, g)
    ensures Synced(fb.(width := w, height := h, hasDepthBuffer := hasDepth, msaaLevel := msaaLevel, invertY := invertY),
                   Apply(g, AttachmentCalls(fb, w, h, msaaLevel, hasDepth)))
  {
    var resized := Resized(fb, w, h, msaaLevel);
    var colorCalls :=
      if !resized then []
      else if msaaLevel <= 1 then [ColorTexture(fb.clrbuf, w, h)]
      else [ColorMultisample(fb.clrbufMsaa, msaaLevel, w, h)];
    var depthCalls :=
      if hasDepth && (resized || !fb.hasDepthBuffer) then [DepthStorage(fb.rbo, Samples(msaaLevel), w, h)]
      else [];
    var attachCalls :=
      if !fb.hasDepthBuffer && hasDepth then [AttachDepth(fb.rbo)]
      else if fb.hasDepthBuffer && !hasDepth then [DetachDepth]
      else [];
    ApplyAppend(g, colorCalls, depthCalls + attachCalls);
    var g1 := Apply(g, colorCalls);
    ApplyAppend(g1, depthCalls, attachCalls);
    var g2 := Apply(g1, depthCalls);
    var g3 := Apply(g2, attachCalls);
    assert colorCalls + (depthCalls + attachCalls) == AttachmentCalls(fb, w, h, msaaLevel, hasDepth);
    assert g1.bound == fb.fbo && g2.bound == fb.fbo;
    assert g1.depth == g.depth && g2.depth == g.depth;
    assert g2.color == g1.color && g3.color == g1.color;
    assert g2.textures == g1.textures && g3.textures == g1.textures;
    assert g3.renderbuffers == g2.renderbuffers;
  }

  lemma {:induction false} ApplyAppend(g: Gpu, a: seq<Call>, b: seq<Call>)
    ensures Apply(g, a + b) == Apply(Apply(g, a), b)
    decreases |a|
  {
    if |a| > 0 {
      assert (a + b)[1..] == a[1..] + b;
      ApplyAppend(Step(g, a[0]), a[1..], b);
    } else {
      assert a + b == b;
    }
  }
}
