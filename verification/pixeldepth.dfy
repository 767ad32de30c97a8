/** Reading back depth values at a set of pixel coordinates. A single
    coordinate is read directly from the framebuffer; a batch is first
    copied pixel by pixel into a one-row scratch depth buffer, which is
    recreated larger when it is too small, and read back in one go. Each
    24-bit depth value (stored above an 8-bit stencil) is kept to its top
    14 bits and returned as a 16-bit value. */
module PixelDepth {
  import opened Base
  import opened Framebuffers

  const DepthShift: nat := 0x4_0000  // 2^18: 8 stencil bits and the 10 dropped depth bits

  /** The 16-bit depth reported for a packed depth-stencil word: the word
      shifted right by 18 and then left by 2, written as a division and a
      product (the quotient is below 2^14, so the product loses nothing). */
  function EncodeDepth(raw: u32): (v: u16)
    ensures v % 4 == 0
    ensures (v / 4) * DepthShift <= raw < (v / 4 + 1) * DepthShift
  {
    (raw / DepthShift * 4) as u16
  }

  /** Depth words that agree in their top 14 bits read back the same, and
      the encoding never decreases with the raw value. */
  lemma EncodeDepthMonotone(a: u32, b: u32)
    ensures a / DepthShift == b / DepthShift ==> EncodeDepth(a) == EncodeDepth(b)
    ensures a <= b ==> EncodeDepth(a) <= EncodeDepth(b)
  {
    if a <= b {
      assert a / DepthShift <= b / DepthShift;
    }
  }

  /** The row a coordinate is read from: flipped against the framebuffer's
      height when the framebuffer is stored upside down, computed in 32-bit
      unsigned arithmetic and read back as a signed int. */
  function ReadRow(fb: Framebuffer, y: i32): (row: i32)
    ensures !fb.invertY ==> row == y
    ensures fb.invertY && 0 <= y <= fb.height as int < 0x8000_0000 ==> row == fb.height as int - y
  {
    if fb.invertY then ToI32(fb.height as int - y) else y
  }

  /** Flipping twice gives the row back, for every row, wrap-around included. */
  lemma ReadRowInvolution(fb: Framebuffer, y: i32)
    ensures ReadRow(fb, ReadRow(fb, y)) == y
  {
    if fb.invertY {
      var r1 := ReadRow(fb, y);
      var h := fb.height as int;
      var r2 := ReadRow(fb, r1);
      assert (r1 - (h - y)) % 0x1_0000_0000 == 0;
      assert (r2 - (h - r1)) % 0x1_0000_0000 == 0;
      ModDiff(r2 - (h - r1), r1 - (h - y));
      assert r2 - y == (r2 - (h - r1)) - (r1 - (h - y));
      SmallMultipleIsZero(r2 - y);
    }
  }

  lemma ModDiff(a: int, b: int)
    requires a % 0x1_0000_0000 == 0 && b % 0x1_0000_0000 == 0
    ensures (a - b) % 0x1_0000_0000 == 0
  {
    var m := 0x1_0000_0000;
    assert a == (a / m) * m;
    assert b == (b / m) * m;
    assert a - b == (a / m - b / m) * m;
  }

  lemma SmallMultipleIsZero(d: int)
    requires d % 0x1_0000_0000 == 0
    requires -0x1_0000_0000 < d < 0x1_0000_0000
    ensures d == 0
  {
  }

  /** A pixel position: a requested coordinate truncated to integers. */
  type Coord = (i32, i32)

  /** One pixel copied from the framebuffer into a slot of the scratch row. */
  datatype Blit = Blit(x: i32, y: i32, slot: nat)

  /** The depth reported for a pixel of a framebuffer whose packed
      depth-stencil word at each pixel is `depthAt`. */
  function DepthAt(fb: Framebuffer, depthAt: (i32, i32) -> u32, c: Coord): u16
  {
    EncodeDepth(depthAt(c.0, ReadRow(fb, c.1)))
  }

  /** The result of a readback: the depth per requested coordinate, the
      scratch row's width afterwards, and the pixel copies into it. */
  datatype Readback<K> = Readback(depths: map<K, u16>, scratchSize: nat, blits: seq<Blit>)

  /** Reading the depth at the requested coordinates `coords`, in the order
      the renderer's set yields them. A coordinate is any value `K` (the
      renderer passes pairs of floats); `pixel` truncates it to the pixel it
      names, so distinct coordinates may name the same pixel. `scratchSize`
      is the width of the scratch row before the call. */
  method GetPixelDepth<K(==)>(fb: Framebuffer, coords: seq<K>, pixel: K -> Coord, scratchSize: nat,
                              depthAt: (i32, i32) -> u32)
    returns (r: Readback<K>)
    ensures r.depths.Keys == set k | 0 <= k < |coords| :: coords[k]
    ensures forall k :: 0 <= k < |coords| ==> r.depths[coords[k]] == DepthAt(fb, depthAt, pixel(coords[k]))
    ensures r.scratchSize >= scratchSize
    ensures |coords| == 1 ==> r.scratchSize == scratchSize && r.blits == []
    ensures |coords| != 1 ==> r.scratchSize == if scratchSize < |coords| then |coords| else scratchSize
    ensures |coords| != 1 ==> |r.blits| == |coords|
    ensures forall k :: 0 <= k < |r.blits| ==>
              r.blits[k] == Blit(pixel(coords[k]).0, ReadRow(fb, pixel(coords[k]).1), k) && k < r.scratchSize
  {
    if |coords| == 1 {
      var c := pixel(coords[0]);
      var raw := depthAt(c.0, ReadRow(fb, c.1));
      r := Readback(map[coords[0] := EncodeDepth(raw)], scratchSize, []);
      return;
    }
    var size := scratchSize;
    if size < |coords| {
      size := |coords|;
    }
    // Copy each pixel into the next slot of the scratch row.
    var blits: seq<Blit> := [];
    var row: seq<u32> := [];
    for i := 0 to |coords|
      invariant |blits| == |row| == i
      invariant forall k :: 0 <= k < i ==> blits[k] == Blit(pixel(coords[k]).0, ReadRow(fb, pixel(coords[k]).1), k)
      invariant forall k :: 0 <= k < i ==> row[k] == depthAt(blits[k].x, blits[k].y)
    {
      var x := pixel(coords[i]).0;
      var y := ReadRow(fb, pixel(coords[i]).1);
      blits := blits + [Blit(x, y, i)];
      row := row + [depthAt(x, y)];
    }
    // Read the row back and key each value by the coordinate it came from;
    // a coordinate already present keeps its first value.
    var depths: map<K, u16> := map[];
    for i := 0 to |coords|
      invariant depths.Keys == set k | 0 <= k < i :: coords[k]
      invariant forall k :: 0 <= k < i ==> depths[coords[k]] == EncodeDepth(row[k])
    {
      if coords[i] !in depths {
        depths := depths[coords[i] := EncodeDepth(row[i])];
      }
    }
    r := Readback(depths, size, blits);
  }
}
