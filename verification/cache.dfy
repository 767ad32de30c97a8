/** The program cache: building, storing and looking up one GPU program per
    packed shader identifier, and binding a program's vertex layout. */
module Cache {
  import opened Base
  import opened CC
  import opened Layout

  /** A linked program and the vertex layout it expects. The location and
      size arrays hold `numAttribs` meaningful entries. */
  datatype ShaderProgram = ShaderProgram(
    openglProgramId: u32,
    numInputs: u8,
    usedTextures: Pair<bool>,
    numFloats: u8,
    attribLocations: seq<i32>,
    attribSizes: seq<u8>,
    numAttribs: u8,
    frameCountLocation: i32,
    noiseScaleLocation: i32)
  {
    /** The arrays hold exactly `numAttribs` entries, within their capacity of 16. */
    predicate Valid()
    {
      |attribLocations| == |attribSizes| == numAttribs as int <= MaxAttribs
    }
  }

  /** The packed shader identifier pair a program is cached under. */
  type Key = (u64, u32)

  type Pool = map<Key, ShaderProgram>

  /** The queries the backend answers for a linked program. */
  datatype Backend = Backend(
    attribLocation: (u32, string) -> i32,
    uniformLocation: (u32, string) -> i32)

  /** The sum of a sequence of attribute widths. */
  function Total(sizes: seq<u8>): nat
  {
    if |sizes| == 0 then 0 else Total(sizes[..|sizes| - 1]) + sizes[|sizes| - 1]
  }

  /** The program cached under a key, if any. */
  function Lookup(pool: Pool, id0: u64, id1: u32): (r: Option<ShaderProgram>)
    ensures r.Some? <==> (id0, id1) in pool
    ensures r.Some? ==> r.value == pool[(id0, id1)]
  {
    if (id0, id1) in pool then Some(pool[(id0, id1)]) else None
  }

  /** What the renderer learns of a program: its input count and used units. */
  function GetInfo(prg: ShaderProgram): (info: (u8, Pair<bool>))
    ensures info.0 == prg.numInputs && info.1 == prg.usedTextures
  {
    (prg.numInputs, prg.usedTextures)
  }

  /** The info of a program built for a feature set reports that set's input
      count, narrowed to the record's byte, and its texture use. Every record
      `BuildProgram` and `CreateAndLoad` produce reports its features, since
      `Describes` includes `ReportsFeatures`. */
  lemma InfoOfCreated(prg: ShaderProgram, f: CCFeatures)
    requires ReportsFeatures(prg, f)
    ensures GetInfo(prg) == ((f.numInputs % 256) as u8, f.usedTextures)
    ensures 0 <= f.numInputs < 256 ==> GetInfo(prg).0 as int == f.numInputs
  {
  }

  /** Creating a program: the program record built for the decoded
      features, stored under the identifier pair (replacing any earlier entry
      and leaving every other entry alone), and the calls that load it. The
      texts handed to the compiler are `VertexShader` and `FragmentShader` of
      the same features; `programId` is the name the backend gives the linked
      program and `frameCount` the frame counter. The record's
      arrays hold 16 entries, so the decoder must report at most 7 inputs.
      This is the intended behaviour: the program is loaded once its uniform
      locations are known. */
  method CreateAndLoad(pool: Pool, id0: u64, id1: u32, decode: Decoder, programId: u32,
                       gl: Backend, frameCount: u32)
    returns (pool': Pool, prg: ShaderProgram, load: LoadCalls)
    requires decode(id0, id1).numInputs <= 7
    ensures Describes(prg, decode(id0, id1), programId, gl) && prg.Valid()
    ensures 0 <= decode(id0, id1).numInputs ==> prg.numInputs as int == decode(id0, id1).numInputs
    ensures prg.numFloats as int == FloatsOf(AttribTable(decode(id0, id1))) == Total(prg.attribSizes)
    ensures pool' == pool[(id0, id1) := prg]
    ensures Lookup(pool', id0, id1) == Some(prg)
    ensures forall a: u64, b: u32 :: (a, b) != (id0, id1) ==> Lookup(pool', a, b) == Lookup(pool, a, b)
    ensures load.useProgram == programId && |load.pointers| == |AttribTable(decode(id0, id1))|
    ensures load.frameCount == (prg.frameCountLocation, FrameCountUniform(frameCount))
    ensures load.noiseScaleLocation == prg.noiseScaleLocation
  {
    var f := decode(id0, id1);
    prg := BuildProgram(f, programId, gl);
    TableFits(f);
    TableRecordFits(prg, AttribTable(f), programId, gl);
    Unnarrowed(prg.numInputs, f.numInputs);
    load := LoadShader(prg, frameCount);
    pool' := pool[(id0, id1) := prg];
    StoreThenLookup(pool, id0, id1, prg);
  }

  /** Storing a program makes it the answer for its key and for no other. */
  lemma StoreThenLookup(pool: Pool, id0: u64, id1: u32, prg: ShaderProgram)
    ensures Lookup(pool[(id0, id1) := prg], id0, id1) == Some(prg)
    ensures forall a: u64, b: u32 :: (a, b) != (id0, id1) ==> Lookup(pool[(id0, id1) := prg], a, b) == Lookup(pool, a, b)
  {
  }

  /** The uniform locations the load inside creation sees as the code is
      written: the entry is fetched from the pool (a new entry is zeroed) and
      loaded before its uniform locations are looked up, so they are those of
      whatever was stored under the key before. */
  function StagedLocations(pool: Pool, id0: u64, id1: u32): (r: (i32, i32))
    ensures (id0, id1) !in pool ==> r == (0, 0)
    ensures (id0, id1) in pool ==> r == (pool[(id0, id1)].frameCountLocation, pool[(id0, id1)].noiseScaleLocation)
  {
    match Lookup(pool, id0, id1)
    case None => (0, 0)
    case Some(prev) => (prev.frameCountLocation, prev.noiseScaleLocation)
  }

  /** Creation as the code is written: the record and the pool are as in
      `CreateAndLoad`, but the load sets the frame counter and noise scale
      at the locations staged in the pool entry, not at the program's own. */
  method CreateAndLoadAsWritten(pool: Pool, id0: u64, id1: u32, decode: Decoder, programId: u32,
                                gl: Backend, frameCount: u32)
    returns (pool': Pool, prg: ShaderProgram, load: LoadCalls)
    requires decode(id0, id1).numInputs <= 7
    ensures Describes(prg, decode(id0, id1), programId, gl) && prg.Valid()
    ensures pool' == pool[(id0, id1) := prg]
    ensures load.useProgram == programId
    ensures load.frameCount == (StagedLocations(pool, id0, id1).0, FrameCountUniform(frameCount))
    ensures load.noiseScaleLocation == StagedLocations(pool, id0, id1).1
  {
    var f := decode(id0, id1);
    prg := BuildProgram(f, programId, gl);
    TableFits(f);
    TableRecordFits(prg, AttribTable(f), programId, gl);
    var staged := StagedLocations(pool, id0, id1);
    load := LoadShader(prg.(frameCountLocation := staged.0, noiseScaleLocation := staged.1), frameCount);
    pool' := pool[(id0, id1) := prg];
  }

  /** A backend that places every attribute and uniform at one location. */
  function FixedBackend(location: i32): (gl: Backend)
    ensures forall p: u32, n: string :: gl.uniformLocation(p, n) == location && gl.attribLocation(p, n) == location
  {
    Backend((p: u32, n: string) => location, (p: u32, n: string) => location)
  }

  /** On a new key, with a driver that puts `frame_count` at location 5, the
      load inside creation as written sets location 0 instead: whatever
      uniform sits at 0 receives the frame counter, and the program's own
      frame counter and noise scale stay unset until it is loaded again. */
  lemma CreationLoadUsesStaleLocations(f: CCFeatures, prg: ShaderProgram, load: LoadCalls, frameCount: u32)
    requires Describes(prg, f, 1, FixedBackend(5))
    requires load.frameCount == (StagedLocations(map[], 0, 0).0, FrameCountUniform(frameCount))
    requires load.noiseScaleLocation == StagedLocations(map[], 0, 0).1
    ensures load.frameCount.0 == 0 != prg.frameCountLocation == 5
    ensures load.noiseScaleLocation == 0 != prg.noiseScaleLocation == 5
  {
    assert FixedBackend(5).uniformLocation(1, "frame_count") == 5;
    assert FixedBackend(5).uniformLocation(1, "noise_scale") == 5;
  }

  /** The program record for a feature set: its attribute table entry by
      entry, under the names the vertex stage declares, with the counts
      narrowed to bytes as the record stores them. */
  ghost predicate Describes(prg: ShaderProgram, f: CCFeatures, programId: u32, gl: Backend)
  {
    && ReportsFeatures(prg, f)
    && HoldsTable(prg, AttribTable(f), programId, gl)
  }

  /** The record's input count (narrowed to its byte) and texture use are the features'. */
  predicate ReportsFeatures(prg: ShaderProgram, f: CCFeatures)
  {
    prg.numInputs as int == f.numInputs % 256 && prg.usedTextures == f.usedTextures
  }

  /** The record's id, layout and uniform locations for a given attribute table. */
  ghost predicate HoldsTable(prg: ShaderProgram, table: seq<Attrib>, programId: u32, gl: Backend)
  {
    && prg.openglProgramId == programId
    && prg.numFloats as int == FloatsOf(table) % 256
    && |prg.attribLocations| == |prg.attribSizes| == |table|
    && prg.numAttribs as int == |table| % 256
    && (forall k :: 0 <= k < |table| ==>
          && prg.attribSizes[k] as int == table[k].size
          && prg.attribLocations[k] == gl.attribLocation(programId, "a" + NameText(table[k].name)))
    && prg.frameCountLocation == gl.uniformLocation(programId, "frame_count")
    && prg.noiseScaleLocation == gl.uniformLocation(programId, "noise_scale")
  }

  method BuildProgram(f: CCFeatures, programId: u32, gl: Backend) returns (prg: ShaderProgram)
    ensures Describes(prg, f, programId, gl)
  {
    var numFloats := CountFloats(f);
    var table := AttribTable(f);
    AttribSizesSmall(f);
    var locations, sizes := BindAttribs(table, programId, gl);
    prg := ShaderProgram(
      programId,
      (f.numInputs % 256) as u8,
      f.usedTextures,
      (numFloats % 256) as u8,
      locations,
      sizes,
      (|table| % 256) as u8,
      gl.uniformLocation(programId, "frame_count"),
      gl.uniformLocation(programId, "noise_scale"));
  }

  /** A non-negative count below 256 survives the narrowing to a byte. */
  lemma Unnarrowed(stored: u8, n: int)
    requires stored as int == n % 256 && n < 256
    ensures 0 <= n ==> stored as int == n
  {
  }

  /** With at most seven inputs the table has at most 16 entries and fewer
      than 256 floats. */
  lemma TableFits(f: CCFeatures)
    requires f.numInputs <= 7
    ensures |AttribTable(f)| <= MaxAttribs
    ensures FloatsOf(AttribTable(f)) < 256
  {
    AttribTableCapacity(f.numInputs);
    FloatsBound(f);
  }

  /** A record holding a table of at most 16 entries and fewer than 256
      floats stores its counts unnarrowed, and the widths it stores add up to
      its vertex size. */
  lemma TableRecordFits(prg: ShaderProgram, table: seq<Attrib>, programId: u32, gl: Backend)
    requires HoldsTable(prg, table, programId, gl)
    requires |table| <= MaxAttribs && FloatsOf(table) < 256
    ensures prg.Valid()
    ensures prg.numFloats as int == FloatsOf(table) == Total(prg.attribSizes)
  {
    Unnarrowed(prg.numAttribs, |table|);
    Unnarrowed(prg.numFloats, FloatsOf(table));
    TotalOfTable(table, prg.attribSizes);
  }

  /** The location of every attribute of a table, looked up under the name
      the vertex stage declares it with, and its width. */
  method BindAttribs(table: seq<Attrib>, programId: u32, gl: Backend) returns (locations: seq<i32>, sizes: seq<u8>)
    requires forall k :: 0 <= k < |table| ==> table[k].size < 256
    ensures |locations| == |sizes| == |table|
    ensures forall m :: 0 <= m < |table| ==>
              && sizes[m] as int == table[m].size
              && locations[m] == gl.attribLocation(programId, "a" + NameText(table[m].name))
  {
    locations := [];
    sizes := [];
    for k := 0 to |table|
      invariant |locations| == |sizes| == k
      invariant forall m :: 0 <= m < k ==>
                  && sizes[m] as int == table[m].size
                  && locations[m] == gl.attribLocation(programId, "a" + NameText(table[m].name))
    {
      locations := locations + [gl.attribLocation(programId, "a" + NameText(table[k].name))];
      sizes := sizes + [table[k].size as u8];
    }
  }

  /** Widths copied entry by entry from a table add up to the table's floats. */
  lemma {:induction false} TotalOfTable(table: seq<Attrib>, sizes: seq<u8>)
    requires |sizes| == |table|
    requires forall m :: 0 <= m < |table| ==> sizes[m] as int == table[m].size
    ensures Total(sizes) == FloatsOf(table)
    decreases |table|
  {
    if |table| > 0 {
      var n := |table| - 1;
      TotalOfTable(table[..n], sizes[..n]);
      FloatsOfAppend(table[..n], [table[n]]);
      FloatsOfSmall(table[n]);
      assert table == table[..n] + [table[n]];
    }
  }

  /** One vertex attribute pointer: location, width in floats, stride and
      offset in bytes. */
  datatype AttribPointer = AttribPointer(location: i32, size: u8, stride: nat, offset: nat)

  /** The byte offset of the k-th attribute in an interleaved vertex: four
      bytes for every float of the attributes before it. */
  function Offset(sizes: seq<u8>, k: nat): nat
    requires k <= |sizes|
  {
    4 * Total(sizes[..k])
  }

  /** The attribute pointers of an interleaved vertex buffer: every attribute
      enabled at its location with its width, the program's vertex size as
      stride and the widths before it as offset. */
  method SetAttribs(prg: ShaderProgram) returns (calls: seq<AttribPointer>)
    requires prg.Valid()
    ensures |calls| == prg.numAttribs as int
    ensures forall k :: 0 <= k < |calls| ==>
              calls[k] == AttribPointer(prg.attribLocations[k], prg.attribSizes[k], 4 * prg.numFloats as int,
                                        Offset(prg.attribSizes, k))
  {
    var sizes := prg.attribSizes;
    var stride := 4 * prg.numFloats as int;
    var pos := 0;
    calls := [];
    for i := 0 to prg.numAttribs as int
      invariant |calls| == i
      invariant pos == Total(sizes[..i])
      invariant forall k :: 0 <= k < i ==>
                  calls[k] == AttribPointer(prg.attribLocations[k], sizes[k], stride, Offset(sizes, k))
    {
      calls := calls + [AttribPointer(prg.attribLocations[i], sizes[i], stride, 4 * pos)];
      TotalStep(sizes, i);
      pos := pos + sizes[i] as int;
    }
  }

  /** The attributes tile the vertex: the first starts at 0, each starts
      where the previous ends, and when the vertex size is the sum of the
      widths every attribute ends within the stride. */
  lemma OffsetsTile(sizes: seq<u8>, numFloats: nat)
    ensures Offset(sizes, 0) == 0
    ensures forall k :: 0 <= k < |sizes| ==> Offset(sizes, k + 1) == Offset(sizes, k) + 4 * sizes[k] as int
    ensures numFloats == Total(sizes) ==>
              forall k :: 0 <= k < |sizes| ==> Offset(sizes, k) + 4 * sizes[k] as int <= 4 * numFloats
  {
    assert sizes[..0] == [];
    forall k | 0 <= k < |sizes|
      ensures Offset(sizes, k + 1) == Offset(sizes, k) + 4 * sizes[k] as int
      ensures Offset(sizes, k) + 4 * sizes[k] as int <= 4 * Total(sizes)
    {
      TotalStep(sizes, k);
      TotalPrefix(sizes, k + 1);
    }
  }

  lemma TotalStep(sizes: seq<u8>, i: nat)
    requires i < |sizes|
    ensures Total(sizes[..i + 1]) == Total(sizes[..i]) + sizes[i] as int
  {
    assert sizes[..i + 1][..i] == sizes[..i];
  }

  /** A prefix never weighs more than the whole. */
  lemma {:induction false} TotalPrefix(sizes: seq<u8>, n: nat)
    requires n <= |sizes|
    ensures Total(sizes[..n]) <= Total(sizes)
    decreases |sizes|
  {
    if n == |sizes| {
      assert sizes[..n] == sizes;
    } else {
      var m := |sizes| - 1;
      assert sizes[..m][..n] == sizes[..n];
      TotalPrefix(sizes[..m], n);
    }
  }

  /** The frame counter as the signed integer uniform receives it. */
  function FrameCountUniform(frameCount: u32): (v: i32)
    ensures (v - frameCount) % 0x1_0000_0000 == 0
    ensures frameCount < 0x8000_0000 ==> v == frameCount
    ensures frameCount >= 0x8000_0000 ==> v < 0
  {
    ToI32(frameCount)
  }

  /** Everything loading a program does: use it, point its attributes into
      the vertex buffer, and set the frame counter uniform (the noise scale
      uniform carries a float, which this model does not follow). */
  datatype LoadCalls = LoadCalls(
    useProgram: u32,
    pointers: seq<AttribPointer>,
    frameCount: (i32, i32),
    noiseScaleLocation: i32)

  /** The locations a list of attribute pointers enables. */
  function Enabled(pointers: seq<AttribPointer>): (locations: seq<i32>)
    ensures |locations| == |pointers|
  {
    seq(|pointers|, k requires 0 <= k < |pointers| => pointers[k].location)
  }

  method LoadShader(prg: ShaderProgram, frameCount: u32) returns (r: LoadCalls)
    requires prg.Valid()
    ensures r.useProgram == prg.openglProgramId
    ensures Enabled(r.pointers) == UnloadShader(Some(prg))
    ensures |r.pointers| == prg.numAttribs as int
    ensures forall k :: 0 <= k < |r.pointers| ==>
              r.pointers[k] == AttribPointer(prg.attribLocations[k], prg.attribSizes[k], 4 * prg.numFloats as int,
                                             Offset(prg.attribSizes, k))
    ensures r.frameCount == (prg.frameCountLocation, FrameCountUniform(frameCount))
    ensures r.noiseScaleLocation == prg.noiseScaleLocation
  {
    var pointers := SetAttribs(prg);
    r := LoadCalls(prg.openglProgramId, pointers, (prg.frameCountLocation, FrameCountUniform(frameCount)),
                   prg.noiseScaleLocation);
  }

  /** The attribute locations unloading a program disables: none without a
      program, otherwise every location loading it enabled. */
  function UnloadShader(previous: Option<ShaderProgram>): (disabled: seq<i32>)
    requires previous.Some? ==> previous.value.Valid()
    ensures previous.None? ==> disabled == []
    ensures previous.Some? ==> disabled == previous.value.attribLocations
  {
    match previous
    case None => []
    case Some(prg) => prg.attribLocations[..prg.numAttribs]
  }
}
