/** How a simulation rank's state travels as bytes (is_simstate.cpp, and the loops of handleQuery and
    query): the two sides use different code, and must agree byte for byte. */
module WireFormat {
  import opened SimStates
  import opened Encoding

  function Num8(x: nat): Val { Num(8, x) }

  function DTypeCode(t: DType): (c: nat)
    ensures c < 4
  {
    match t case UINT8 => 0 case FLOAT => 1 case DOUBLE => 2 case INVALID => 3
  }

  function DTypeOf(code: nat): DType {
    if code == 0 then UINT8 else if code == 1 then FLOAT else if code == 2 then DOUBLE else INVALID
  }

  // ----- What is sent ------------------------------------------------------------------------------------

  /** Buffer::send's header: name, type, dims as one block, bytes and stride. */
  function BufferFields(b: Buffer): seq<Val> {
    [Text(b.name), Num(4, DTypeCode(b.dataType)), Tuple([Num8(b.dims.x), Num8(b.dims.y), Num8(b.dims.z)]),
     Num8(|b.data.bytes|), Num8(b.data.stride)]
  }

  const BUFFER_TYPES := [Str, Word(4), Arr(3, Word(8)), Word(8), Word(8)]

  function BufferBytes(b: Buffer): seq<byte> {
    var header := WrittenAll(BufferFields(b));
    LE(8, |header|) + header + b.data.bytes
  }

  /** Particles::send's header has a fixed size and is not preceded by it. */
  function ParticlesFields(p: Particles): seq<Val> {
    [Num8(p.numParticles), Num8(p.numGhost), Num8(|p.data.bytes|), Num8(p.data.stride)]
  }

  const PARTICLES_TYPES := [Word(8), Word(8), Word(8), Word(8)]
  const PARTICLES_HEADER: nat := 32

  function ParticlesBytes(p: Particles): seq<byte> {
    WrittenAll(ParticlesFields(p)) + p.data.bytes
  }

  /** The packed SimStateHeader struct. */
  const HEADER_SIZE: nat := 88

  function HeaderBytes(h: Header): (b: seq<byte>)
    ensures |b| == HEADER_SIZE
  {
    h.world + h.local + h.ghost_ + LE(4, h.simRank) + LE(8, h.numBuffers) + LE(4, h.hasParticles)
  }

  function FrameBytes(f: Frame): seq<byte> {
    match f
    case HeaderFrame(h) => HeaderBytes(h)
    case BufferFrame(b) => BufferBytes(b)
    case ParticlesFrame(p) => ParticlesBytes(p)
  }

  function AllBytes(fs: seq<Frame>): seq<byte> {
    if fs == [] then [] else FrameBytes(fs[0]) + AllBytes(fs[1..])
  }

  ghost function StateBytes(snap: Snapshot): seq<byte>
    requires snap.Valid()
  {
    AllBytes(Frames(snap))
  }

  // ----- What is received -----------------------------------------------------------------------------------

  function NumOf(v: Val): uint64 { if v.Num? && v.x < U64 then v.x else 0 }

  function TextOf(v: Val): seq<byte> { if v.Text? then v.chars else [] }

  function DimsOf(v: Val): Dims {
    if v.Tuple? && |v.vals| == 3 then Dims(NumOf(v.vals[0]), NumOf(v.vals[1]), NumOf(v.vals[2])) else Dims(0, 0, 0)
  }

  /** Buffer::recv after the header: the data. */
  function BufferOf(fields: seq<Val>, data: seq<byte>): Buffer requires |fields| == 5 {
    Buffer(TextOf(fields[0]), DTypeOf(NumOf(fields[1])), DimsOf(fields[2]), Array(data, NumOf(fields[4])))
  }

  /** Buffer::recv; None while bytes are missing. */
  function ReadBufferFrame(b: seq<byte>): Option<(Buffer, seq<byte>)> {
    if |b| < 8 then None
    else
      var n := FromLE(b[..8]);
      if |b| < 8 + n then None
      else
        var header := ReadTypes(BUFFER_TYPES, b[8..8 + n]);
        if header.None? then None
        else
          var size := NumOf(header.value.0[3]);
          if |b| < 8 + n + size then None
          else Some((BufferOf(header.value.0, b[8 + n..8 + n + size]), b[8 + n + size..]))
  }

  function ParticlesOf(fields: seq<Val>, data: seq<byte>): Particles requires |fields| == 4 {
    Particles(NumOf(fields[0]), NumOf(fields[1]), Array(data, NumOf(fields[3])))
  }

  /** Particles::recv. */
  function ReadParticlesFrame(b: seq<byte>): Option<(Particles, seq<byte>)> {
    if |b| < PARTICLES_HEADER then None
    else
      var header := ReadTypes(PARTICLES_TYPES, b[..PARTICLES_HEADER]);
      if header.None? then None
      else
        var size := NumOf(header.value.0[2]);
        if |b| < PARTICLES_HEADER + size then None
        else Some((ParticlesOf(header.value.0, b[PARTICLES_HEADER..PARTICLES_HEADER + size]), b[PARTICLES_HEADER + size..]))
  }

  function HeaderIn(b: seq<byte>): Header requires |b| == HEADER_SIZE {
    Pow256Of8();
    Header(b[0..24], b[24..48], b[48..72], FromLE(b[72..76]), FromLE(b[76..84]), FromLE(b[84..88]))
  }

  /** The loop over header.numBuffers in query. */
  function ReadBuffers(n: nat, buffers: map<Name, Buffer>, b: seq<byte>): Option<(map<Name, Buffer>, seq<byte>)> {
    if n == 0 then Some((buffers, b))
    else
      var r := ReadBufferFrame(b);
      if r.None? then None else ReadBuffers(n - 1, buffers[r.value.0.name := r.value.0], r.value.1)
  }

  /** One region, as query builds it from the bytes of its simulation rank. */
  function ReadState(b: seq<byte>): Option<(SimState, seq<byte>)> {
    if |b| < HEADER_SIZE then None
    else
      var h := HeaderIn(b[..HEADER_SIZE]);
      var bs := ReadBuffers(h.numBuffers, map[], b[HEADER_SIZE..]);
      if bs.None? then None
      else if h.hasParticles == 0 then
        Some((SimState(h.world, h.local, h.ghost_, h.simRank, bs.value.0, NO_PARTICLES), bs.value.1))
      else
        var p := ReadParticlesFrame(bs.value.1);
        if p.None? then None
        else Some((SimState(h.world, h.local, h.ghost_, h.simRank, bs.value.0, p.value.0), p.value.1))
  }

  // ----- Receiving undoes sending ------------------------------------------------------------------------------

  lemma HeaderRoundTrip(h: Header)
    ensures HeaderIn(HeaderBytes(h)) == h
  {
    hide LE, FromLE, Pow256;
    Pow256Of8();
    FromLEofLE(4, h.simRank);
    FromLEofLE(8, h.numBuffers);
    FromLEofLE(4, h.hasParticles);
    var b := HeaderBytes(h);
    assert b[0..24] == h.world && b[24..48] == h.local && b[48..72] == h.ghost_;
    assert b[72..76] == LE(4, h.simRank) && b[76..84] == LE(8, h.numBuffers) && b[84..88] == LE(4, h.hasParticles);
  }

  lemma BufferTyped(b: Buffer)
    requires b.Valid()
    ensures |BufferFields(b)| == |BUFFER_TYPES|
    ensures forall i :: 0 <= i < 5 ==> WellFormed(BUFFER_TYPES[i]) && HasType(BufferFields(b)[i], BUFFER_TYPES[i])
  {
    Pow256Of8();
    var dims := BufferFields(b)[2];
    assert forall i :: 0 <= i < 3 ==> HasType(dims.vals[i], Word(8));
  }

  lemma DTypeRoundTrip(t: DType)
    ensures DTypeOf(DTypeCode(t)) == t
  {
  }

  lemma BufferFieldsRoundTrip(b: Buffer)
    requires b.Valid()
    ensures BufferOf(BufferFields(b), b.data.bytes) == b && NumOf(BufferFields(b)[3]) == |b.data.bytes|
  {
    DTypeRoundTrip(b.dataType);
  }

  lemma Cuts(a: seq<byte>, b: seq<byte>, c: seq<byte>, d: seq<byte>)
    ensures var all := a + b + c + d;
            && all[..|a|] == a && all[|a|..|a| + |b|] == b && all[|a| + |b|..|a| + |b| + |c|] == c
            && all[|a| + |b| + |c|..] == d
  {
  }

  /** The size in front of the header is the header's; name, type, dims, stride and data come back. */
  lemma BufferRoundTrip(b: Buffer, tail: seq<byte>)
    requires b.Valid()
    ensures ReadBufferFrame(BufferBytes(b) + tail) == Some((b, tail))
    ensures |BufferBytes(b)| == 8 + b.HeaderSize() + |b.data.bytes|
  {
    hide WrittenAll, BufferFields, BufferOf, LE, FromLE, ReadTypes, NumOf;
    var header := WrittenAll(BufferFields(b));
    HeaderLength(b);
    Cuts(LE(8, |header|), header, b.data.bytes, tail);
    Pow256Of8();
    FromLEofLE(8, |header|);
    BufferTyped(b);
    ReadWrittenSequence(BufferFields(b), BUFFER_TYPES, []);
    assert header + [] == header;
    BufferFieldsRoundTrip(b);
  }

  lemma HeaderLength(b: Buffer)
    ensures |WrittenAll(BufferFields(b))| == b.HeaderSize()
  {
    var fs := BufferFields(b);
    var ds := fs[2].vals;
    assert |Memory(fs[2])| == 24 by {
      assert Memories(ds) == Memory(ds[0]) + Memories(ds[1..]);
      assert Memories(ds[1..]) == Memory(ds[1]) + Memories(ds[1..][1..]);
      assert ds[1..][1..] == [ds[2]] && Memories([ds[2]]) == Memory(ds[2]) + Memories([]);
    }
    assert WrittenAll(fs) == Written(fs[0]) + WrittenAll(fs[1..]);
    assert fs[1..] == [fs[1], fs[2], fs[3], fs[4]];
    assert WrittenAll(fs[1..]) == Written(fs[1]) + WrittenAll(fs[1..][1..]) && fs[1..][1..] == [fs[2], fs[3], fs[4]];
    LastThree(fs[2], fs[3], fs[4]);
  }

  lemma LastThree(u: Val, v: Val, w: Val)
    ensures WrittenAll([u, v, w]) == Written(u) + Written(v) + Written(w)
  {
    assert [u, v, w][1..] == [v, w] && [v, w][1..] == [w] && [w][1..] == [];
    assert WrittenAll([w]) == Written(w) + WrittenAll([]);
    assert WrittenAll([v, w]) == Written(v) + WrittenAll([w]);
  }

  lemma FirstWritten(v: Val, vs: seq<Val>)
    ensures WrittenAll([v] + vs) == Written(v) + WrittenAll(vs)
  {
    hide Written;
    assert ([v] + vs)[1..] == vs;
  }

  lemma Join(a: seq<byte>, b: seq<byte>, c: seq<byte>, d: seq<byte>)
    ensures a + (b + c + d) == a + b + c + d
  {
  }

  lemma FourWritten(a: Val, b: Val, c: Val, d: Val)
    ensures WrittenAll([a, b, c, d]) == Written(a) + Written(b) + Written(c) + Written(d)
  {
    hide Written, WrittenAll;
    assert [a, b, c, d] == [a] + [b, c, d];
    FirstWritten(a, [b, c, d]);
    LastThree(b, c, d);
    Join(Written(a), Written(b), Written(c), Written(d));
  }

  lemma FiveWritten(a: Val, b: Val, c: Val, d: Val, e: Val)
    ensures WrittenAll([a, b, c, d, e]) == Written(a) + Written(b) + Written(c) + Written(d) + Written(e)
  {
    hide Written, WrittenAll;
    assert [a, b, c, d, e] == [a] + [b, c, d, e];
    FirstWritten(a, [b, c, d, e]);
    FourWritten(b, c, d, e);
    Join(Written(a), Written(b) + Written(c), Written(d), Written(e));
    Regroup(Written(a), Written(b), Written(c));
  }

  lemma ParticlesRoundTrip(p: Particles, tail: seq<byte>)
    requires p.data.Valid()
    ensures ReadParticlesFrame(ParticlesBytes(p) + tail) == Some((p, tail))
  {
    var fs := ParticlesFields(p);
    var header := WrittenAll(fs);
    assert |header| == PARTICLES_HEADER by {
      assert header == Written(fs[0]) + WrittenAll(fs[1..]) && fs[1..] == [fs[1], fs[2], fs[3]];
      LastThree(fs[1], fs[2], fs[3]);
    }
    var all := ParticlesBytes(p) + tail;
    assert all[..32] == header && all[32..32 + |p.data.bytes|] == p.data.bytes && all[32 + |p.data.bytes|..] == tail;
    Pow256Of8();
    ReadWrittenSequence(fs, PARTICLES_TYPES, []);
    assert header + [] == header;
  }

  /** Some of a state's buffers are in the map already; the rest follow. */
  lemma {:induction false} BuffersRoundTrip(snap: Snapshot, j: nat, tail: seq<byte>)
    requires snap.Valid() && j <= |snap.order|
    ensures var fs := Frames(snap);
            var k := |snap.order|;
            ReadBuffers(k - j, BuffersIn(fs[..j + 1]), AllBytes(fs[j + 1..k + 1]) + tail) == Some((snap.state.buffers, tail))
    decreases |snap.order| - j
  {
    hide FrameBytes, BuffersIn, ReadBufferFrame;
    var fs := Frames(snap);
    var k := |snap.order|;
    if j == k {
      AllBuffersIn(snap);
      assert AllBytes(fs[k + 1..k + 1]) + tail == tail;
    } else {
      var b := snap.state.buffers[snap.order[j]];
      assert fs[j + 1] == BufferFrame(b);
      assert fs[j + 1..k + 1][1..] == fs[j + 2..k + 1];
      var rest := AllBytes(fs[j + 2..k + 1]) + tail;
      assert AllBytes(fs[j + 1..k + 1]) + tail == FrameBytes(fs[j + 1]) + rest;
      FrameOfBuffer(b, rest);
      assert fs[..j + 2] == fs[..j + 1] + [fs[j + 1]];
      BuffersInSnoc(fs[..j + 1], fs[j + 1]);
      BuffersRoundTrip(snap, j + 1, tail);
    }
  }

  lemma FrameOfBuffer(b: Buffer, rest: seq<byte>)
    requires b.Valid()
    ensures ReadBufferFrame(FrameBytes(BufferFrame(b)) + rest) == Some((b, rest))
  {
    BufferRoundTrip(b, rest);
  }

  lemma {:induction false} AllBytesConcat(a: seq<Frame>, b: seq<Frame>)
    ensures AllBytes(a + b) == AllBytes(a) + AllBytes(b)
  {
    hide FrameBytes;
    if a == [] {
      assert a + b == b;
    } else {
      assert (a + b)[1..] == a[1..] + b;
      AllBytesConcat(a[1..], b);
    }
  }

  /** A state's bytes: header, buffers in iteration order, and the particles when the header says so. */
  lemma StateLayout(snap: Snapshot)
    requires snap.Valid()
    ensures var h := HeaderOf(snap.state);
            var fs := Frames(snap);
            var k := |snap.order|;
            && |fs| >= k + 1 && (forall i :: 0 <= i < k ==> fs[1..k + 1][i] == BufferFrame(snap.state.buffers[snap.order[i]]))
            && StateBytes(snap) == HeaderBytes(h) + AllBytes(fs[1..k + 1])
                                   + (if h.hasParticles != 0 then ParticlesBytes(snap.state.particles) else [])
  {
    hide HeaderBytes, ParticlesBytes, BufferBytes, AllBytes;
    var h := HeaderOf(snap.state);
    var fs := Frames(snap);
    var k := |snap.order|;
    var last := fs[k + 1..];
    assert last == if h.hasParticles != 0 then [ParticlesFrame(snap.state.particles)] else [];
    assert fs[0] == HeaderFrame(h);
    ThreeParts(fs, k + 1);
    hide Frames, Snapshot.Valid;
    OneFrame(fs[0]);
    NoFrame();
    if h.hasParticles != 0 { OneFrame(last[0]); }
  }

  lemma ThreeParts(fs: seq<Frame>, k: nat)
    requires 1 <= k <= |fs|
    ensures AllBytes(fs) == AllBytes([fs[0]]) + AllBytes(fs[1..k]) + AllBytes(fs[k..])
  {
    hide AllBytes;
    FirstMiddleLast(fs, k);
    AllBytesConcat([fs[0]] + fs[1..k], fs[k..]);
    AllBytesConcat([fs[0]], fs[1..k]);
  }

  lemma FirstMiddleLast(fs: seq<Frame>, k: nat)
    requires 1 <= k <= |fs|
    ensures fs == ([fs[0]] + fs[1..k]) + fs[k..]
  {
  }

  lemma OneFrame(f: Frame)
    ensures AllBytes([f]) == FrameBytes(f)
  {
    hide FrameBytes;
    assert AllBytes([f]) == FrameBytes(f) + AllBytes([]);
  }

  lemma NoFrame()
    ensures AllBytes([]) == []
  {
  }

  /** Sending a whole state and receiving it gives back bounds, rank, every buffer and the particles, for
      any iteration order of the map; the particles are missing exactly when their number is a multiple of
      2^32; and the receiver consumes exactly the bytes sent. */
  lemma StateRoundTrip(snap: Snapshot, tail: seq<byte>)
    requires snap.Valid()
    ensures ReadState(StateBytes(snap) + tail) == Some((Delivered(snap.state), tail))
  {
    hide HeaderBytes, HeaderIn, ReadBuffers, AllBytes, BuffersIn, ParticlesBytes, ReadParticlesFrame, Frames;
    var st := snap.state;
    var h := HeaderOf(st);
    var fs := Frames(snap);
    var k := |snap.order|;
    FramesStart(snap);
    var ps := if h.hasParticles != 0 then ParticlesBytes(st.particles) else [];
    StateLayout(snap);
    Cuts(HeaderBytes(h), AllBytes(fs[1..k + 1]), ps, tail);
    HeaderRoundTrip(h);
    BuffersRoundTrip(snap, 0, ps + tail);
    var all := StateBytes(snap) + tail;
    assert all[HEADER_SIZE..] == AllBytes(fs[1..k + 1]) + (ps + tail);
    if h.hasParticles != 0 { ParticlesRoundTrip(st.particles, tail); } else { assert ps + tail == tail; }
  }

  /** The state arrives whole exactly when the number of particles is not a multiple of 2^32, or there is nothing to
      lose: whatever particles and ghosts there are otherwise, they stay behind. */
  lemma StateArrivesWhole(snap: Snapshot, tail: seq<byte>)
    requires snap.Valid()
    ensures ReadState(StateBytes(snap) + tail) == Some((snap.state, tail))
            <==> snap.state.particles.numParticles % 0x1_0000_0000 != 0 || snap.state.particles == Particles(0, 0, Array([], 0))
  {
    hide ReadState, StateBytes;
    StateRoundTrip(snap, tail);
  }

  /** For example, the ghosts of a rank that owns no particles of its own do not arrive. */
  lemma GhostsAlone(tail: seq<byte>)
    ensures var none := seq(24, _ => 0);
            var st := SimState(none, none, none, 0, map[], Particles(0, 1, Array([42], 1)));
            var snap := Snapshot(st, []);
            && snap.Valid()
            && ReadState(StateBytes(snap) + tail) == Some((st.(particles := Particles(0, 0, Array([], 0))), tail))
            && ReadState(StateBytes(snap) + tail) != Some((st, tail))
  {
    hide ReadState, StateBytes;
    var none := seq(24, _ => 0);
    var st := SimState(none, none, none, 0, map[], Particles(0, 1, Array([42], 1)));
    StateRoundTrip(Snapshot(st, []), tail);
    StateArrivesWhole(Snapshot(st, []), tail);
  }

  lemma FramesStart(snap: Snapshot)
    requires snap.Valid()
    ensures |Frames(snap)| >= |snap.order| + 1 && BuffersIn(Frames(snap)[..1]) == map[] && |snap.order| == HeaderOf(snap.state).numBuffers
  {
    var fs := Frames(snap);
    assert fs[..1][..0] == [] && fs[..1][0] == fs[0];
  }

  // ----- Byte by byte --------------------------------------------------------------------------------------------

  /** The 88 bytes of the packed header: three boxes, the rank, the number of buffers and the particle count cut to
      32 bits. */
  lemma HeaderLayout(st: SimState)
    requires |st.buffers| < U64
    ensures var b := HeaderBytes(HeaderOf(st));
            && |b| == 88 && b[..24] == st.world && b[24..48] == st.local && b[48..72] == st.ghost_
            && b[72..76] == LE(4, st.simRank) && b[76..84] == LE(8, |st.buffers|)
            && b[84..] == LE(4, st.particles.numParticles % 0x1_0000_0000)
  {
    hide LE;
    Pow256Of8();
  }

  lemma ThreeWords(x: nat, y: nat, z: nat)
    ensures Written(Tuple([Num8(x), Num8(y), Num8(z)])) == LE(8, x) + LE(8, y) + LE(8, z)
  {
    hide LE;
    var vs := [Num8(x), Num8(y), Num8(z)];
    assert vs[1..] == [Num8(y), Num8(z)] && vs[1..][1..] == [Num8(z)] && vs[1..][1..][1..] == [];
    assert Memories(vs[1..][1..]) == LE(8, z) + Memories([]);
    assert Memories(vs[1..]) == LE(8, y) + Memories(vs[1..][1..]);
    assert Memories(vs) == LE(8, x) + (LE(8, y) + (LE(8, z) + Memories([])));
    Regroup(LE(8, x), LE(8, y), LE(8, z));
    assert Memories([]) == [] && LE(8, z) + [] == LE(8, z);
  }

  /** A buffer's bytes: the length of the rest of the header, then the name behind its length, the type's number, the
      three dims, the number of bytes and the stride; then the data. */
  lemma BufferLayout(b: Buffer)
    ensures var code := if b.dataType == UINT8 then 0 else if b.dataType == FLOAT then 1 else if b.dataType == DOUBLE then 2 else 3;
            BufferBytes(b) == LE(8, |b.name| + 52)
                              + ((LE(8, |b.name|) + b.name) + LE(4, code) + (LE(8, b.dims.x) + LE(8, b.dims.y) + LE(8, b.dims.z))
                                 + LE(8, |b.data.bytes|) + LE(8, b.data.stride))
                              + b.data.bytes
  {
    var fs := BufferFields(b);
    HeaderLength(b);
    hide LE;
    ThreeWords(b.dims.x, b.dims.y, b.dims.z);
    hide Memories, WrittenAll;
    FiveWritten(fs[0], fs[1], fs[2], fs[3], fs[4]);
  }

  /** The particles' bytes: four numbers, then the data, and no length in front. */
  lemma ParticlesLayout(p: Particles)
    ensures ParticlesBytes(p) == (LE(8, p.numParticles) + LE(8, p.numGhost) + LE(8, |p.data.bytes|) + LE(8, p.data.stride)) + p.data.bytes
  {
    var fs := ParticlesFields(p);
    hide LE, WrittenAll;
    FourWritten(fs[0], fs[1], fs[2], fs[3]);
  }
}
