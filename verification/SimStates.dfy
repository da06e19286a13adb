/** The state one simulation rank publishes (is_simstate.h), the setters that fill it
    (is_sim.cpp), and the sequence of frames in which it travels to a client:
    a header, one frame per buffer, and the particles if the header announces them. */
module SimStates {
  type byte = x: nat | x < 0x100
  type uint32 = x: nat | x < 0x1_0000_0000
  type uint64 = x: nat | x < 0x1_0000_0000_0000_0000

  const U32: nat := 0x1_0000_0000
  const U64: nat := 0x1_0000_0000_0000_0000

  type Name = seq<byte>

  datatype DType = UINT8 | FLOAT | DOUBLE | INVALID

  datatype Option<+T> = None | Some(value: T)

  /** Six floats; nothing here computes with them, so they stay raw bytes. */
  type Box = b: seq<byte> | |b| == 24 witness seq(24, _ => 0)

  datatype Dims = Dims(x: uint64, y: uint64, z: uint64)

  datatype Array = Array(bytes: seq<byte>, stride: uint64) {
    predicate Valid() { |bytes| < U64 }
  }

  datatype Buffer = Buffer(name: Name, dataType: DType, dims: Dims, data: Array) {
    predicate Valid() { |name| < U64 && data.Valid() && HeaderSize() < U64 }

    function HeaderSize(): nat { 8 + |name| + 4 + 24 + 8 + 8 }
  }

  datatype Particles = Particles(numParticles: uint64, numGhost: uint64, data: Array)

  /** A default-constructed Particles: no particles and no array. */
  const NO_PARTICLES := Particles(0, 0, Array([], 0))

  datatype SimState = SimState(world: Box, local: Box, ghost_: Box, simRank: uint32,
                               buffers: map<Name, Buffer>, particles: Particles)
  {
    /** What the setters keep: every buffer is stored under its own name. */
    ghost predicate Valid() {
      && |buffers| < U64
      && (forall n :: n in buffers ==> buffers[n].name == n && buffers[n].Valid())
      && particles.data.Valid()
    }
  }

  datatype Header = Header(world: Box, local: Box, ghost_: Box, simRank: uint32,
                           numBuffers: uint64, hasParticles: uint32)

  /** SimStateHeader(const SimState *): note that the particle *count* is narrowed to
      32 bits to make the flag. */
  function HeaderOf(st: SimState): Header
    requires |st.buffers| < U64
  {
    Header(st.world, st.local, st.ghost_, st.simRank, |st.buffers|, st.particles.numParticles % U32)
  }

  datatype Frame =
    | HeaderFrame(header: Header)
    | BufferFrame(buffer: Buffer)
    | ParticlesFrame(particles: Particles)

  /** A state together with the order in which its hash map happens to be iterated. */
  datatype Snapshot = Snapshot(state: SimState, order: seq<Name>) {
    ghost predicate Valid() {
      && state.Valid()
      && (forall i, j :: 0 <= i < j < |order| ==> order[i] != order[j])
      && (forall i :: 0 <= i < |order| ==> order[i] in state.buffers)
      && |order| == |state.buffers|
    }
  }

  /** handleQuery's send sequence for one state. */
  ghost function Frames(snap: Snapshot): (fs: seq<Frame>)
    requires snap.Valid()
    ensures |fs| >= 1
  {
    var h := HeaderOf(snap.state);
    [HeaderFrame(h)]
    + seq(|snap.order|, i requires 0 <= i < |snap.order| => BufferFrame(snap.state.buffers[snap.order[i]]))
    + (if h.hasParticles != 0 then [ParticlesFrame(snap.state.particles)] else [])
  }

  /** The number of frames a header announces. */
  function Announced(h: Header): nat {
    1 + h.numBuffers + (if h.hasParticles != 0 then 1 else 0)
  }

  /** What the receive loop in query() tries to read after the frames in `got`. */
  predicate Expects(got: seq<Frame>, f: Frame) {
    if got == [] then f.HeaderFrame?
    else if !got[0].HeaderFrame? then false
    else if |got| < 1 + got[0].header.numBuffers then f.BufferFrame?
    else f.ParticlesFrame?
  }

  predicate Complete(got: seq<Frame>) {
    got != [] && got[0].HeaderFrame? && |got| >= Announced(got[0].header)
  }

  /** r.buffers[buf.name] = buf, for each received buffer in turn. */
  function BuffersIn(fs: seq<Frame>): map<Name, Buffer> {
    if fs == [] then map[]
    else
      var m := BuffersIn(fs[..|fs|-1]);
      var f := fs[|fs|-1];
      if f.BufferFrame? then m[f.buffer.name := f.buffer] else m
  }

  /** The region a client builds from one simulation's frames. */
  function Assemble(fs: seq<Frame>): SimState {
    var h := if fs != [] && fs[0].HeaderFrame? then fs[0].header
             else Header(seq(24, _ => 0), seq(24, _ => 0), seq(24, _ => 0), 0, 0, 0);
    var p := if fs != [] && fs[|fs|-1].ParticlesFrame? then fs[|fs|-1].particles else NO_PARTICLES;
    SimState(h.world, h.local, h.ghost_, h.simRank, BuffersIn(fs), p)
  }

  /** What a client is entitled to: the state itself, except that the particles are
      missing exactly when their count is a multiple of 2^32. */
  function Delivered(st: SimState): SimState {
    if st.particles.numParticles % U32 == 0 then st.(particles := NO_PARTICLES) else st
  }

  /** While a state's frames are received in order, the loop always asks for the kind of
      frame that comes next and stops exactly after the last one. */
  lemma FramesGuideReceiver(snap: Snapshot, j: nat)
    requires snap.Valid() && j <= |Frames(snap)|
    ensures j < |Frames(snap)| ==>
              forall f: Frame :: Expects(Frames(snap)[..j], f) <==>
                && (f.HeaderFrame? <==> Frames(snap)[j].HeaderFrame?)
                && (f.BufferFrame? <==> Frames(snap)[j].BufferFrame?)
    ensures Complete(Frames(snap)[..j]) <==> j == |Frames(snap)|
  {
    var fs := Frames(snap);
    if j > 0 {
      assert fs[..j][0] == fs[0];
      assert |fs| == Announced(HeaderOf(snap.state));
    }
  }

  lemma BuffersInSnoc(fs: seq<Frame>, f: Frame)
    ensures BuffersIn(fs + [f]) == if f.BufferFrame? then BuffersIn(fs)[f.buffer.name := f.buffer] else BuffersIn(fs)
  {
    assert (fs + [f])[..|fs|] == fs;
  }

  /** The map built from a prefix of the buffer frames holds exactly that prefix's names. */
  lemma {:induction false} BuffersInPrefix(snap: Snapshot, j: nat)
    requires snap.Valid() && j <= |snap.order|
    ensures forall n :: n in BuffersIn(Frames(snap)[..j+1]) <==> n in snap.order[..j]
    ensures forall n :: n in BuffersIn(Frames(snap)[..j+1]) ==>
              n in snap.state.buffers && BuffersIn(Frames(snap)[..j+1])[n] == snap.state.buffers[n]
  {
    var fs := Frames(snap);
    if j == 0 {
      BuffersInSnoc([], fs[0]);
      assert fs[..1] == [] + [fs[0]];
    } else {
      BuffersInPrefix(snap, j - 1);
      assert fs[..j+1] == fs[..j] + [fs[j]];
      BuffersInSnoc(fs[..j], fs[j]);
      var name := snap.order[j-1];
      assert fs[j] == BufferFrame(snap.state.buffers[name]);
      assert snap.order[..j] == snap.order[..j-1] + [name];
    }
  }

  /** A duplicate-free list of |s| elements of s lists all of s. */
  lemma OrderCovers(order: seq<Name>, s: set<Name>)
    requires forall i, j :: 0 <= i < j < |order| ==> order[i] != order[j]
    requires forall i :: 0 <= i < |order| ==> order[i] in s
    requires |order| == |s|
    ensures forall n :: n in s ==> n in order
  {
    if order != [] {
      var last := order[|order|-1];
      var init := order[..|order|-1];
      forall i | 0 <= i < |init| ensures init[i] in s - {last} {}
      OrderCovers(init, s - {last});
      forall n | n in s ensures n in order { if n != last { assert n in init; } }
    }
  }

  lemma AllBuffersIn(snap: Snapshot)
    requires snap.Valid()
    ensures BuffersIn(Frames(snap)[..|snap.order|+1]) == snap.state.buffers
  {
    var k := |snap.order|;
    BuffersInPrefix(snap, k);
    assert snap.order[..k] == snap.order;
    OrderCovers(snap.order, snap.state.buffers.Keys);
  }

  /** Receiving a state's frames rebuilds the state, whatever order the map was iterated in. */
  lemma AssembleFrames(snap: Snapshot)
    requires snap.Valid()
    ensures Assemble(Frames(snap)) == Delivered(snap.state)
  {
    var fs := Frames(snap);
    AllBuffersIn(snap);
    if HeaderOf(snap.state).hasParticles != 0 {
      assert fs[..|fs|-1] == fs[..|snap.order|+1];
    } else {
      assert fs[..|snap.order|+1] == fs;
    }
  }

  /** The stride in bytes of a field's elements. The source asserts on INVALID. */
  function DTypeStride(t: DType): uint64
    requires t != INVALID
  {
    match t case UINT8 => 1 case FLOAT => 4 case DOUBLE => 8
  }

  /** The handle returned by libISMakeSimState, with the setters that overwrite its fields. */
  class SimStateHandle {
    var state: SimState

    ghost predicate Valid() reads this { state.Valid() }

    constructor (simRank: uint32)
      ensures Valid() && state.simRank == simRank && state.buffers == map[] && state.particles == NO_PARTICLES
    {
      var none := seq(24, _ => 0);
      state := SimState(none, none, none, simRank, map[], NO_PARTICLES);
    }

    /** A field of dims.x * dims.y * dims.z elements; the byte count is a 64-bit product. */
    method SetField(name: Name, dims: Dims, t: DType, data: seq<byte>)
      requires Valid() && t != INVALID
      requires |state.buffers| + 1 < U64 && |name| + 52 < U64
      requires |data| >= dims.x * dims.y * dims.z * DTypeStride(t) % U64
      modifies this
      ensures Valid()
      ensures state == old(state).(buffers := old(state.buffers)[name :=
          Buffer(name, t, dims, Array(data[..dims.x * dims.y * dims.z * DTypeStride(t) % U64], DTypeStride(t)))])
      ensures var n := dims.x * dims.y * dims.z;
              && name in state.buffers && state.buffers[name].dims == dims && state.buffers[name].dataType == t
              && (t == UINT8 ==> state.buffers[name].data == Array(data[..n % 0x1_0000_0000_0000_0000], 1))
              && (t == FLOAT ==> state.buffers[name].data == Array(data[..4 * n % 0x1_0000_0000_0000_0000], 4))
              && (t == DOUBLE ==> state.buffers[name].data == Array(data[..8 * n % 0x1_0000_0000_0000_0000], 8))
    {
      var elemStride := DTypeStride(t);
      var numBytes := dims.x * dims.y * dims.z * elemStride % U64;
      var b := Buffer(name, t, dims, Array(data[..numBytes], elemStride));
      PutKeepsValid(state, b);
      state := state.(buffers := state.buffers[name := b]);
    }

    method SetBuffer(name: Name, size: uint64, data: seq<byte>)
      requires Valid()
      requires |state.buffers| + 1 < U64 && |name| + 52 < U64
      requires |data| >= size
      modifies this
      ensures Valid()
      ensures state == old(state).(buffers := old(state.buffers)[name :=
          Buffer(name, UINT8, Dims(size, 1, 1), Array(data[..size], 1))])
    {
      var b := Buffer(name, UINT8, Dims(size, 1, 1), Array(data[..size], 1));
      PutKeepsValid(state, b);
      state := state.(buffers := state.buffers[name := b]);
    }

    method SetParticles(numParticles: uint64, numGhost: uint64, stride: uint64, data: seq<byte>)
      requires Valid()
      requires |data| >= (numParticles + numGhost) * stride % U64
      modifies this
      ensures Valid()
      ensures state == old(state).(particles :=
          Particles(numParticles, numGhost, Array(data[..(numParticles + numGhost) * stride % U64], stride)))
    {
      var numBytes := (numParticles + numGhost) * stride % U64;
      state := state.(particles := Particles(numParticles, numGhost, Array(data[..numBytes], stride)));
    }
  }

  /** Storing a buffer under its own name keeps the state valid, whether or not the name is new. */
  lemma PutKeepsValid(st: SimState, b: Buffer)
    requires st.Valid() && b.Valid() && |st.buffers| + 1 < U64
    ensures st.(buffers := st.buffers[b.name := b]).Valid()
  {
    var after := st.buffers[b.name := b];
    assert after.Keys == st.buffers.Keys + {b.name};
    hide Buffer.Valid, Array.Valid;
    forall n | n in after ensures after[n].name == n && after[n].Valid() {
      if n != b.name { assert n in st.buffers; }
    }
  }
}
