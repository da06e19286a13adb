/** The code that moves a state through an intercommunicator (is_simstate.cpp, handleQuery in is_sim.cpp
    and query in is_client.cpp), proved against the format. */
module StateTransfer {
  import opened SimStates
  import opened Encoding
  import opened Buffering
  import opened WireFormat
  import opened InterComm
  import opened Partition

  method SendBytes(intercomm: SocketInterComm, rank: nat, bytes: seq<byte>)
    requires rank < |intercomm.sockets|
    modifies intercomm.sockets[rank]
    ensures intercomm.sockets[rank].outgoing == old(intercomm.sockets[rank].outgoing) + bytes
    ensures intercomm.sockets[rank].incoming == old(intercomm.sockets[rank].incoming)
  {
    var data := new byte[|bytes|](i requires 0 <= i < |bytes| => bytes[i]);
    assert data[..|bytes|] == bytes;
    intercomm.Send(data, |bytes|, rank);
  }

  method RecvBytes(intercomm: SocketInterComm, rank: nat, n: nat) returns (bytes: seq<byte>)
    requires rank < |intercomm.sockets| && n <= |intercomm.sockets[rank].incoming|
    modifies intercomm.sockets[rank]
    ensures bytes == old(intercomm.sockets[rank].incoming)[..n]
    ensures intercomm.sockets[rank].incoming == old(intercomm.sockets[rank].incoming)[n..]
    ensures intercomm.sockets[rank].outgoing == old(intercomm.sockets[rank].outgoing)
  {
    var data := new byte[n](_ => 0);
    intercomm.Recv(data, n, rank);
    bytes := data[..n];
  }

  lemma CapacityHolds(buffer: WriteBuffer)
    requires buffer.Valid()
    ensures buffer.end <= buffer.buffer.Length
  {
  }

  /** The header of Buffer::send, put together in a write buffer. */
  method WriteBufferHeader(b: Buffer) returns (bytes: seq<byte>)
    ensures bytes == WrittenAll(BufferFields(b))
  {
    hide Written, WrittenAll;
    var header := new WriteBuffer(4 * 1024);
    var fields := BufferFields(b);
    hide BufferFields, WriteBuffer.Valid;
    header.Put(fields[0]);
    assert header.Contents() == Written(fields[0]);
    header.Put(fields[1]);
    header.Put(fields[2]);
    header.Put(fields[3]);
    header.Put(fields[4]);
    FiveWritten(fields[0], fields[1], fields[2], fields[3], fields[4]);
    CapacityHolds(header);
    bytes := header.buffer[..header.end];
  }

  method WriteParticlesHeader(p: Particles) returns (bytes: seq<byte>)
    ensures bytes == WrittenAll(ParticlesFields(p))
  {
    hide Written, WrittenAll;
    var header := new WriteBuffer(4 * 1024);
    var fields := ParticlesFields(p);
    hide ParticlesFields, WriteBuffer.Valid;
    header.Put(fields[0]);
    assert header.Contents() == Written(fields[0]);
    header.Put(fields[1]);
    header.Put(fields[2]);
    header.Put(fields[3]);
    FourWritten(fields[0], fields[1], fields[2], fields[3]);
    CapacityHolds(header);
    bytes := header.buffer[..header.end];
  }

  /** Buffer::send. */
  method SendBuffer(intercomm: SocketInterComm, rank: nat, b: Buffer)
    requires rank < |intercomm.sockets| && b.Valid()
    modifies intercomm.sockets[rank]
    ensures intercomm.sockets[rank].outgoing == old(intercomm.sockets[rank].outgoing) + BufferBytes(b)
    ensures intercomm.sockets[rank].incoming == old(intercomm.sockets[rank].incoming)
  {
    hide WrittenAll, BufferFields, LE;
    var header := WriteBufferHeader(b);
    SendBytes(intercomm, rank, LE(8, |header|));
    SendBytes(intercomm, rank, header);
    SendBytes(intercomm, rank, b.data.bytes);
  }

  /** Particles::send. */
  method SendParticles(intercomm: SocketInterComm, rank: nat, p: Particles)
    requires rank < |intercomm.sockets|
    modifies intercomm.sockets[rank]
    ensures intercomm.sockets[rank].outgoing == old(intercomm.sockets[rank].outgoing) + ParticlesBytes(p)
    ensures intercomm.sockets[rank].incoming == old(intercomm.sockets[rank].incoming)
  {
    hide WrittenAll, ParticlesFields;
    var header := WriteParticlesHeader(p);
    SendBytes(intercomm, rank, header);
    SendBytes(intercomm, rank, p.data.bytes);
  }

  lemma NextFrame(snap: Snapshot, i: nat)
    requires snap.Valid() && i < |snap.order|
    ensures AllBytes(Frames(snap)[1..i + 2]) == AllBytes(Frames(snap)[1..i + 1]) + BufferBytes(snap.state.buffers[snap.order[i]])
  {
    hide BufferBytes;
    var fs := Frames(snap);
    assert fs[1..i + 2] == fs[1..i + 1] + [fs[i + 1]];
    AllBytesConcat(fs[1..i + 1], [fs[i + 1]]);
    assert AllBytes([fs[i + 1]]) == FrameBytes(fs[i + 1]) + AllBytes([]);
  }

  lemma ValidBuffer(snap: Snapshot, i: nat)
    requires snap.Valid() && i < |snap.order|
    ensures snap.order[i] in snap.state.buffers && snap.state.buffers[snap.order[i]].Valid()
  {
  }

  /** The loop over the map of buffers, in the order of its iteration. */
  method SendBuffers(intercomm: SocketInterComm, rank: nat, state: SimState, order: seq<Name>)
    requires rank < |intercomm.sockets| && Snapshot(state, order).Valid()
    modifies intercomm.sockets[rank]
    ensures intercomm.sockets[rank].outgoing
            == old(intercomm.sockets[rank].outgoing) + AllBytes(Frames(Snapshot(state, order))[1..|order| + 1])
    ensures intercomm.sockets[rank].incoming == old(intercomm.sockets[rank].incoming)
  {
    ghost var fs := Frames(Snapshot(state, order));
    ghost var start := intercomm.sockets[rank].outgoing;
    NoFrame();
    assert fs[1..1] == [];
    hide BufferBytes, AllBytes, Frames, Snapshot.Valid, Buffer.Valid;
    for i := 0 to |order|
      invariant intercomm.sockets[rank].outgoing == start + AllBytes(fs[1..i + 1])
      invariant intercomm.sockets[rank].incoming == old(intercomm.sockets[rank].incoming)
    {
      ghost var sent := AllBytes(fs[1..i + 1]);
      ValidBuffer(Snapshot(state, order), i);
      SendBuffer(intercomm, rank, state.buffers[order[i]]);
      NextFrame(Snapshot(state, order), i);
      Regroup(start, sent, BufferBytes(state.buffers[order[i]]));
    }
  }

  /** handleQuery after the ping: the header, every buffer in the order of the map's iteration, and the
      particles if the header announces them. */
  method SendState(intercomm: SocketInterComm, rank: nat, state: SimState, order: seq<Name>)
    requires rank < |intercomm.sockets| && Snapshot(state, order).Valid()
    modifies intercomm.sockets[rank]
    ensures intercomm.sockets[rank].outgoing == old(intercomm.sockets[rank].outgoing) + StateBytes(Snapshot(state, order))
    ensures intercomm.sockets[rank].incoming == old(intercomm.sockets[rank].incoming)
  {
    hide HeaderBytes, BufferBytes, ParticlesBytes, StateBytes, AllBytes, Frames;
    StateLayout(Snapshot(state, order));
    var h := HeaderOf(state);
    SendBytes(intercomm, rank, HeaderBytes(h));
    SendBuffers(intercomm, rank, state, order);
    if h.hasParticles != 0 {
      SendParticles(intercomm, rank, state.particles);
    }
  }

  /** handleQuery, from the round of polling in which some client has written: reads the ping of the first
      one that has, and answers that client with the whole state. */
  method HandleQuery(intercomm: SocketInterComm, state: SimState, order: seq<Name>) returns (myClient: int)
    requires Snapshot(state, order).Valid()
    requires forall i, j :: 0 <= i < j < |intercomm.sockets| ==> intercomm.sockets[i] != intercomm.sockets[j]
    requires exists c :: 0 <= c < |intercomm.sockets| && intercomm.sockets[c].incoming != []
    requires forall c :: 0 <= c < |intercomm.sockets| && intercomm.sockets[c].incoming != [] ==> |intercomm.sockets[c].incoming| >= 4
    modifies intercomm.sockets
    ensures 0 <= myClient < |intercomm.sockets| && old(intercomm.sockets[myClient].incoming) != []
    ensures forall c :: 0 <= c < myClient ==> old(intercomm.sockets[c].incoming) == []
    ensures intercomm.sockets[myClient].incoming == old(intercomm.sockets[myClient].incoming)[4..]
    ensures intercomm.sockets[myClient].outgoing == old(intercomm.sockets[myClient].outgoing) + StateBytes(Snapshot(state, order))
    ensures forall c :: 0 <= c < |intercomm.sockets| && c != myClient ==>
              intercomm.sockets[c].incoming == old(intercomm.sockets[c].incoming)
              && intercomm.sockets[c].outgoing == old(intercomm.sockets[c].outgoing)
  {
    hide StateBytes, Snapshot.Valid;
    myClient := intercomm.ProbeAll();
    var ping := RecvBytes(intercomm, myClient, 4);
    SendState(intercomm, myClient, state, order);
  }

  lemma ReadTypesStep(ty: Ty, tys: seq<Ty>, b: seq<byte>)
    ensures var first := Read(ty, b);
            ReadTypes([ty] + tys, b) ==
              if first.None? || ReadTypes(tys, first.value.1).None? then None
              else Some(([first.value.0] + ReadTypes(tys, first.value.1).value.0, ReadTypes(tys, first.value.1).value.1))
  {
    hide Read;
    assert ([ty] + tys)[1..] == tys;
  }

  /** One >>, when the types of it and of those after it can all be read. */
  method ReadField(header: ReadBuffer, ty: Ty, ghost later: seq<Ty>) returns (v: Val)
    requires header.Valid() && WellFormed(ty) && ReadTypes([ty] + later, header.Rest()).Some?
    modifies header`begin
    ensures header.Valid() && ReadTypes(later, header.Rest()).Some?
    ensures old(ReadTypes([ty] + later, header.Rest())).value.0 == [v] + ReadTypes(later, header.Rest()).value.0
  {
    hide Read, ReadTypes, HasType, Written, WellFormed;
    ReadTypesStep(ty, later, header.Rest());
    var r := header.Get(ty);
    v := r.value;
  }

  /** The five >> of Buffer::recv. */
  method ReadBufferHeader(bytes: seq<byte>) returns (fields: seq<Val>)
    requires ReadTypes(BUFFER_TYPES, bytes).Some?
    ensures fields == ReadTypes(BUFFER_TYPES, bytes).value.0
  {
    hide ReadTypes;
    var header := new ReadBuffer(bytes);
    ghost var word := [Word(8)];
    ghost var words := word + word;
    ghost var dimsOn := [Arr(3, Word(8))] + words;
    ghost var typeOn := [Word(4)] + dimsOn;
    assert BUFFER_TYPES == [Str] + typeOn && word == word + [];
    var name := ReadField(header, Str, typeOn);
    var dtype := ReadField(header, Word(4), dimsOn);
    var dims := ReadField(header, Arr(3, Word(8)), words);
    var nBytes := ReadField(header, Word(8), word);
    var elemStride := ReadField(header, Word(8), []);
    ReadNothing(header.Rest());
    fields := [name, dtype, dims, nBytes, elemStride];
    OneByOne(dtype, dims, nBytes, elemStride);
    assert fields == [name] + [dtype, dims, nBytes, elemStride];
  }

  lemma OneByOne(a: Val, b: Val, c: Val, d: Val)
    ensures [a] + ([b] + ([c] + ([d] + []))) == [a, b, c, d]
  {
  }

  lemma ReadNothing(b: seq<byte>)
    ensures ReadTypes([], b) == Some(([], b))
  {
  }

  /** Buffer::recv. */
  method RecvBuffer(intercomm: SocketInterComm, rank: nat) returns (b: Buffer)
    requires rank < |intercomm.sockets| && ReadBufferFrame(intercomm.sockets[rank].incoming).Some?
    modifies intercomm.sockets[rank]
    ensures ReadBufferFrame(old(intercomm.sockets[rank].incoming)) == Some((b, intercomm.sockets[rank].incoming))
    ensures intercomm.sockets[rank].outgoing == old(intercomm.sockets[rank].outgoing)
  {
    hide ReadTypes, BufferOf, FromLE;
    ghost var stream := intercomm.sockets[rank].incoming;
    var size := RecvBytes(intercomm, rank, 8);
    var n := FromLE(size);
    var header := RecvBytes(intercomm, rank, n);
    Skip(stream, 8, n);
    var fields := ReadBufferHeader(header);
    Skip(stream, 8 + n, NumOf(fields[3]));
    var data := RecvBytes(intercomm, rank, NumOf(fields[3]));
    b := BufferOf(fields, data);
  }

  /** Particles::recv. */
  method RecvParticles(intercomm: SocketInterComm, rank: nat) returns (p: Particles)
    requires rank < |intercomm.sockets| && ReadParticlesFrame(intercomm.sockets[rank].incoming).Some?
    modifies intercomm.sockets[rank]
    ensures ReadParticlesFrame(old(intercomm.sockets[rank].incoming)) == Some((p, intercomm.sockets[rank].incoming))
    ensures intercomm.sockets[rank].outgoing == old(intercomm.sockets[rank].outgoing)
  {
    hide ReadTypes, ParticlesOf;
    ghost var stream := intercomm.sockets[rank].incoming;
    var headerBuf := RecvBytes(intercomm, rank, PARTICLES_HEADER);
    var fields := ReadParticlesHeader(headerBuf);
    Skip(stream, PARTICLES_HEADER, NumOf(fields[2]));
    var data := RecvBytes(intercomm, rank, NumOf(fields[2]));
    p := ParticlesOf(fields, data);
  }

  /** The four >> of Particles::recv. */
  method ReadParticlesHeader(bytes: seq<byte>) returns (fields: seq<Val>)
    requires ReadTypes(PARTICLES_TYPES, bytes).Some?
    ensures fields == ReadTypes(PARTICLES_TYPES, bytes).value.0
  {
    hide ReadTypes;
    var header := new ReadBuffer(bytes);
    ghost var word := [Word(8)];
    ghost var words := word + word;
    ghost var allButFirst := word + words;
    assert PARTICLES_TYPES == word + allButFirst && word == word + [];
    var numParticles := ReadField(header, Word(8), allButFirst);
    var numGhost := ReadField(header, Word(8), words);
    var particleBytes := ReadField(header, Word(8), word);
    var elemStride := ReadField(header, Word(8), []);
    ReadNothing(header.Rest());
    fields := [numParticles, numGhost, particleBytes, elemStride];
    OneByOne(numParticles, numGhost, particleBytes, elemStride);
  }

  /** One round of query's region loop after the ping: fills a region from what its simulation rank sent. */
  method RecvState(intercomm: SocketInterComm, rank: nat) returns (r: SimState)
    requires rank < |intercomm.sockets| && ReadState(intercomm.sockets[rank].incoming).Some?
    modifies intercomm.sockets[rank]
    ensures ReadState(old(intercomm.sockets[rank].incoming)) == Some((r, intercomm.sockets[rank].incoming))
    ensures intercomm.sockets[rank].outgoing == old(intercomm.sockets[rank].outgoing)
  {
    hide ReadBufferFrame, ReadParticlesFrame, HeaderIn;
    ghost var stream := intercomm.sockets[rank].incoming;
    var headerBuf := RecvBytes(intercomm, rank, HEADER_SIZE);
    var header := HeaderIn(headerBuf);
    var buffers: map<Name, Buffer> := map[];
    for f := 0 to header.numBuffers
      invariant ReadBuffers(header.numBuffers, map[], stream[HEADER_SIZE..])
                == ReadBuffers(header.numBuffers - f, buffers, intercomm.sockets[rank].incoming)
      invariant intercomm.sockets[rank].outgoing == old(intercomm.sockets[rank].outgoing)
    {
      var buf := RecvBuffer(intercomm, rank);
      buffers := buffers[buf.name := buf];
    }
    var particles := NO_PARTICLES;
    if header.hasParticles != 0 {
      particles := RecvParticles(intercomm, rank);
    }
    r := SimState(header.world, header.local, header.ghost_, header.simRank, buffers, particles);
  }

  /** Pings one simulation rank and receives its state. */
  method QueryRegion(intercomm: SocketInterComm, rank: nat, regionId: nat, ghost snap: Snapshot) returns (r: SimState)
    requires rank < U32 && regionId < |intercomm.sockets| && snap.Valid() && intercomm.sockets[regionId].incoming == StateBytes(snap)
    modifies intercomm.sockets[regionId]
    ensures r == Delivered(snap.state) && intercomm.sockets[regionId].incoming == []
    ensures intercomm.sockets[regionId].outgoing == old(intercomm.sockets[regionId].outgoing) + LE(4, rank)
  {
    hide LE, StateBytes, ReadState, Delivered;
    SendBytes(intercomm, regionId, LE(4, rank));
    StateRoundTrip(snap, []);
    assert StateBytes(snap) + [] == StateBytes(snap);
    r := RecvState(intercomm, regionId);
  }

  /** query on client rank `rank` of `size`, once sendCommand has returned 0: pings its own simulation ranks
      one after the other and fills one region from each of them. */
  method Query(intercomm: SocketInterComm, rank: nat, size: nat, ghost snaps: seq<Snapshot>) returns (regions: seq<SimState>)
    requires rank < size && rank < U32 && |intercomm.sockets| == |snaps|
    requires forall i, j :: 0 <= i < j < |snaps| ==> intercomm.sockets[i] != intercomm.sockets[j]
    requires forall s :: 0 <= s < |snaps| ==> snaps[s].Valid() && intercomm.sockets[s].incoming == StateBytes(snaps[s])
    modifies intercomm.sockets
    ensures |regions| == Count(|snaps|, size, rank) && Lo(|snaps|, size, rank) + |regions| <= |snaps|
    ensures forall i :: 0 <= i < |regions| ==> regions[i] == Delivered(snaps[Lo(|snaps|, size, rank) + i].state)
    ensures forall s :: 0 <= s < |snaps| ==>
              if Lo(|snaps|, size, rank) <= s < Lo(|snaps|, size, rank) + |regions| then
                intercomm.sockets[s].outgoing == old(intercomm.sockets[s].outgoing) + LE(4, rank) && intercomm.sockets[s].incoming == []
              else
                intercomm.sockets[s].outgoing == old(intercomm.sockets[s].outgoing)
                && intercomm.sockets[s].incoming == old(intercomm.sockets[s].incoming)
  {
    hide Lo, Count, LE, StateBytes, ReadState, Delivered, Snapshot.Valid;
    var M := |intercomm.sockets|;
    var simsPerClient, mySims, extraOffset := ClientRange(M, size, rank);
    ghost var first := Lo(M, size, rank);
    RangesAbut(M, size, rank);
    LoMonotone(M, size, rank + 1, size);
    RangesPartition(M, size);
    regions := [];
    for i := 0 to mySims
      invariant |regions| == i
      invariant forall k :: 0 <= k < i ==> regions[k] == Delivered(snaps[first + k].state)
      invariant forall s :: first <= s < first + i ==>
                  intercomm.sockets[s].outgoing == old(intercomm.sockets[s].outgoing) + LE(4, rank) && intercomm.sockets[s].incoming == []
      invariant forall s :: 0 <= s < M && !(first <= s < first + i) ==>
                  intercomm.sockets[s].outgoing == old(intercomm.sockets[s].outgoing)
                  && intercomm.sockets[s].incoming == old(intercomm.sockets[s].incoming)
    {
      var regionId := i + simsPerClient * rank + extraOffset;
      var r := QueryRegion(intercomm, rank, regionId, snaps[regionId]);
      regions := regions + [r];
    }
  }
}
