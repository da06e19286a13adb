/** SocketInterComm as its callers see it (intercomm.cpp): an object whose vector of sockets is
    filled by accept and indexed by remote rank afterwards. */
module InterComm {
  import opened SimStates
  import Handshake
  import HandshakeProofs

  /** One socket. `incoming` is what the peer sends, in order, from the first byte not yet received;
      `outgoing` is everything handed to the kernel so far. */
  class Connection {
    var incoming: seq<byte>
    var outgoing: seq<byte>

    constructor (incoming: seq<byte>)
      ensures this.incoming == incoming && outgoing == []
    {
      this.incoming, outgoing := incoming, [];
    }

    /** ::send: the kernel takes any positive number of the n bytes offered. */
    method SendSome(data: array<byte>, at: nat, n: nat) returns (ret: nat)
      requires 1 <= n && at + n <= data.Length
      modifies this`outgoing
      ensures 1 <= ret <= n && outgoing == old(outgoing) + data[at..at + ret]
    {
      ret :| 1 <= ret <= n;
      outgoing := outgoing + data[at..at + ret];
    }

    /** ::recv: waits for at least one byte, and gives any positive number of those that have come. */
    method RecvSome(data: array<byte>, at: nat, n: nat) returns (ret: nat)
      requires 1 <= n && at + n <= data.Length && n <= |incoming|
      modifies this`incoming, data
      ensures 1 <= ret <= n && incoming == old(incoming[ret..])
      ensures data[..at] == old(data[..at]) && data[at..at + ret] == old(incoming[..ret]) && data[at + ret..] == old(data[at + ret..])
    {
      ret :| 1 <= ret <= n;
      forall i | 0 <= i < ret { data[at + i] := incoming[i]; }
      incoming := incoming[ret..];
    }
  }

  /** A connection as ::accept returns it: the dialer's rank is the first thing to read from it, and
      dialer 0 sends the number of dialers after that. */
  datatype Arrival = Arrival(rank: nat, worldSize: int, conn: Connection)

  /** All of M dialers, each once, in any order. */
  ghost predicate Arrivals(M: nat, arrivals: seq<Arrival>) {
    && |arrivals| == M >= 1
    && (forall k :: 0 <= k < M ==> arrivals[k].rank < M && (arrivals[k].rank == 0 ==> arrivals[k].worldSize == M))
    && (forall k, l :: 0 <= k < l < M ==> arrivals[k].rank != arrivals[l].rank)
  }

  /** The file of connections by rank after the first n arrivals. */
  ghost predicate Filed(arrivals: seq<Arrival>, n: nat, remotes: map<nat, Connection>) requires n <= |arrivals| {
    && |remotes| == n
    && (forall k :: 0 <= k < n ==> arrivals[k].rank in remotes && remotes[arrivals[k].rank] == arrivals[k].conn)
    && (forall r :: r in remotes ==> Arrived(arrivals, n, r))
  }

  ghost predicate Arrived(arrivals: seq<Arrival>, n: nat, r: nat) requires n <= |arrivals| {
    exists k :: 0 <= k < n && arrivals[k].rank == r
  }

  lemma FileNext(M: nat, arrivals: seq<Arrival>, n: nat, remotes: map<nat, Connection>)
    requires Arrivals(M, arrivals) && n < M && Filed(arrivals, n, remotes)
    ensures Filed(arrivals, n + 1, remotes[arrivals[n].rank := arrivals[n].conn])
  {
    var r := arrivals[n].rank;
    NotYetFiled(M, arrivals, n, remotes);
    hide Arrivals;
    var after := remotes[r := arrivals[n].conn];
    hide Arrived;
    forall q | q in after ensures Arrived(arrivals, n + 1, q) {
      ArrivedNext(arrivals, n, q);
    }
  }

  lemma ArrivedNext(arrivals: seq<Arrival>, n: nat, r: nat)
    requires n < |arrivals|
    ensures Arrived(arrivals, n + 1, r) <==> Arrived(arrivals, n, r) || arrivals[n].rank == r
  {
    if arrivals[n].rank == r { assert arrivals[n].rank == r && n < n + 1; }
  }

  lemma NotYetFiled(M: nat, arrivals: seq<Arrival>, n: nat, remotes: map<nat, Connection>)
    requires Arrivals(M, arrivals) && n < M && Filed(arrivals, n, remotes)
    ensures arrivals[n].rank !in remotes
    ensures forall k :: 0 <= k < n ==> arrivals[k].rank != arrivals[n].rank
  {
  }

  /** M different ranks below M are all of them. */
  lemma AllFiled(M: nat, arrivals: seq<Arrival>, n: nat, remotes: map<nat, Connection>)
    requires Arrivals(M, arrivals) && n <= M && Filed(arrivals, n, remotes)
    ensures forall r :: r in remotes ==> r < M
    ensures n == M <==> forall r: nat :: r < M ==> r in remotes
  {
    var ids := map r | r in remotes :: r;
    assert ids.Keys == remotes.Keys && |ids| == |ids.Keys| && |remotes| == |remotes.Keys|;
    HandshakeProofs.AllKeys(ids, M);
    if forall r: nat :: r < M ==> r in remotes { assert forall r: nat :: r < M ==> r in ids; }
  }

  /** The r bytes that follow the first n of a stream. */
  lemma Continue(stream: seq<byte>, n: nat, r: nat)
    requires n + r <= |stream|
    ensures stream[..n] + stream[n..][..r] == stream[..n + r] && stream[n..][r..] == stream[n + r..]
  {
  }

  lemma SameEnd(now: seq<byte>, before: seq<byte>, nowEnd: seq<byte>, beforeEnd: seq<byte>, k: nat)
    requires now == before && k <= |now| && nowEnd == now[k..] && beforeEnd == before[k..]
    ensures nowEnd == beforeEnd
  {
  }

  class SocketInterComm {
    var sockets: seq<Connection>

    constructor ()
      ensures sockets == []
    {
      sockets := [];
    }

    /** accept on rank 0: the number of connections to expect arrives with dialer 0's, whenever that is.
        The loop takes exactly the M connections, and the vector's indices are the dialers' ranks. */
    method AcceptRoot(M: nat, arrivals: seq<Arrival>) returns (taken: nat)
      requires Arrivals(M, arrivals)
      modifies this
      ensures taken == M == |sockets|
      ensures forall k :: 0 <= k < M ==> sockets[arrivals[k].rank] == arrivals[k].conn
    {
      var remotes: map<nat, Connection> := map[];
      var nconnected, nexpected := 0, -1;
      while nconnected != nexpected
        invariant nconnected <= M && Filed(arrivals, nconnected, remotes)
        invariant nexpected == if 0 in remotes then M as int else -1
        decreases M - nconnected
      {
        AllFiled(M, arrivals, nconnected, remotes);
        var a := arrivals[nconnected];
        FileNext(M, arrivals, nconnected, remotes);
        nconnected := nconnected + 1;
        remotes := remotes[a.rank := a.conn];
        if a.rank == 0 {
          nexpected := a.worldSize;
        }
      }
      taken := nconnected;
      AllFiled(M, arrivals, nconnected, remotes);
      FillSockets(remotes);
    }

    /** accept on the other ranks, which were told the number beforehand. */
    method AcceptOther(nexpected: nat, arrivals: seq<Arrival>)
      requires Arrivals(nexpected, arrivals)
      modifies this
      ensures |sockets| == nexpected
      ensures forall k :: 0 <= k < nexpected ==> sockets[arrivals[k].rank] == arrivals[k].conn
    {
      var remotes: map<nat, Connection> := map[];
      var nconnected := 0;
      while nconnected != nexpected
        invariant nconnected <= nexpected && Filed(arrivals, nconnected, remotes)
      {
        FileNext(nexpected, arrivals, nconnected, remotes);
        remotes := remotes[arrivals[nconnected].rank := arrivals[nconnected].conn];
        nconnected := nconnected + 1;
      }
      AllFiled(nexpected, arrivals, nconnected, remotes);
      FillSockets(remotes);
    }

    /** sockets.resize(remotes.size()), then every entry of the hash map to its place, in any order. */
    method FillSockets(remotes: map<nat, Connection>)
      requires remotes != map[]
      requires forall r: nat :: r in remotes <==> r < |remotes|
      modifies this
      ensures |sockets| == |remotes| && forall r :: r in remotes ==> sockets[r] == remotes[r]
    {
      sockets := seq(|remotes|, _ => remotes[0]);
      var todo := remotes.Keys;
      while todo != {}
        invariant todo <= remotes.Keys && |sockets| == |remotes|
        invariant forall r :: r in remotes && r !in todo ==> sockets[r] == remotes[r]
        decreases |todo|
      {
        var r :| r in todo;
        sockets := sockets[r := remotes[r]];
        todo := todo - {r};
      }
    }

    /** All `size` bytes are handed over, in order and once. */
    method Send(data: array<byte>, size: nat, rank: nat)
      requires rank < |sockets| && size <= data.Length
      modifies sockets[rank]
      ensures sockets[rank].outgoing == old(sockets[rank].outgoing) + data[..size]
      ensures sockets[rank].incoming == old(sockets[rank].incoming)
    {
      var nsent := 0;
      while nsent != size
        invariant nsent <= size
        invariant sockets[rank].outgoing == old(sockets[rank].outgoing) + data[..nsent]
        invariant sockets[rank].incoming == old(sockets[rank].incoming)
        decreases size - nsent
      {
        var ret := sockets[rank].SendSome(data, nsent, size - nsent);
        assert data[..nsent] + data[nsent..nsent + ret] == data[..nsent + ret];
        nsent := nsent + ret;
      }
    }

    /** The next `size` bytes of the stream, no more and no fewer, and nothing past them in the buffer. */
    method Recv(data: array<byte>, size: nat, rank: nat)
      requires rank < |sockets| && size <= data.Length && size <= |sockets[rank].incoming|
      modifies sockets[rank], data
      ensures data[..size] == old(sockets[rank].incoming[..size]) && data[size..] == old(data[size..])
      ensures sockets[rank].incoming == old(sockets[rank].incoming[size..])
      ensures sockets[rank].outgoing == old(sockets[rank].outgoing)
    {
      ghost var stream := sockets[rank].incoming;
      var nrecv := 0;
      while nrecv != size
        invariant nrecv <= size
        invariant data[..nrecv] == stream[..nrecv] && data[size..] == old(data[size..])
        invariant sockets[rank].incoming == stream[nrecv..] && sockets[rank].outgoing == old(sockets[rank].outgoing)
        decreases size - nrecv
      {
        label Before:
        var ret := sockets[rank].RecvSome(data, nrecv, size - nrecv);
        Continue(stream, nrecv, ret);
        assert data[..nrecv + ret] == data[..nrecv] + data[nrecv..nrecv + ret];
        SameEnd(data[nrecv + ret..], old@Before(data[nrecv + ret..]), data[size..], old@Before(data[size..]), size - nrecv - ret);
        nrecv := nrecv + ret;
      }
    }

    /** The first rank whose data is ready, or -1 if there is none. */
    method ProbeAll() returns (ready: int)
      ensures -1 <= ready < |sockets|
      ensures ready >= 0 ==> sockets[ready].incoming != [] && forall r :: 0 <= r < ready ==> sockets[r].incoming == []
      ensures ready == -1 ==> forall r :: 0 <= r < |sockets| ==> sockets[r].incoming == []
    {
      for i := 0 to |sockets|
        invariant forall r :: 0 <= r < i ==> sockets[r].incoming == []
      {
        if sockets[i].incoming != [] {
          return i;
        }
      }
      return -1;
    }
  }
}
