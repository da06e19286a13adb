/** What every run of the handshake keeps, and what it ends with. */
module HandshakeProofs {
  import opened SimStates
  import opened Sums
  import opened Handshake

  function Batch(s: nat): nat { s / MAX_CONNECTIONS }

  /** A dialer's k-th socket goes to the k-th name, and its place in the two loops says how many it has. */
  ghost predicate DialerOk(cfg: Config, made: seq<Conn>, s: nat, d: Dialer)
    requires cfg.N() >= 1
  {
    && |d.sockets| <= cfg.N()
    && (forall k :: 0 <= k < |d.sockets| ==> d.sockets[k] < |made| && made[d.sockets[k]] == Conn(s, cfg.names[k]))
    && d.turn <= 2 * cfg.Batches() && (d.turn == 2 * cfg.Batches() ==> !d.waiting)
    && (d.hosts.Some? ==> d.hosts.value == cfg.names[1..] && d.sockets != [] && d.turn >= Batch(s))
    && (d.hosts.None? ==> |d.sockets| <= 1 && Arrived(d) <= Batch(s))
    && (d.hosts.None? && d.sockets != [] ==> d.turn == Batch(s) && !d.waiting)
    && (|d.sockets| > 1 ==> d.turn >= cfg.Batches())
    && (Arrived(d) > cfg.Batches() + Batch(s) ==> |d.sockets| == cfg.N())
  }

  /** Every connection is some socket of its dialer. */
  ghost predicate ConnOk(cfg: Config, dialers: seq<Dialer>, id: nat, conn: Conn) {
    conn.dialer < |dialers| && id in dialers[conn.dialer].sockets
  }

  /** An acceptor files each connection under the rank that dialed it, and rank 0's connection is the
      one that tells how many there will be. */
  ghost predicate AcceptorOk(cfg: Config, made: seq<Conn>, accepted: set<nat>, c: nat, a: Acceptor)
    requires c < cfg.N()
  {
    && a.nconnected == |a.remotes|
    && (forall r :: r in a.remotes ==>
          r < cfg.M && a.remotes[r] in accepted && a.remotes[r] < |made| && made[a.remotes[r]] == Conn(r, cfg.names[c]))
    && (a.nexpected == -1 || (a.nexpected == cfg.M && a.ready))
    && (!a.ready ==> a.remotes == map[])
    && (c > 0 && a.nexpected == -1 ==> a.remotes == map[])
    && (c == 0 ==> |a.hosts| <= cfg.N() - 1 && a.hosts == cfg.names[1..1 + |a.hosts|] && (a.ready <==> |a.hosts| == cfg.N() - 1)
                   && (a.nexpected == cfg.M <==> 0 in a.remotes))
  }

  ghost predicate TakenOk(cfg: Config, acceptors: seq<Acceptor>, made: seq<Conn>, id: nat)
    requires |acceptors| == cfg.N()
  {
    && id < |made|
    && exists c :: 0 <= c < cfg.N() && made[id].name == cfg.names[c]
                   && made[id].dialer in acceptors[c].remotes && acceptors[c].remotes[made[id].dialer] == id
  }

  /** Acceptor 0 has answered exactly the connections it has accepted. */
  ghost predicate RepliesOk(cfg: Config, root: Acceptor, replies: map<nat, seq<HostName>>, bcast: Option<int>)
    requires cfg.N() >= 1
  {
    && (forall id :: id in replies ==> replies[id] == cfg.names[1..])
    && (forall r :: r in root.remotes ==> root.remotes[r] in replies)
    && bcast == (if 0 in root.remotes then Some(cfg.M) else None)
  }

  ghost predicate Inv(cfg: Config, g: State) {
    && Shape(cfg, g)
    && (forall s :: 0 <= s < cfg.M ==> DialerOk(cfg, g.made, s, g.dialers[s]))
    && (forall s, t :: 0 <= s < cfg.M && 0 <= t < cfg.M ==> g.dialers[s].turn <= Arrived(g.dialers[t]))
    && (forall id :: 0 <= id < |g.made| ==> ConnOk(cfg, g.dialers, id, g.made[id]))
    && (forall c :: 0 <= c < cfg.N() ==> AcceptorOk(cfg, g.made, g.accepted, c, g.acceptors[c]))
    && (forall id :: id in g.accepted ==> TakenOk(cfg, g.acceptors, g.made, id))
    && RepliesOk(cfg, g.acceptors[0], g.replies, g.bcast)
  }

  lemma InitInv(cfg: Config)
    requires cfg.Valid()
    ensures Inv(cfg, Init(cfg))
  {
    assert cfg.names[1..1] == [];
  }

  // ----- Steps of a dialer --------------------------------------------------------------------------

  /** A dialer moves within its own loop. */
  lemma KeepDialer(cfg: Config, g: State, s: nat, d: Dialer)
    requires cfg.Valid() && Inv(cfg, g) && s < cfg.M && d.sockets == g.dialers[s].sockets && DialerOk(cfg, g.made, s, d)
    requires Arrived(d) >= Arrived(g.dialers[s])
    requires forall t :: 0 <= t < cfg.M ==> d.turn <= Arrived(g.dialers[t])
    ensures Inv(cfg, SetDialer(g, s, d))
  {
    hide DialerOk, AcceptorOk, RepliesOk, TakenOk;
    var g' := SetDialer(g, s, d);
    forall id | 0 <= id < |g.made| ensures ConnOk(cfg, g'.dialers, id, g.made[id]) { assert ConnOk(cfg, g.dialers, id, g.made[id]); }
  }

  lemma DialerMoves(cfg: Config, made: seq<Conn>, s: nat, d: Dialer)
    requires cfg.N() >= 1 && s < cfg.M && DialerOk(cfg, made, s, d) && d.turn < 2 * cfg.Batches()
    ensures !d.waiting && d.turn < cfg.Batches() && d.sockets != [] && d.hosts.None? ==>
              DialerOk(cfg, made, s, d.(hosts := Some(cfg.names[1..])))
    ensures !d.waiting && IterationDone(cfg, s, d) ==> DialerOk(cfg, made, s, d.(waiting := true))
    ensures d.waiting ==> DialerOk(cfg, made, s, d.(turn := d.turn + 1, waiting := false))
  {
    assert Batch(s) < cfg.Batches();
    assert forall b: nat :: InBatch(s, b) <==> b == Batch(s);
  }

  lemma DialerIs(cfg: Config, g: State, s: nat)
    requires Inv(cfg, g) && s < cfg.M
    ensures Shape(cfg, g) && DialerOk(cfg, g.made, s, g.dialers[s])
    ensures forall t :: 0 <= t < cfg.M ==> g.dialers[s].turn <= Arrived(g.dialers[t])
    ensures forall id :: id in g.replies ==> g.replies[id] == cfg.names[1..]
  {
    hide DialerOk, AcceptorOk, TakenOk, ConnOk, Arrived;
  }

  lemma KeepWaits(cfg: Config, g: State, a: Action)
    requires cfg.Valid() && Inv(cfg, g) && Shape(cfg, g) && Enabled(cfg, g, a) && (a.AReadHosts? || a.AEnter? || a.ALeave?)
    ensures Inv(cfg, Apply(cfg, g, a))
  {
    hide Inv, InBatch, Config.Batches, IterationDone;
    var s := a.s;
    var d := g.dialers[s];
    DialerIs(cfg, g, s);
    if d.waiting { assert d.turn < 2 * cfg.Batches(); }
    DialerMoves(cfg, g.made, s, d);
    hide DialerOk;
    match a {
      case AReadHosts(_) => KeepDialer(cfg, g, s, d.(hosts := Some(g.replies[d.sockets[0]])));
      case AEnter(_) => KeepDialer(cfg, g, s, d.(waiting := true));
      case ALeave(_) => KeepDialer(cfg, g, s, d.(turn := d.turn + 1, waiting := false));
      case _ =>
    }
  }

  lemma KeepDial(cfg: Config, g: State, s: nat, name: HostName)
    requires cfg.Valid() && Inv(cfg, g) && Running(cfg, g, s)
    requires var d := g.dialers[s];
             && |d.sockets| < cfg.N() && name == cfg.names[|d.sockets|]
             && (d.hosts.None? ==> d.sockets == [] && d.turn == Batch(s))
             && (d.sockets != [] ==> d.turn >= cfg.Batches())
    ensures Inv(cfg, Dial(g, s, name))
  {
    hide DialerOk, ConnOk, AcceptorOk, TakenOk, RepliesOk;
    var g' := Dial(g, s, name);
    forall t | 0 <= t < cfg.M ensures DialerOk(cfg, g'.made, t, g'.dialers[t]) {
      if t == s { DialedOne(cfg, g.made, s, g.dialers[s], name); } else { OthersDialed(cfg, g.made, g'.made, t, g.dialers[t]); }
    }
    forall id | 0 <= id < |g'.made| ensures ConnOk(cfg, g'.dialers, id, g'.made[id]) {
      DialedConn(cfg, g, s, name, id);
    }
    forall c | 0 <= c < cfg.N() ensures AcceptorOk(cfg, g'.made, g'.accepted, c, g'.acceptors[c]) {
      MoreMade(cfg, g.made, g'.made, g.accepted, c, g.acceptors[c]);
    }
    forall id | id in g'.accepted ensures TakenOk(cfg, g'.acceptors, g'.made, id) {
      TakenStays(cfg, g.acceptors, g.made, g'.made, id);
    }
  }

  lemma DialedOne(cfg: Config, made: seq<Conn>, s: nat, d: Dialer, name: HostName)
    requires cfg.N() >= 1 && DialerOk(cfg, made, s, d) && !d.waiting && d.turn < 2 * cfg.Batches()
    requires |d.sockets| < cfg.N() && name == cfg.names[|d.sockets|]
    requires d.hosts.None? ==> d.sockets == [] && d.turn == Batch(s)
    requires d.sockets != [] ==> d.turn >= cfg.Batches()
    ensures DialerOk(cfg, made + [Conn(s, name)], s, d.(sockets := d.sockets + [|made|]))
  {
  }

  lemma OthersDialed(cfg: Config, made: seq<Conn>, made': seq<Conn>, t: nat, d: Dialer)
    requires cfg.N() >= 1 && DialerOk(cfg, made, t, d) && made <= made'
    ensures DialerOk(cfg, made', t, d)
  {
  }

  lemma DialedConn(cfg: Config, g: State, s: nat, name: HostName, id: nat)
    requires s < |g.dialers| && id <= |g.made|
    requires id < |g.made| ==> ConnOk(cfg, g.dialers, id, g.made[id])
    ensures ConnOk(cfg, Dial(g, s, name).dialers, id, Dial(g, s, name).made[id])
  {
    var before, after := g.dialers[s].sockets, Dial(g, s, name).dialers[s].sockets;
    assert forall k :: k in before ==> k in after;
    assert after[|before|] == |g.made|;
  }

  lemma TakenStays(cfg: Config, acceptors: seq<Acceptor>, made: seq<Conn>, made': seq<Conn>, id: nat)
    requires |acceptors| == cfg.N() && TakenOk(cfg, acceptors, made, id) && made <= made'
    ensures TakenOk(cfg, acceptors, made', id)
  {
  }

  lemma MoreMade(cfg: Config, made: seq<Conn>, made': seq<Conn>, accepted: set<nat>, c: nat, a: Acceptor)
    requires c < cfg.N() && AcceptorOk(cfg, made, accepted, c, a) && made <= made'
    ensures AcceptorOk(cfg, made', accepted, c, a)
  {
  }

  // ----- Steps of an acceptor ------------------------------------------------------------------------

  lemma KeepAcceptor(cfg: Config, g: State, c: nat, a: Acceptor)
    requires cfg.Valid() && Inv(cfg, g) && c < cfg.N() && a.remotes == g.acceptors[c].remotes
    requires AcceptorOk(cfg, g.made, g.accepted, c, a)
    ensures Inv(cfg, SetAcceptor(g, c, a))
  {
    hide DialerOk, ConnOk, AcceptorOk;
    var g' := SetAcceptor(g, c, a);
    forall id | id in g.accepted ensures TakenOk(cfg, g'.acceptors, g.made, id) { assert TakenOk(cfg, g.acceptors, g.made, id); }
  }

  lemma NamesMove(cfg: Config, made: seq<Conn>, accepted: set<nat>, c: nat, a: Acceptor)
    requires cfg.Valid() && c < cfg.N() && AcceptorOk(cfg, made, accepted, c, a)
    ensures c > 0 && !a.ready ==> AcceptorOk(cfg, made, accepted, c, a.(ready := true))
    ensures c == 0 && !a.ready ==>
              var hosts := a.hosts + [cfg.names[|a.hosts| + 1]];
              AcceptorOk(cfg, made, accepted, c, a.(hosts := hosts, ready := |hosts| == cfg.N() - 1))
    ensures c > 0 && a.ready && a.nexpected == -1 ==> AcceptorOk(cfg, made, accepted, c, a.(nexpected := cfg.M))
  {
    if c == 0 && !a.ready {
      var hosts := a.hosts + [cfg.names[|a.hosts| + 1]];
      assert hosts == cfg.names[1..1 + |hosts|];
    }
  }

  lemma AcceptorIs(cfg: Config, g: State, c: nat)
    requires Inv(cfg, g) && c < cfg.N()
    ensures Shape(cfg, g) && AcceptorOk(cfg, g.made, g.accepted, c, g.acceptors[c])
    ensures g.bcast == if 0 in g.acceptors[0].remotes then Some(cfg.M) else None
  {
    hide DialerOk, AcceptorOk, TakenOk, ConnOk, Arrived;
  }

  lemma KeepNames(cfg: Config, g: State, a: Action)
    requires cfg.Valid() && Inv(cfg, g) && Shape(cfg, g) && Enabled(cfg, g, a) && (a.ASendName? || a.AGather? || a.AReadExpected?)
    ensures Inv(cfg, Apply(cfg, g, a))
  {
    hide Inv, Config.Valid;
    var c := if a.AGather? then 0 else a.c;
    var acc := g.acceptors[c];
    AcceptorIs(cfg, g, c);
    NamesMove(cfg, g.made, g.accepted, c, acc);
    hide AcceptorOk;
    match a {
      case ASendName(_) => KeepAcceptor(cfg, g, c, acc.(ready := true));
      case AGather =>
        var hosts := acc.hosts + [cfg.names[|acc.hosts| + 1]];
        KeepAcceptor(cfg, g, 0, acc.(hosts := hosts, ready := |hosts| == cfg.N() - 1));
      case AReadExpected(_) => KeepAcceptor(cfg, g, c, acc.(nexpected := g.bcast.value));
      case _ =>
    }
  }

  /** A waiting connection comes from a rank not accepted before. */
  lemma NewRank(cfg: Config, g: State, c: nat, id: nat)
    requires cfg.Valid() && Inv(cfg, g) && c < cfg.N() && Waits(cfg, g, c, id)
    ensures g.made[id].dialer < cfg.M && g.made[id].dialer !in g.acceptors[c].remotes
  {
    hide RepliesOk, TakenOk;
    var r := g.made[id].dialer;
    assert ConnOk(cfg, g.dialers, id, g.made[id]);
    assert DialerOk(cfg, g.made, r, g.dialers[r]);
    assert AcceptorOk(cfg, g.made, g.accepted, c, g.acceptors[c]);
    SlotOf(cfg, g, c, id);
    if r in g.acceptors[c].remotes { SlotOf(cfg, g, c, g.acceptors[c].remotes[r]); }
  }

  lemma SlotOf(cfg: Config, g: State, c: nat, id: nat)
    requires cfg.Valid() && Inv(cfg, g) && c < cfg.N() && id < |g.made| && g.made[id].name == cfg.names[c]
    ensures var r := g.made[id].dialer; r < cfg.M && c < |g.dialers[r].sockets| && g.dialers[r].sockets[c] == id
  {
    hide RepliesOk, TakenOk, AcceptorOk;
    var r := g.made[id].dialer;
    assert ConnOk(cfg, g.dialers, id, g.made[id]);
    assert DialerOk(cfg, g.made, r, g.dialers[r]);
    var k :| 0 <= k < |g.dialers[r].sockets| && g.dialers[r].sockets[k] == id;
  }

  lemma Files(cfg: Config, made: seq<Conn>, accepted: set<nat>, c: nat, a: Acceptor, id: nat)
    requires cfg.Valid() && c < cfg.N() && AcceptorOk(cfg, made, accepted, c, a) && Accepting(c, a)
    requires id < |made| && made[id].name == cfg.names[c] && made[id].dialer < cfg.M && made[id].dialer !in a.remotes
    ensures var r := made[id].dialer;
            var a' := a.(nconnected := a.nconnected + 1, remotes := a.remotes[r := id]);
            AcceptorOk(cfg, made, accepted + {id}, c, if c == 0 && r == 0 then a'.(nexpected := cfg.M) else a')
    ensures c == 0 ==> a.hosts == cfg.names[1..]
  {
    if c == 0 { assert cfg.names[1..1 + (cfg.N() - 1)] == cfg.names[1..]; }
  }

  lemma MoreAccepted(cfg: Config, made: seq<Conn>, accepted: set<nat>, id: nat, c: nat, a: Acceptor)
    requires c < cfg.N() && AcceptorOk(cfg, made, accepted, c, a)
    ensures AcceptorOk(cfg, made, accepted + {id}, c, a)
  {
  }

  lemma KeepAccept(cfg: Config, g: State, c: nat, id: nat)
    requires cfg.Valid() && Inv(cfg, g) && Shape(cfg, g) && CanAccept(cfg, g, c, id)
    ensures Inv(cfg, Accept(cfg, g, c, id))
  {
    hide DialerOk, ConnOk, AcceptorOk, Config.Valid;
    NewRank(cfg, g, c, id);
    var g' := Accept(cfg, g, c, id);
    var r := g.made[id].dialer;
    forall e | 0 <= e < cfg.N() ensures AcceptorOk(cfg, g'.made, g'.accepted, e, g'.acceptors[e]) {
      if e == c { Files(cfg, g.made, g.accepted, c, g.acceptors[c], id); }
      else { MoreAccepted(cfg, g.made, g.accepted, id, e, g.acceptors[e]); }
    }
    if c == 0 { Files(cfg, g.made, g.accepted, c, g.acceptors[c], id); }
    assert RepliesOk(cfg, g'.acceptors[0], g'.replies, g'.bcast);
    forall i | i in g'.accepted ensures TakenOk(cfg, g'.acceptors, g'.made, i) {
      if i == id {
        assert g'.acceptors[c].remotes[r] == id;
      } else {
        assert TakenOk(cfg, g.acceptors, g.made, i);
        StillTaken(cfg, g, c, id, i);
      }
    }
  }

  lemma StillTaken(cfg: Config, g: State, c: nat, id: nat, i: nat)
    requires cfg.Valid() && Inv(cfg, g) && CanAccept(cfg, g, c, id) && g.made[id].dialer !in g.acceptors[c].remotes
    requires TakenOk(cfg, g.acceptors, g.made, i)
    ensures TakenOk(cfg, Accept(cfg, g, c, id).acceptors, g.made, i)
  {
    hide DialerOk, ConnOk, AcceptorOk, RepliesOk;
    var e :| 0 <= e < cfg.N() && g.made[i].name == cfg.names[e]
             && g.made[i].dialer in g.acceptors[e].remotes && g.acceptors[e].remotes[g.made[i].dialer] == i;
    var as' := Accept(cfg, g, c, id).acceptors;
    assert g.made[i].dialer in as'[e].remotes && as'[e].remotes[g.made[i].dialer] == i;
  }

  lemma KeepStep(cfg: Config, g: State, a: Action)
    requires cfg.Valid() && Inv(cfg, g) && Shape(cfg, g) && Enabled(cfg, g, a)
    ensures Inv(cfg, Apply(cfg, g, a))
  {
    match a {
      case ADialRoot(s) =>
        assert DialerOk(cfg, g.made, s, g.dialers[s]);
        hide Inv;
        KeepDial(cfg, g, s, cfg.names[0]);
      case ADialNext(s) =>
        assert DialerOk(cfg, g.made, s, g.dialers[s]);
        hide Inv;
        KeepDial(cfg, g, s, g.dialers[s].hosts.value[|g.dialers[s].sockets| - 1]);
      case AReadHosts(_) | AEnter(_) | ALeave(_) => hide Inv; KeepWaits(cfg, g, a);
      case AAccept(c, id) => hide Inv; KeepAccept(cfg, g, c, id);
      case _ => hide Inv; KeepNames(cfg, g, a);
    }
  }

  lemma {:induction false} RunInv(cfg: Config, gs: seq<State>, acts: seq<Action>, i: nat)
    requires cfg.Valid() && IsRun(cfg, gs, acts) && i <= |acts|
    ensures Inv(cfg, gs[i])
  {
    if i == 0 {
      InitInv(cfg);
    } else {
      RunInv(cfg, gs, acts, i - 1);
      hide Inv, Enabled, Apply, Init;
      KeepStep(cfg, gs[i-1], acts[i-1]);
    }
  }

  lemma ReachableInv(cfg: Config, g: State)
    requires cfg.Valid() && Reachable(cfg, g)
    ensures Inv(cfg, g)
  {
    hide Inv;
    var gs, acts :| IsRun(cfg, gs, acts) && gs[|acts|] == g;
    RunInv(cfg, gs, acts, |acts|);
  }

  // ----- What the handshake builds ---------------------------------------------------------------------

  lemma AllKeys(m: map<nat, nat>, n: nat)
    requires forall r :: r in m ==> r < n
    ensures |m| <= n
    ensures |m| == n <==> forall r: nat :: r < n ==> r in m
  {
    SubsetSize(m.Keys, Interval(0, n));
    assert |m| == |m.Keys|;
    if forall r: nat :: r < n ==> r in m { assert m.Keys == Interval(0, n); }
    if |m| == n {
      forall r: nat | r < n ensures r in m { assert r in Interval(0, n); }
    }
  }

  /** An accept loop ends after exactly M connections, one from each dialer, also on rank 0, where the
      number is not known before dialer 0 comes, maybe last; and then no connection is left over. */
  lemma AcceptsExactlyM(cfg: Config, g: State, c: nat)
    requires cfg.Valid() && Reachable(cfg, g) && Shape(cfg, g) && c < cfg.N()
    ensures var a := g.acceptors[c];
            && a.nconnected == |a.remotes| <= cfg.M
            && (Joined(cfg, g, c) <==> a.nconnected == cfg.M)
            && (Joined(cfg, g, c) <==> forall s: nat :: s < cfg.M ==> s in a.remotes)
            && (Joined(cfg, g, c) ==> forall id :: !Waits(cfg, g, c, id))
  {
    hide Reachable, Inv;
    ReachableInv(cfg, g);
    AcceptorIs(cfg, g, c);
    var a := g.acceptors[c];
    AllKeys(a.remotes, cfg.M);
    if Joined(cfg, g, c) {
      forall id ensures !Waits(cfg, g, c, id) { if Waits(cfg, g, c, id) { NewRank(cfg, g, c, id); } }
    }
  }

  /** Whatever the order of arrival: when dialer s has returned from connect and acceptor c has left its
      loop, socket c of the one and socket s of the other are the two ends of one connection, and the two
      vectors have N and M entries. */
  lemma SocketsMatchRanks(cfg: Config, g: State, s: nat, c: nat)
    requires cfg.Valid() && Reachable(cfg, g) && Shape(cfg, g) && s < cfg.M && c < cfg.N()
    requires Connected(cfg, g, s) && Joined(cfg, g, c)
    ensures forall r :: r in g.acceptors[c].remotes <==> 0 <= r < |g.acceptors[c].remotes|
    ensures var sockets := Sockets(g.acceptors[c].remotes);
            && |sockets| == cfg.M && |g.dialers[s].sockets| == cfg.N()
            && sockets[s] == g.dialers[s].sockets[c]
            && sockets[s] < |g.made| && g.made[sockets[s]] == Conn(s, cfg.names[c])
  {
    hide Reachable, Inv;
    ReachableInv(cfg, g);
    AcceptsExactlyM(cfg, g, c);
    AcceptorIs(cfg, g, c);
    DialerIs(cfg, g, s);
    SlotOf(cfg, g, c, g.acceptors[c].remotes[s]);
  }

  // ----- Rate limit ----------------------------------------------------------------------------------------

  /** Dialers that have connected to acceptor 0 and wait for its list of hosts. */
  function Outstanding(cfg: Config, g: State): set<nat> requires Shape(cfg, g) {
    set s: nat | s < cfg.M && g.dialers[s].sockets != [] && g.dialers[s].hosts.None?
  }

  /** Those that wait are all in the same batch. */
  lemma WaitersTogether(cfg: Config, g: State, s: nat, t: nat)
    requires cfg.Valid() && Inv(cfg, g) && Shape(cfg, g) && s in Outstanding(cfg, g) && t in Outstanding(cfg, g)
    ensures s / 32 == t / 32
  {
    hide Inv;
    DialerIs(cfg, g, s);
    DialerIs(cfg, g, t);
  }

  /** At most 32 of them wait at a time, all from one batch. */
  lemma RateLimited(cfg: Config, g: State)
    requires cfg.Valid() && Reachable(cfg, g) && Shape(cfg, g)
    ensures |Outstanding(cfg, g)| <= 32
    ensures forall s, t :: s in Outstanding(cfg, g) && t in Outstanding(cfg, g) ==> s / 32 == t / 32
  {
    hide Reachable, Inv;
    ReachableInv(cfg, g);
    var waiting := Outstanding(cfg, g);
    hide Outstanding;
    forall s, t | s in waiting && t in waiting ensures s / 32 == t / 32 { WaitersTogether(cfg, g, s, t); }
    if waiting != {} {
      var s: nat :| s in waiting;
      var lo := 32 * (s / 32);
      forall t: nat | t in waiting ensures t in Interval(lo, lo + 32) { assert t / 32 == s / 32; }
      SubsetSize(waiting, Interval(lo, lo + 32));
    }
  }

  /** Each dialer is in exactly one of the batches of 32, and there are as many batches as it takes. */
  lemma OneBatchEach(cfg: Config, s: nat, b: nat)
    requires s < cfg.M
    ensures InBatch(s, b) <==> b == s / 32
    ensures Batch(s) == s / 32 < cfg.Batches()
    ensures 32 * (cfg.Batches() - 1) < cfg.M <= 32 * cfg.Batches()
  {
  }

  // ----- The order of connecting --------------------------------------------------------------------------------

  /** The iteration in which a connection is made: of the loop over acceptor 0's connections, or after those, of the
      loop over the other acceptors. */
  function Iteration(cfg: Config, conn: Conn): nat requires cfg.N() >= 1 {
    conn.dialer / 32 + (if conn.name == cfg.names[0] then 0 else (cfg.M + 31) / 32)
  }

  /** Every connection was made in an iteration that its dialer has begun, and later ones in later iterations. */
  ghost predicate InOrder(cfg: Config, g: State) {
    && Shape(cfg, g)
    && (forall id :: 0 <= id < |g.made| ==>
          g.made[id].dialer < cfg.M && Iteration(cfg, g.made[id]) <= g.dialers[g.made[id].dialer].turn)
    && (forall i, j :: 0 <= i < j < |g.made| ==> Iteration(cfg, g.made[i]) <= Iteration(cfg, g.made[j]))
  }

  lemma DialInOrder(cfg: Config, g: State, s: nat, name: HostName)
    requires cfg.Valid() && InOrder(cfg, g) && s < cfg.M && Iteration(cfg, Conn(s, name)) == g.dialers[s].turn
    requires forall t :: 0 <= t < cfg.M ==> g.dialers[t].turn <= g.dialers[s].turn
    ensures InOrder(cfg, Dial(g, s, name))
  {
    hide Iteration;
    var g' := Dial(g, s, name);
    forall id | 0 <= id < |g'.made| ensures g'.made[id].dialer < cfg.M && Iteration(cfg, g'.made[id]) <= g'.dialers[g'.made[id].dialer].turn {
      if id < |g.made| { assert g'.made[id] == g.made[id]; }
    }
    forall i, j | 0 <= i < j < |g'.made| ensures Iteration(cfg, g'.made[i]) <= Iteration(cfg, g'.made[j]) {
      assert g'.made[i] == g.made[i];
      if j < |g.made| { assert g'.made[j] == g.made[j]; }
    }
  }

  /** The name dialed says which loop the dialer is in. */
  lemma DialsIn(cfg: Config, g: State, s: nat, a: Action)
    requires cfg.Valid() && Inv(cfg, g) && Shape(cfg, g) && Enabled(cfg, g, a) && (a == ADialRoot(s) || a == ADialNext(s))
    ensures s < cfg.M && g.dialers[s].turn < 2 * cfg.Batches() && !g.dialers[s].waiting
    ensures a == ADialRoot(s) ==> Iteration(cfg, Conn(s, cfg.names[0])) == g.dialers[s].turn
    ensures a == ADialNext(s) ==> Iteration(cfg, Conn(s, g.dialers[s].hosts.value[|g.dialers[s].sockets| - 1])) == g.dialers[s].turn
  {
    DialerIs(cfg, g, s);
    if a == ADialNext(s) {
      var k := |g.dialers[s].sockets|;
      assert g.dialers[s].hosts.value[k - 1] == cfg.names[k] != cfg.names[0];
    }
  }

  lemma StepInOrder(cfg: Config, g: State, a: Action)
    requires cfg.Valid() && Inv(cfg, g) && Shape(cfg, g) && Enabled(cfg, g, a) && InOrder(cfg, g)
    ensures InOrder(cfg, Apply(cfg, g, a))
  {
    hide Inv;
    match a {
      case ADialRoot(s) =>
        DialsIn(cfg, g, s, a);
        DialerIs(cfg, g, s);
        forall t | 0 <= t < cfg.M ensures g.dialers[t].turn <= g.dialers[s].turn { DialerIs(cfg, g, t); }
        DialInOrder(cfg, g, s, cfg.names[0]);
      case ADialNext(s) =>
        DialsIn(cfg, g, s, a);
        DialerIs(cfg, g, s);
        forall t | 0 <= t < cfg.M ensures g.dialers[t].turn <= g.dialers[s].turn { DialerIs(cfg, g, t); }
        DialInOrder(cfg, g, s, g.dialers[s].hosts.value[|g.dialers[s].sockets| - 1]);
      case _ => OtherInOrder(cfg, g, a);
    }
  }

  lemma OtherInOrder(cfg: Config, g: State, a: Action)
    requires cfg.Valid() && Shape(cfg, g) && Enabled(cfg, g, a) && InOrder(cfg, g) && !a.ADialRoot? && !a.ADialNext?
    ensures InOrder(cfg, Apply(cfg, g, a))
  {
    hide Iteration;
    var g' := Apply(cfg, g, a);
    assert g'.made == g.made;
    assert forall s :: 0 <= s < cfg.M ==> g.dialers[s].turn <= g'.dialers[s].turn;
  }

  lemma InitInOrder(cfg: Config)
    requires cfg.Valid()
    ensures InOrder(cfg, Init(cfg))
  {
  }

  lemma {:induction false} RunInOrder(cfg: Config, gs: seq<State>, acts: seq<Action>, i: nat)
    requires cfg.Valid() && IsRun(cfg, gs, acts) && i <= |acts|
    ensures InOrder(cfg, gs[i])
  {
    hide Inv, InOrder, Enabled, Apply, Init;
    if i == 0 {
      InitInOrder(cfg);
    } else {
      RunInOrder(cfg, gs, acts, i - 1);
      RunInv(cfg, gs, acts, i - 1);
      StepInOrder(cfg, gs[i-1], acts[i-1]);
    }
  }

  /** Connections are made batch by batch: in the first loop all of dialers 0 to 31, then 32 to 63, and so on, all of them
      before any in the second loop, and there in the same order. */
  lemma BatchesInOrder(cfg: Config, g: State, i: nat, j: nat)
    requires cfg.Valid() && Reachable(cfg, g) && i < j < |g.made|
    ensures var (first, later) := (g.made[i], g.made[j]);
            && ((first.name == cfg.names[0]) == (later.name == cfg.names[0]) ==> first.dialer / 32 <= later.dialer / 32)
            && (later.name == cfg.names[0] ==> first.name == cfg.names[0])
  {
    hide Enabled, Apply, Init;
    var gs, acts :| IsRun(cfg, gs, acts) && gs[|acts|] == g;
    RunInOrder(cfg, gs, acts, |acts|);
  }

  // ----- All ranks take part ----------------------------------------------------------------------------------------

  /** Acceptor 0 has the names of those that have sent theirs, and takes no connection before it has all of them. */
  ghost predicate NamesSent(cfg: Config, g: State) {
    && Shape(cfg, g)
    && |g.acceptors[0].hosts| < cfg.N()
    && (forall c :: 1 <= c <= |g.acceptors[0].hosts| ==> g.acceptors[c].ready)
    && (g.acceptors[0].ready ==> |g.acceptors[0].hosts| == cfg.N() - 1)
    && (g.replies != map[] ==> g.acceptors[0].ready)
    && (forall s :: 0 <= s < cfg.M && g.dialers[s].hosts.Some? ==> g.acceptors[0].ready)
  }

  lemma StepNamesSent(cfg: Config, g: State, a: Action)
    requires cfg.Valid() && Shape(cfg, g) && Enabled(cfg, g, a) && NamesSent(cfg, g)
    ensures NamesSent(cfg, Apply(cfg, g, a))
  {
    match a {
      case AGather => GatherNamesSent(cfg, g);
      case AAccept(c, id) => AcceptNamesSent(cfg, g, c, id);
      case AReadHosts(s) => assert g.dialers[s].sockets[0] in g.replies;
      case _ =>
    }
  }

  lemma GatherNamesSent(cfg: Config, g: State)
    requires Shape(cfg, g) && NamesSent(cfg, g) && CanGather(cfg, g)
    ensures NamesSent(cfg, Gather(cfg, g))
  {
  }

  lemma AcceptNamesSent(cfg: Config, g: State, c: nat, id: nat)
    requires Shape(cfg, g) && NamesSent(cfg, g) && CanAccept(cfg, g, c, id)
    ensures NamesSent(cfg, Accept(cfg, g, c, id))
  {
    var g' := Accept(cfg, g, c, id);
    assert forall d :: 0 <= d < cfg.N() ==> g'.acceptors[d].ready == g.acceptors[d].ready;
    assert g'.acceptors[0].hosts == g.acceptors[0].hosts;
    if c > 0 { assert g'.replies == g.replies; }
  }

  lemma {:induction false} RunNamesSent(cfg: Config, gs: seq<State>, acts: seq<Action>, i: nat)
    requires cfg.Valid() && IsRun(cfg, gs, acts) && i <= |acts|
    ensures NamesSent(cfg, gs[i])
  {
    hide NamesSent, Enabled, Apply, Init;
    if i == 0 {
      InitNamesSent(cfg);
    } else {
      RunNamesSent(cfg, gs, acts, i - 1);
      StepNamesSent(cfg, gs[i-1], acts[i-1]);
    }
  }

  lemma InitNamesSent(cfg: Config)
    requires cfg.Valid()
    ensures NamesSent(cfg, Init(cfg))
  {
  }

  /** A dialer that has got past its first socket knows that every acceptor has called accept: connect returns nowhere
      before that. */
  lemma ConnectNeedsAll(cfg: Config, g: State, s: nat, c: nat)
    requires cfg.Valid() && Reachable(cfg, g) && Shape(cfg, g) && s < cfg.M && c < cfg.N()
    requires g.dialers[s].hosts.Some? || Connected(cfg, g, s)
    ensures g.acceptors[c].ready
  {
    hide Reachable, Inv, NamesSent;
    ReachableInv(cfg, g);
    DialerIs(cfg, g, s);
    ReachableNames(cfg, g);
    AllReady(cfg, g, s, c);
  }

  lemma ReachableNames(cfg: Config, g: State)
    requires cfg.Valid() && Reachable(cfg, g)
    ensures NamesSent(cfg, g)
  {
    hide NamesSent, Enabled, Apply, Init;
    var gs, acts :| IsRun(cfg, gs, acts) && gs[|acts|] == g;
    RunNamesSent(cfg, gs, acts, |acts|);
  }

  lemma AllReady(cfg: Config, g: State, s: nat, c: nat)
    requires NamesSent(cfg, g) && s < cfg.M && g.dialers[s].hosts.Some? && c < cfg.N()
    ensures g.acceptors[c].ready
  {
  }
}
