/** The handshake always completes: somebody can step until everybody is done, and the number of
    steps of a complete handshake does not depend on their order. */
module HandshakeProgress {
  import opened SimStates
  import opened Sums
  import opened Handshake
  import opened HandshakeProofs

  // ----- Work left --------------------------------------------------------------------------------------

  function DialerWork(cfg: Config, d: Dialer): nat {
    (if d.turn < 2 * cfg.Batches() then 2 * (2 * cfg.Batches() - d.turn) - (if d.waiting then 1 else 0) else 0)
    + (if |d.sockets| <= cfg.N() then cfg.N() - |d.sockets| else 0)
    + (if d.hosts.None? then 1 else 0)
  }

  function AcceptorWork(cfg: Config, c: nat, a: Acceptor): nat {
    (if a.nconnected <= cfg.M then cfg.M - a.nconnected else 0)
    + if c == 0 then (if |a.hosts| < cfg.N() then cfg.N() - 1 - |a.hosts| else 0)
      else (if a.ready then 0 else 1) + (if a.nexpected == -1 then 1 else 0)
  }

  function DialersWork(cfg: Config, g: State): seq<nat> {
    seq(|g.dialers|, s requires 0 <= s < |g.dialers| => DialerWork(cfg, g.dialers[s]))
  }

  function AcceptorsWork(cfg: Config, g: State): seq<nat> {
    seq(|g.acceptors|, c requires 0 <= c < |g.acceptors| => AcceptorWork(cfg, c, g.acceptors[c]))
  }

  function Work(cfg: Config, g: State): nat {
    Sum(DialersWork(cfg, g)) + Sum(AcceptorsWork(cfg, g))
  }

  lemma DialerWorks(cfg: Config, g: State, g': State, s: nat)
    requires Shape(cfg, g) && s < cfg.M && Shape(cfg, g') && g'.acceptors == g.acceptors && g'.dialers == g.dialers[s := g'.dialers[s]]
    requires DialerWork(cfg, g'.dialers[s]) + 1 == DialerWork(cfg, g.dialers[s])
    ensures Work(cfg, g') + 1 == Work(cfg, g)
  {
    hide DialerWork, AcceptorWork;
    SumUpdate(DialersWork(cfg, g), s, DialerWork(cfg, g'.dialers[s]));
    assert DialersWork(cfg, g') == DialersWork(cfg, g)[s := DialerWork(cfg, g'.dialers[s])];
  }

  lemma AcceptorWorks(cfg: Config, g: State, g': State, c: nat)
    requires Shape(cfg, g) && c < cfg.N() && Shape(cfg, g') && g'.dialers == g.dialers && g'.acceptors == g.acceptors[c := g'.acceptors[c]]
    requires AcceptorWork(cfg, c, g'.acceptors[c]) + 1 == AcceptorWork(cfg, c, g.acceptors[c])
    ensures Work(cfg, g') + 1 == Work(cfg, g)
  {
    hide DialerWork, AcceptorWork;
    SumUpdate(AcceptorsWork(cfg, g), c, AcceptorWork(cfg, c, g'.acceptors[c]));
    assert AcceptorsWork(cfg, g') == AcceptorsWork(cfg, g)[c := AcceptorWork(cfg, c, g'.acceptors[c])];
  }

  lemma DialerStepWorks(cfg: Config, g: State, a: Action)
    requires cfg.Valid() && Inv(cfg, g) && Shape(cfg, g) && Enabled(cfg, g, a)
    requires a.ADialRoot? || a.AReadHosts? || a.ADialNext? || a.AEnter? || a.ALeave?
    ensures Work(cfg, Apply(cfg, g, a)) + 1 == Work(cfg, g)
  {
    hide Inv, InBatch, Config.Batches, Work;
    var s := a.s;
    DialerIs(cfg, g, s);
    DialerWorks(cfg, g, Apply(cfg, g, a), s);
  }

  lemma AcceptorStepWorks(cfg: Config, g: State, a: Action)
    requires cfg.Valid() && Inv(cfg, g) && Shape(cfg, g) && Enabled(cfg, g, a)
    requires a.ASendName? || a.AGather? || a.AReadExpected? || a.AAccept?
    ensures Work(cfg, Apply(cfg, g, a)) + 1 == Work(cfg, g)
  {
    hide Inv, Work;
    var c := if a.AGather? then 0 else a.c;
    AcceptorIs(cfg, g, c);
    if a.AAccept? {
      NewRank(cfg, g, c, a.id);
      AllKeys(g.acceptors[c].remotes, cfg.M);
    }
    AcceptorWorks(cfg, g, Apply(cfg, g, a), c);
  }

  /** Every step takes exactly one unit of work. */
  lemma {:induction false} RunWork(cfg: Config, gs: seq<State>, acts: seq<Action>, i: nat)
    requires cfg.Valid() && IsRun(cfg, gs, acts) && i <= |acts|
    ensures i + Work(cfg, gs[i]) == Work(cfg, Init(cfg))
  {
    hide Inv, Enabled, Apply, Init, Work;
    if i > 0 {
      RunWork(cfg, gs, acts, i - 1);
      RunInv(cfg, gs, acts, i - 1);
      var a := acts[i-1];
      if a.ADialRoot? || a.AReadHosts? || a.ADialNext? || a.AEnter? || a.ALeave? { DialerStepWorks(cfg, gs[i-1], a); }
      else { AcceptorStepWorks(cfg, gs[i-1], a); }
    }
  }

  lemma DialersDone(cfg: Config, g: State, s: nat)
    requires Inv(cfg, g) && Shape(cfg, g) && s < cfg.M
    ensures DialerWork(cfg, g.dialers[s]) == 0 <==> Connected(cfg, g, s)
  {
    hide Inv;
    DialerIs(cfg, g, s);
    OneBatchEach(cfg, s, 0);
  }

  lemma AcceptorsDone(cfg: Config, g: State, c: nat)
    requires cfg.Valid() && Inv(cfg, g) && Shape(cfg, g) && c < cfg.N()
    ensures AcceptorWork(cfg, c, g.acceptors[c]) == 0 <==> Joined(cfg, g, c)
  {
    hide Inv;
    AcceptorIs(cfg, g, c);
    AllKeys(g.acceptors[c].remotes, cfg.M);
  }

  /** Done is the same as no work left. */
  lemma DoneIsNoWork(cfg: Config, g: State)
    requires cfg.Valid() && Inv(cfg, g) && Shape(cfg, g)
    ensures AllDone(cfg, g) <==> Work(cfg, g) == 0
  {
    hide Inv, DialerWork, AcceptorWork, Connected, Joined;
    SumZero(DialersWork(cfg, g));
    SumZero(AcceptorsWork(cfg, g));
    forall s: nat | s < cfg.M ensures DialersWork(cfg, g)[s] == 0 <==> Connected(cfg, g, s) { DialersDone(cfg, g, s); }
    forall c: nat | c < cfg.N() ensures AcceptorsWork(cfg, g)[c] == 0 <==> Joined(cfg, g, c) { AcceptorsDone(cfg, g, c); }
  }

  /** Every order of steps is equally long: a run is complete exactly when it has as many steps as there
      was work to begin with, and no run has more. */
  lemma CompleteRuns(cfg: Config, gs: seq<State>, acts: seq<Action>)
    requires cfg.Valid() && IsRun(cfg, gs, acts)
    ensures |acts| <= Work(cfg, Init(cfg))
    ensures Shape(cfg, gs[|acts|])
    ensures AllDone(cfg, gs[|acts|]) <==> |acts| == Work(cfg, Init(cfg))
  {
    hide Inv, Enabled, Apply, Init, Work, AllDone;
    RunWork(cfg, gs, acts, |acts|);
    RunInv(cfg, gs, acts, |acts|);
    ShapeIs(cfg, gs[|acts|]);
    DoneIsNoWork(cfg, gs[|acts|]);
  }

  lemma ShapeIs(cfg: Config, g: State)
    requires Inv(cfg, g)
    ensures Shape(cfg, g)
  {
  }

  // ----- Somebody can always step ------------------------------------------------------------------------

  /** A dialer that has entered no more barriers than any other. */
  lemma {:induction false} Earliest(cfg: Config, g: State, n: nat) returns (s: nat)
    requires Shape(cfg, g) && 1 <= n <= cfg.M
    ensures s < n && forall t :: 0 <= t < n ==> Arrived(g.dialers[s]) <= Arrived(g.dialers[t])
  {
    if n == 1 {
      s := 0;
    } else {
      s := Earliest(cfg, g, n - 1);
      if Arrived(g.dialers[n-1]) < Arrived(g.dialers[s]) { s := n - 1; }
    }
  }

  /** A connection that acceptor c has not taken waits at its socket. */
  lemma NotTakenWaits(cfg: Config, g: State, s: nat, c: nat)
    requires cfg.Valid() && Inv(cfg, g) && Shape(cfg, g) && s < cfg.M && c < |g.dialers[s].sockets|
    ensures c < cfg.N()
    ensures s !in g.acceptors[c].remotes ==> Waits(cfg, g, c, g.dialers[s].sockets[c])
    ensures s in g.acceptors[c].remotes ==> g.acceptors[c].remotes[s] == g.dialers[s].sockets[c]
  {
    hide AcceptorOk, RepliesOk, ConnOk;
    var id := g.dialers[s].sockets[c];
    assert DialerOk(cfg, g.made, s, g.dialers[s]);
    if id in g.accepted { assert TakenOk(cfg, g.acceptors, g.made, id); }
    if s in g.acceptors[c].remotes {
      AcceptorIs(cfg, g, c);
      SlotIs(cfg, g, s, c);
    }
  }

  lemma SlotIs(cfg: Config, g: State, s: nat, c: nat)
    requires cfg.Valid() && Inv(cfg, g) && Shape(cfg, g) && s < cfg.M && c < cfg.N() && s in g.acceptors[c].remotes
    ensures c < |g.dialers[s].sockets| && g.dialers[s].sockets[c] == g.acceptors[c].remotes[s]
  {
    hide Inv;
    AcceptorIs(cfg, g, c);
    SlotOf(cfg, g, c, g.acceptors[c].remotes[s]);
  }

  lemma RootReplied(cfg: Config, g: State, s: nat)
    requires cfg.Valid() && Inv(cfg, g) && Shape(cfg, g) && s in g.acceptors[0].remotes
    ensures g.acceptors[0].remotes[s] in g.replies
  {
    hide AcceptorOk, DialerOk, TakenOk, ConnOk;
  }

  /** While an acceptor's loop lacks a dialer, the loop is still running. */
  lemma LackingAccepts(cfg: Config, g: State, c: nat, s: nat)
    requires cfg.Valid() && Inv(cfg, g) && Shape(cfg, g) && c < cfg.N() && s < cfg.M && s !in g.acceptors[c].remotes
    requires g.acceptors[c].ready && (c > 0 ==> g.acceptors[c].nexpected != -1)
    ensures Accepting(c, g.acceptors[c])
  {
    hide Inv;
    AcceptorIs(cfg, g, c);
    AllKeys(g.acceptors[c].remotes, cfg.M);
  }

  /** Dialer s, in its loops, takes its next step or waits for acceptor 0 to take its connection. */
  lemma DialerSteps(cfg: Config, g: State, s: nat) returns (a: Action)
    requires cfg.Valid() && Inv(cfg, g) && Shape(cfg, g) && Running(cfg, g, s) && g.acceptors[0].ready
    ensures Enabled(cfg, g, a)
  {
    hide Inv;
    var d := g.dialers[s];
    DialerIs(cfg, g, s);
    OneBatchEach(cfg, s, if d.turn < cfg.Batches() then d.turn else d.turn - cfg.Batches());
    if IterationDone(cfg, s, d) {
      a := AEnter(s);
    } else if d.turn >= cfg.Batches() {
      a := ADialNext(s);
    } else if d.sockets == [] {
      a := ADialRoot(s);
    } else {
      NotTakenWaits(cfg, g, s, 0);
      if s in g.acceptors[0].remotes {
        RootReplied(cfg, g, s);
        a := AReadHosts(s);
      } else {
        LackingAccepts(cfg, g, 0, s);
        a := AAccept(0, d.sockets[0]);
      }
    }
  }

  /** When all dialers have returned, every connection is waiting or accepted. */
  lemma AcceptorSteps(cfg: Config, g: State, c: nat) returns (a: Action)
    requires cfg.Valid() && Inv(cfg, g) && Shape(cfg, g) && c < cfg.N() && !Joined(cfg, g, c)
    requires forall s :: 0 <= s < cfg.M ==> Connected(cfg, g, s)
    requires g.acceptors[c].ready && (c > 0 ==> g.acceptors[c].nexpected != -1)
    ensures Enabled(cfg, g, a)
  {
    hide Inv;
    AcceptorIs(cfg, g, c);
    AllKeys(g.acceptors[c].remotes, cfg.M);
    var s: nat :| s < cfg.M && s !in g.acceptors[c].remotes;
    DialerIs(cfg, g, s);
    OneBatchEach(cfg, s, 0);
    assert Connected(cfg, g, s);
    NotTakenWaits(cfg, g, s, c);
    LackingAccepts(cfg, g, c, s);
    a := AAccept(c, g.dialers[s].sockets[c]);
  }

  /** Until everybody is done, somebody can step: connect and accept never deadlock. */
  lemma HandshakeSteps(cfg: Config, g: State) returns (a: Action)
    requires cfg.Valid() && Reachable(cfg, g) && Shape(cfg, g) && !AllDone(cfg, g)
    ensures Enabled(cfg, g, a)
  {
    hide Inv, Reachable;
    ReachableInv(cfg, g);
    AcceptorIs(cfg, g, 0);
    if c: nat :| 0 < c < cfg.N() && !g.acceptors[c].ready {
      a := ASendName(c);
    } else if !g.acceptors[0].ready {
      a := AGather;
    } else {
      var s := Earliest(cfg, g, cfg.M);
      DialerIs(cfg, g, s);
      if g.dialers[s].waiting {
        a := ALeave(s);
      } else if !Connected(cfg, g, s) {
        a := DialerSteps(cfg, g, s);
      } else if t: nat :| t < cfg.M && !Connected(cfg, g, t) {
        DialerIs(cfg, g, t);
        a := ALeave(t);
      } else if !Joined(cfg, g, 0) {
        a := AcceptorSteps(cfg, g, 0);
      } else {
        var c: nat :| c < cfg.N() && !Joined(cfg, g, c);
        AcceptorIs(cfg, g, c);
        if g.acceptors[c].nexpected == -1 {
          a := AReadExpected(c);
        } else {
          a := AcceptorSteps(cfg, g, c);
        }
      }
    }
  }
}
