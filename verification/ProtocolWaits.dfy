/** Nobody waits in vain: where every rank stands when nothing can happen any more, except perhaps process
    calls that find no command. */
module ProtocolWaits {
  import opened SimStates
  import opened Protocol
  import opened ProtocolInvariant
  import opened ProtocolSafety
  import opened ProtocolCommands
  import opened ProtocolFollowers
  import opened ProtocolSteps
  import opened ProtocolClientSteps
  import opened ProtocolTheorems
  import opened ProtocolLinks

  ghost predicate Stuck(cfg: Config, g: State)
    requires cfg.Valid() && Shape(cfg, g)
  {
    forall a :: !Enabled(cfg, g, a)
  }

  /** Nothing can happen but a process call that finds no command, or the end of the calls; and if there
      are commands to come there are calls to come. */
  ghost predicate Quiet(cfg: Config, g: State)
    requires cfg.Valid() && Shape(cfg, g) && cfg.M >= 1
  {
    && (forall a :: a == ARootIdle || a == AStop || !Enabled(cfg, g, a))
    && (g.sims[0].pc.Ready? && g.sims[0].ops < |cfg.script| ==> g.sims[0].calls < |cfg.steps|)
  }

  // ----- The simulation side of a stuck state --------------------------------------------------------

  /** Sim rank 0 is done, or waits for a link, for a ping, or for the connected client's next command, or is
      between calls with nothing to do. */
  lemma QuietRoot(cfg: Config, g: State)
    requires cfg.Valid() && Inv(cfg, g) && Shape(cfg, g) && Quiet(cfg, g)
    ensures var r := g.sims[0];
            || r.pc.Done?
            || (r.pc.Connecting? && !LinkUp(cfg, g, r.clientPort))
            || (r.pc.ProbeAll? && forall c :: 0 <= c < cfg.N ==> Get(g.up, 0, c) == [])
            || (r.pc.Finalizing? && !g.newQuery && r.intercomm.Some? && Get(g.up, 0, 0) == [])
            || (r.pc.Ready? && !CanRecord(cfg, g)
                && (r.calls < |cfg.steps| ==> !g.newQuery && (r.intercomm.Some? ==> Get(g.up, 0, 0) == [])))
  {
    hide Inv, Config.Valid, LinkUp, HistOk, CmdOk, ClientOk, Session, FramesAt, CanRecord;
    InvDesk(cfg, g);
    QuietPolls(cfg, g, 0);
    if g.sims[0].pc.Ready? || g.sims[0].pc.Finalizing? {
      QuietDesk(cfg, g);
    } else {
      assert !Enabled(cfg, g, AConnected(0)) && !Enabled(cfg, g, ASend(0));
    }
  }

  /** A rank that polls for a ping has nothing to read from any client. */
  lemma QuietPolls(cfg: Config, g: State, s: nat)
    requires cfg.Valid() && Shape(cfg, g) && Quiet(cfg, g) && s < cfg.M
    ensures g.sims[s].pc.ProbeAll? ==> forall c :: 0 <= c < cfg.N ==> Get(g.up, s, c) == []
  {
    forall c: nat | c < cfg.N && g.sims[s].pc.ProbeAll? ensures Get(g.up, s, c) == [] {
      assert !Enabled(cfg, g, ATakePing(s, c));
    }
  }

  lemma QuietDesk(cfg: Config, g: State)
    requires cfg.Valid() && Shape(cfg, g) && Quiet(cfg, g)
    requires g.sims[0].pc.Ready? || g.sims[0].pc.Finalizing?
    ensures g.sims[0].pc.Finalizing? ==> !g.newQuery && g.sims[0].intercomm.Some? && Get(g.up, 0, 0) == []
    ensures g.sims[0].pc.Ready? ==>
              && !CanRecord(cfg, g)
              && (g.sims[0].calls < |cfg.steps| ==> !g.newQuery && (g.sims[0].intercomm.Some? ==> Get(g.up, 0, 0) == []))
  {
    hide CanRecord;
    if g.sims[0].pc.Finalizing? {
      assert !Enabled(cfg, g, AFinNone) && !Enabled(cfg, g, AFinConnect) && !Enabled(cfg, g, AFinCommand);
    } else {
      assert !Enabled(cfg, g, ARecord) && !Enabled(cfg, g, ARootConnect) && !Enabled(cfg, g, ARootCommand);
    }
  }

  /** Another rank has executed what rank 0 has, or is still in its last command there. */
  lemma QuietFollower(cfg: Config, g: State, s: nat)
    requires cfg.Valid() && Inv(cfg, g) && Shape(cfg, g) && Quiet(cfg, g) && 0 < s < cfg.M
    ensures var r := g.sims[s];
            || (r.pc.Ready? && r.calls == |g.hist| && r.ops == g.sims[0].ops)
            || (r.pc.Done? && r.ops == g.sims[0].ops && |g.hist| == |cfg.steps| + 1)
            || (r.pc.Connecting? && 1 <= r.ops <= g.sims[0].ops && cfg.script[r.ops-1] == CONNECT && r.clientPort == r.ops - 1
                && !LinkUp(cfg, g, r.ops - 1))
            || (r.pc.ProbeAll? && 1 <= r.ops <= g.sims[0].ops && cfg.script[r.ops-1] == QUERY
                && forall c :: 0 <= c < cfg.N ==> Get(g.up, s, c) == [])
  {
    hide Inv, Config.Valid, LinkUp, ReplayOk, CmdOk, ClientOk, Session, FramesAt, Stream;
    InvDesk(cfg, g);
    InvReplay(cfg, g, s);
    QuietPolls(cfg, g, s);
    var r := g.sims[s];
    QuietReplay(cfg, g.hist, g.taken, g.vsent, g.sims[0], s, r, g.bq[s]);
    assert !Enabled(cfg, g, AHave(s)) && !Enabled(cfg, g, ACommand(s)) && !Enabled(cfg, g, APort(s));
    assert !Enabled(cfg, g, AFollowFin(s)) && !Enabled(cfg, g, AConnected(s)) && !Enabled(cfg, g, ASend(s));
  }

  lemma QuietReplay(cfg: Config, hist: seq<Event>, taken: seq<nat>, vsent: seq<int>, root: SimRank,
                    s: nat, sim: SimRank, q: seq<BMsg>)
    requires cfg.Valid() && 0 < s < cfg.M && ReplayOk(cfg, hist, taken, s, sim, q) && HistOk(cfg, hist, taken, vsent, root)
    requires root.calls <= |cfg.steps|
    ensures sim.calls <= |cfg.steps| && sim.pc != SimPc.Failed && sim.pc != Finalizing
    ensures sim.pc.Sending? ==> sim.calls < |cfg.steps| && sim.pc.sent < |FramesAt(cfg, sim.calls, s)|
    ensures sim.pc.Ready? && q == [] ==> sim.calls == |hist| && sim.ops == root.ops
    ensures sim.pc.AwaitCommand? || sim.pc.AwaitPort? ==> q != []
    ensures sim.pc.Done? ==> sim.ops == root.ops && |hist| == |cfg.steps| + 1
    ensures sim.pc.Connecting? || sim.pc.ProbeAll? ==> 1 <= sim.ops <= root.ops && sim.ops <= |cfg.script|
    ensures sim.pc.Connecting? ==> cfg.script[sim.ops-1] == CONNECT && sim.clientPort == sim.ops - 1
    ensures sim.pc.ProbeAll? ==> cfg.script[sim.ops-1] == QUERY
  {
    hide Stream, FramesAt;
    StreamHead(cfg, hist, sim.calls);
    if sim.calls < |hist| {
      assert EventOk(cfg, hist, taken, sim.calls);
      OpsGrow(cfg, hist, taken, sim.calls + 1, |hist|);
      assert OpsAt(hist, sim.calls + 1) == AfterOps(hist[sim.calls]);
    }
  }

  // ----- The clients of a stuck state -------------------------------------------------------------------

  /** No client is behind rank 0: whatever it waits for, rank 0 has already provided. */
  lemma Behindhand(cfg: Config, hist: seq<Event>, d: nat, cl0: ClientRank, cl: ClientRank)
    requires cfg.Valid() && d < cfg.N && ClientOk(cfg, 0, cl0) && ClientOk(cfg, d, cl) && QuitOk(cfg, hist, cl0) && QuitOk(cfg, hist, cl)
    requires cl.op < cl0.op && d != 0
    ensures cl.op < |cfg.script|
    ensures cl.pc.InBarrier? || cl.pc.InEndBarrier? ==> cl.arrived <= Left(cl0)
    ensures cl.pc.AwaitBcast? || cl.pc.AwaitConnectBcast? ==> cl.nb < cl0.nb
    ensures cl.pc.Accepting? ==> cfg.script[cl.op] == CONNECT && Past(cl0, cl.op)
    ensures !cl.pc.Closed? && !cl.pc.AwaitVerdict? && !cl.pc.AwaitConnectVerdict? && !cl.pc.Failed?
  {
    BarsMonotone(cfg.script, cl.op, cl0.op);
    BcsMonotone(cfg.script, cl.op, cl0.op);
    ClosedOnQuit(cfg, hist, cl);
    hide Bars, Bcs, Ver;
  }

  lemma Barriers(cfg: Config, g: State, c: nat)
    requires cfg.Valid() && Inv(cfg, g) && Shape(cfg, g) && c < cfg.N
    ensures forall d :: 0 <= d < cfg.N ==> Left(g.clients[c]) <= g.clients[d].arrived
  {
    hide HistOk, FollowOk, VerdictAt, CmdOk, ResultOk, SimOk, QuitOk, OwnLink, ClientOk, Left;
  }

  lemma Connectable(cfg: Config, g: State, q: nat)
    requires cfg.Valid() && Shape(cfg, g) && cfg.M >= 1 && Linked(cfg, g) && q < |cfg.script| && cfg.script[q] == CONNECT
    requires Comp(g.sims[0]) > q || exists c :: 0 <= c < cfg.N && Past(g.clients[c], q)
    ensures LinkUp(cfg, g, q)
  {
    hide LinkUp, Past, Comp;
    assert LinkedAt(cfg, g, q);
  }

  /** Client rank d can take its next step, without waiting for a message. */
  predicate Moves(cfg: Config, g: State, d: nat)
    requires Shape(cfg, g) && |cfg.lo| == cfg.N + 1
  {
    || CanStart(cfg, g, d) || CanLeave(cfg, g, d) || CanReadBcast(cfg, g, d) || CanAccept(cfg, g, d)
    || CanConnectBcast(cfg, g, d) || CanReturn(cfg, g, d) || CanPingSim(cfg, g, d) || CanEndLoop(cfg, g, d)
  }

  lemma QuietClient(cfg: Config, g: State, d: nat)
    requires cfg.Valid() && Shape(cfg, g) && Quiet(cfg, g)
    ensures |cfg.lo| == cfg.N + 1 && !Moves(cfg, g, d)
  {
    hide CanStart, CanLeave, CanReadBcast, CanAccept, CanConnectBcast, CanReturn, CanPingSim, CanEndLoop, WellFormed, Shape;
    assert !CanStart(cfg, g, d) by { assert !Enabled(cfg, g, AStart(d)); }
    assert !CanLeave(cfg, g, d) by { assert !Enabled(cfg, g, ALeave(d)); }
    assert !CanReadBcast(cfg, g, d) by { assert !Enabled(cfg, g, AReadBcast(d)); }
    assert !CanAccept(cfg, g, d) by { assert !Enabled(cfg, g, AAccept(d)); }
    assert !CanConnectBcast(cfg, g, d) by { assert !Enabled(cfg, g, AConnectBcast(d)); }
    assert !CanReturn(cfg, g, d) by { assert !Enabled(cfg, g, AReturn(d)); }
    assert !CanPingSim(cfg, g, d) by { assert !Enabled(cfg, g, APing(d)); }
    assert !CanEndLoop(cfg, g, d) by { assert !Enabled(cfg, g, AEndLoop(d)); }
  }

  lemma LaggardMoves(cfg: Config, g: State, d: nat)
    requires cfg.Valid() && Inv(cfg, g) && Shape(cfg, g) && cfg.M >= 1 && Linked(cfg, g) && d < cfg.N
    requires g.clients[d].op < g.clients[0].op && |cfg.lo| == cfg.N + 1
    ensures Moves(cfg, g, d)
  {
    hide Inv, Config.Valid, LinkUp, ClientOk, QuitOk, Linked, FramesAt;
    OwnerZero(cfg);
    QuitOf(cfg, g, d);
    QuitOf(cfg, g, 0);
    var cl0, cl := g.clients[0], g.clients[d];
    Behindhand(cfg, g.hist, d, cl0, cl);
    Barriers(cfg, g, 0);
    if cl.pc.Accepting? { Connectable(cfg, g, cl.op); }
    if cl.pc.Loop? || cl.pc.AwaitFrames? { LoopMeansQueryRuns(cfg, g, d); }
  }

  ghost predicate NoLag(cfg: Config, g: State) requires Shape(cfg, g) && cfg.N >= 1 {
    forall d :: 0 <= d < cfg.N ==> g.clients[d].op >= g.clients[0].op
  }

  lemma QuietNoLag(cfg: Config, g: State)
    requires cfg.Valid() && Inv(cfg, g) && Shape(cfg, g) && cfg.M >= 1 && cfg.N >= 1 && Linked(cfg, g) && Quiet(cfg, g)
    ensures NoLag(cfg, g)
  {
    hide Inv, Config.Valid, Linked, Moves, Quiet;
    OwnerZero(cfg);
    forall d | 0 <= d < cfg.N ensures g.clients[d].op >= g.clients[0].op {
      QuietClient(cfg, g, d);
      if g.clients[d].op < g.clients[0].op { LaggardMoves(cfg, g, d); }
    }
  }

  /** A client ahead of rank 0 is one command ahead, and rank 0 only has to leave query's last barrier. */
  lemma Ahead(cfg: Config, hist: seq<Event>, d: nat, cl0: ClientRank, cl: ClientRank)
    requires cfg.Valid() && d < cfg.N && ClientOk(cfg, 0, cl0) && ClientOk(cfg, d, cl) && QuitOk(cfg, hist, cl0) && QuitOk(cfg, hist, cl)
    requires cl.op > cl0.op && Left(cl) <= cl0.arrived && cl.nb <= cl0.nb
    ensures cl0.pc.InEndBarrier? && cl.arrived >= cl0.arrived
  {
    BarsMonotone(cfg.script, cl0.op, cl.op);
    BcsMonotone(cfg.script, cl0.op, cl.op);
    ClosedOnQuit(cfg, hist, cl0);
    hide Bars, Bcs, Ver;
  }

  /** Whoever has entered fewer barriers than a rank in command p is about to start p. */
  lemma NotEntered(cfg: Config, p: nat, e: nat, cl: ClientRank)
    requires cfg.Valid() && e < cfg.N && ClientOk(cfg, e, cl) && cl.op >= p && p < |cfg.script|
    requires cl.arrived < Bars(cfg.script, p) + 1
    ensures cl.op == p && (cl.pc.Start? || (e == 0 && cl.pc.AwaitVerdict?))
  {
    if cl.op > p { BarsMonotone(cfg.script, p, cl.op); }
    hide Bars, Bcs;
  }

  ghost predicate SomeoneMoves(cfg: Config, g: State)
    requires Shape(cfg, g) && |cfg.lo| == cfg.N + 1
  {
    exists d :: 0 <= d < cfg.N && Moves(cfg, g, d)
  }

  lemma BarrierFills(cfg: Config, g: State, d: nat)
    requires cfg.Valid() && Inv(cfg, g) && Shape(cfg, g) && |cfg.lo| == cfg.N + 1 && cfg.N >= 1 && d < cfg.N && NoLag(cfg, g)
    requires g.clients[d].pc.InBarrier? && g.clients[d].op == g.clients[0].op
    requires !g.clients[0].pc.Start? && !g.clients[0].pc.AwaitVerdict?
    ensures SomeoneMoves(cfg, g)
  {
    hide Inv, Config.Valid, ClientOk, QuitOk, ResultOk, CanReadBcast, CanAccept, CanConnectBcast, CanReturn, CanPingSim, CanEndLoop;
    var p := g.clients[d].op;
    QuitOf(cfg, g, d);
    InBarrierAt(cfg, d, g.clients[d]);
    if AllArrived(cfg, g, d) {
      assert Moves(cfg, g, d);
    } else {
      var e: nat :| e < cfg.N && g.clients[e].arrived < g.clients[d].arrived;
      QuitOf(cfg, g, e);
      NotEntered(cfg, p, e, g.clients[e]);
      assert Moves(cfg, g, e);
    }
  }

  lemma InBarrierAt(cfg: Config, d: nat, cl: ClientRank)
    requires cfg.Valid() && d < cfg.N && ClientOk(cfg, d, cl)
    ensures cl.pc.InBarrier? ==> cl.op < |cfg.script| && cl.arrived == Bars(cfg.script, cl.op) + 1
    ensures cl.pc.InEndBarrier? ==> cl.op < |cfg.script| && cl.arrived == Bars(cfg.script, cl.op) + 2
    ensures cl.pc.Start? ==> cl.arrived == Bars(cfg.script, cl.op)
    ensures cl.pc.AwaitBcast? ==> d != 0 && cl.op < |cfg.script| && cl.nb == Bcs(cfg.script, cl.op) && Left(cl) == Bars(cfg.script, cl.op) + 1
    ensures !cl.pc.Start? ==> cl.op < |cfg.script|
  {
  }

  predicate PastEntry(pc: ClientPc) { !pc.Start? && !pc.AwaitVerdict? && !pc.InBarrier? }

  /** A client in the same command as rank 0, which is past that command's first broadcast. */
  lemma BesideZero(cfg: Config, g: State, d: nat)
    requires cfg.Valid() && Inv(cfg, g) && Shape(cfg, g) && |cfg.lo| == cfg.N + 1 && cfg.M >= 1 && cfg.N >= 1 && 0 < d < cfg.N
    requires NoLag(cfg, g) && Linked(cfg, g) && g.clients[d].op == g.clients[0].op && PastEntry(g.clients[0].pc)
    ensures var cl := g.clients[d];
            || SomeoneMoves(cfg, g)
            || (cl.pc.Accepting? && !Past(g.clients[0], cl.op))
            || (cl.pc.AwaitConnectBcast? && !g.clients[0].pc.Closed?)
            || cl.pc.AwaitFrames? || cl.pc.InEndBarrier? || cl.pc.Closed?
  {
    hide Inv, Config.Valid, ClientOk, QuitOk, ResultOk, LinkUp, Linked;
    var cl0, cl := g.clients[0], g.clients[d];
    QuitOf(cfg, g, d);
    QuitOf(cfg, g, 0);
    Overtaken(cfg, d, cl0, cl);
    if cl.pc.InBarrier? { BarrierFills(cfg, g, d); }
    if cl.pc.Accepting? && Past(cl0, cl.op) { Connectable(cfg, g, cl.op); }
    assert SomeoneMoves(cfg, g) || !Moves(cfg, g, d);
  }

  lemma Overtaken(cfg: Config, d: nat, cl0: ClientRank, cl: ClientRank)
    requires cfg.Valid() && 0 < d < cfg.N && ClientOk(cfg, 0, cl0) && ClientOk(cfg, d, cl) && cl.op == cl0.op && PastEntry(cl0.pc)
    ensures cl.op < |cfg.script|
    ensures cl.pc.AwaitBcast? || (cl.pc.AwaitConnectBcast? && cl0.pc.Closed?) ==> cl.nb < cl0.nb
    ensures cl.pc.Accepting? ==> cfg.script[cl.op] == CONNECT
    ensures !cl.pc.AwaitVerdict? && !cl.pc.AwaitConnectVerdict? && !cl.pc.Failed?
    ensures cl.pc.Loop? ==> Target(cfg, cl, d) <= cfg.lo[d+1]
  {
  }

  // ----- The other simulation ranks have caught up -----------------------------------------------------------

  lemma QuietCaughtUp(cfg: Config, g: State, s: nat)
    requires cfg.Valid() && Inv(cfg, g) && Shape(cfg, g) && cfg.M >= 1 && cfg.N >= 1 && Linked(cfg, g) && Quiet(cfg, g)
    requires NoLag(cfg, g) && 0 < s < cfg.M
    ensures var r := g.sims[s];
            var root := g.sims[0];
            || (r.pc.Ready? && r.calls == |g.hist| && r.ops == root.ops)
            || (r.pc.Done? && r.ops == root.ops && |g.hist| == |cfg.steps| + 1)
            || (r.pc.Connecting? && Busy(root.pc) && r.ops == root.ops > g.clients[0].op)
            || (r.pc.ProbeAll? && g.clients[0].op < r.ops <= root.ops && r.ops <= |cfg.script| && cfg.script[r.ops-1] == QUERY)
  {
    hide Inv, Config.Valid, LinkUp, Linked, Quiet, Link, Session;
    QuietFollower(cfg, g, s);
    InvDesk(cfg, g);
    RootOps(cfg, g);
    var r := g.sims[s];
    if r.pc.Connecting? {
      if Comp(g.sims[0]) > r.ops - 1 || Past(g.clients[0], r.ops - 1) { Connectable(cfg, g, r.ops - 1); }
    }
    if r.pc.ProbeAll? && r.ops <= g.clients[0].op { StillOwes(cfg, g, s); }
  }

  /** A sim still in a query that its client has left: impossible. */
  lemma StillOwes(cfg: Config, g: State, s: nat)
    requires cfg.Valid() && Inv(cfg, g) && Shape(cfg, g) && s < cfg.M
    requires g.sims[s].pc.ProbeAll? && 1 <= g.sims[s].ops <= |cfg.script| && cfg.script[g.sims[s].ops-1] == QUERY
    ensures g.clients[Owner(cfg, s)].op < g.sims[s].ops
  {
    hide QuitOk, FollowOk, SimOk, HistOk, ClientOk, VerdictAt, CmdOk, ResultOk, FramesAt, Bcs, Bars, Session;
    assert OwnLink(cfg, g, s);
  }

  // ----- Client rank 0 never waits in vain --------------------------------------------------------------------

  lemma TalkWaits(cfg: Config, taken: seq<nat>, s: nat, sim: SimRank, cl: ClientRank, upq: seq<Msg>, downq: seq<Msg>)
    requires cfg.Valid() && s < cfg.M && Link(cfg, taken, s, sim, cl, upq, downq)
    requires Talking(cl, s - cfg.lo[Owner(cfg, s)]) && downq == []
    ensures sim.pc.Sending? || (upq != [] && Fresh(sim, cl.op))
  {
    hide FramesAt;
    var fs := FramesAt(cfg, taken[cl.op], s);
    if |cl.got| < |fs| { assert |Wrap(fs[|cl.got|..])| > 0; }
  }

  /** Whoever waits for a frame gets one. */
  lemma FramesCome(cfg: Config, g: State, c: nat)
    requires cfg.Valid() && Inv(cfg, g) && Shape(cfg, g) && cfg.M >= 1 && cfg.N >= 1 && Linked(cfg, g)
    requires c < cfg.N && g.clients[c].pc.AwaitFrames?
    ensures !Quiet(cfg, g)
  {
    hide Inv, Config.Valid, LinkUp, Linked, Quiet, Link, Session, Took;
    if Quiet(cfg, g) {
      QuietNoLag(cfg, g);
      OwnerZero(cfg);
      WaitsForOwn(cfg, g, c);
      LoopMeansQueryRuns(cfg, g, c);
      var s := Target(cfg, g.clients[c], c);
      NoFrame(cfg, g, c);
      LinkOf(cfg, g, s);
      TalkWaits(cfg, g.taken, s, g.sims[s], g.clients[c], Get(g.up, s, c), Get(g.down, s, c));
      QuietRoot(cfg, g);
      if s != 0 { QuietFollower(cfg, g, s); QuietCaughtUp(cfg, g, s); }
    }
  }

  lemma NoFrame(cfg: Config, g: State, c: nat)
    requires cfg.Valid() && Shape(cfg, g) && |cfg.lo| == cfg.N + 1 && Quiet(cfg, g) && c < cfg.N && g.clients[c].pc.AwaitFrames?
    ensures Get(g.down, Target(cfg, g.clients[c], c), c) == []
  {
    assert !Enabled(cfg, g, ARecv(c));
  }

  lemma LinkOf(cfg: Config, g: State, s: nat)
    requires cfg.Valid() && Inv(cfg, g) && Shape(cfg, g) && s < cfg.M
    ensures OwnLink(cfg, g, s)
  {
    hide QuitOk, FollowOk, SimOk, HistOk, ClientOk, VerdictAt, CmdOk, ResultOk, FramesAt, Bcs, Bars, Session, Link;
  }

  lemma DeskVerdict(cfg: Config, hist: seq<Event>, d: Desk)
    requires cfg.Valid() && CmdOk(cfg, hist, d) && d.downq == []
    ensures d.cl.pc.AwaitVerdict? ==> (d.root.pc.Ready? || d.root.pc.Finalizing?) && d.upq != []
    ensures d.cl.pc.AwaitConnectVerdict? ==> d.root.pc.Connecting? && Answered(cfg, hist, d.root) == d.cl.op + 1
  {
    hide Answered, Ver, Took;
  }

  /** Sim rank 0, between calls, has everything before it that client rank 0 waits for. */
  lemma DeskReady(cfg: Config, hist: seq<Event>, taken: seq<nat>, vsent: seq<int>, d: Desk)
    requires cfg.Valid() && DeskOk(cfg, hist, taken, vsent, d) && d.root.pc.Ready?
    ensures d.cl.pc.AwaitVerdict? && d.downq == [] ==> d.root.ops == d.cl.op < |cfg.script| && d.root.intercomm.Some? && !d.newQuery
    ensures d.cl.pc.Accepting? && d.newQuery ==> d.root.ops == d.cl.op < |cfg.script|
    ensures d.cl.pc.Accepting? && d.inbox == Some(d.cl.op) ==> d.listening
    ensures d.cl.pc.Start? && d.cl.op < |cfg.script| && cfg.script[d.cl.op] == CONNECT ==> d.listening
  {
    var p := d.cl.op;
    if p < |cfg.script| { OpOpensSession(cfg, p); }
    hide Session, EventOk, TakenOk;
  }

  lemma VerdictComes(cfg: Config, g: State)
    requires cfg.Valid() && Inv(cfg, g) && Shape(cfg, g) && cfg.M >= 1 && cfg.N >= 1 && Linked(cfg, g)
    requires g.clients[0].pc.AwaitVerdict? || g.clients[0].pc.AwaitConnectVerdict?
    ensures !Quiet(cfg, g)
  {
    hide Inv, Config.Valid, LinkUp, Linked, Quiet, CmdOk, Session, Took, HistOk;
    if Quiet(cfg, g) {
      InvDesk(cfg, g);
      NoVerdict(cfg, g);
      QuietRoot(cfg, g);
      DeskVerdict(cfg, g.hist, DeskOf(g));
      if g.sims[0].pc.Ready? { DeskReady(cfg, g.hist, g.taken, g.vsent, DeskOf(g)); CallsLeft(cfg, g); }
      AtConnect(cfg, g, 0);
      if g.clients[0].pc.AwaitConnectVerdict? {
        LastReceived(cfg, g.hist, g.taken, g.vsent, g.sims[0], g.clients[0].op);
        Connectable(cfg, g, g.clients[0].op);
      }
    }
  }

  lemma CallsLeft(cfg: Config, g: State)
    requires cfg.Valid() && Shape(cfg, g) && cfg.M >= 1 && Quiet(cfg, g)
    ensures g.sims[0].pc.Ready? && g.sims[0].ops < |cfg.script| ==> g.sims[0].calls < |cfg.steps|
  {
    hide Enabled;
  }

  lemma NoVerdict(cfg: Config, g: State)
    requires cfg.Valid() && Shape(cfg, g) && cfg.N >= 1 && Quiet(cfg, g)
    requires g.clients[0].pc.AwaitVerdict? || g.clients[0].pc.AwaitConnectVerdict?
    ensures Get(g.down, 0, 0) == []
  {
    assert !Enabled(cfg, g, AVerdict) && !Enabled(cfg, g, AConnectVerdict);
  }

  lemma QuietNobodyMoves(cfg: Config, g: State)
    requires cfg.Valid() && Shape(cfg, g) && Quiet(cfg, g)
    ensures |cfg.lo| == cfg.N + 1 && !SomeoneMoves(cfg, g)
  {
    hide Quiet, Moves;
    forall d | 0 <= d < cfg.N ensures !Moves(cfg, g, d) { QuietClient(cfg, g, d); }
    QuietClient(cfg, g, 0);
  }

  lemma QueryReturns(cfg: Config, g: State)
    requires cfg.Valid() && Inv(cfg, g) && Shape(cfg, g) && cfg.M >= 1 && cfg.N >= 1 && Linked(cfg, g)
    requires g.clients[0].pc.InEndBarrier?
    ensures !Quiet(cfg, g)
  {
    hide Inv, Config.Valid, LinkUp, Linked, Quiet, CmdOk, Session, Took, HistOk, ClientOk, QuitOk, ResultOk, SimOk;
    hide CanStart, CanLeave, CanReadBcast, CanAccept, CanConnectBcast, CanPingSim, CanEndLoop;
    if Quiet(cfg, g) {
      QuietNobodyMoves(cfg, g);
      assert !Moves(cfg, g, 0);
      var e: nat :| e < cfg.N && g.clients[e].arrived < g.clients[0].arrived;
      QuietNoLag(cfg, g);
      NotAhead(cfg, g, e);
      QuitOf(cfg, g, 0);
      QuitOf(cfg, g, e);
      InBarrierAt(cfg, 0, g.clients[0]);
      InBarrierAt(cfg, e, g.clients[e]);
      BesideZero(cfg, g, e);
      AtConnect(cfg, g, 0);
      AtConnect(cfg, g, e);
      InvDesk(cfg, g);
      QueryDesk(cfg, g.hist, DeskOf(g));
      ClosedOnQuit(cfg, g.hist, g.clients[e]);
      if g.clients[e].pc.AwaitFrames? { FramesCome(cfg, g, e); }
    }
  }

  lemma NotAhead(cfg: Config, g: State, e: nat)
    requires cfg.Valid() && Inv(cfg, g) && Shape(cfg, g) && cfg.N >= 1 && NoLag(cfg, g) && e < cfg.N
    requires g.clients[0].pc.InEndBarrier? ==> g.clients[e].arrived < g.clients[0].arrived
    ensures g.clients[e].op == g.clients[0].op
  {
    hide Inv, Config.Valid, ClientOk, QuitOk, ResultOk;
    QuitOf(cfg, g, 0);
    QuitOf(cfg, g, e);
    Barriers(cfg, g, e);
    if g.clients[e].op > g.clients[0].op { Ahead(cfg, g.hist, e, g.clients[0], g.clients[e]); }
  }

  /** Only three kinds of place are left for client rank 0. */
  lemma QuietZero(cfg: Config, g: State)
    requires cfg.Valid() && Inv(cfg, g) && Shape(cfg, g) && cfg.M >= 1 && cfg.N >= 1 && Linked(cfg, g) && Quiet(cfg, g)
    ensures g.clients[0].pc.Start? || g.clients[0].pc.Accepting? || g.clients[0].pc.Closed?
    ensures forall d :: 0 <= d < cfg.N ==> g.clients[d].op == g.clients[0].op
  {
    hide Inv, Config.Valid, Linked, Quiet, ClientOk, QuitOk, ResultOk, AllArrived;
    hide CanStart, CanLeave, CanReadBcast, CanAccept, CanConnectBcast, CanReturn;
    var cl := g.clients[0];
    QuietNoLag(cfg, g);
    QuietNobodyMoves(cfg, g);
    QuitOf(cfg, g, 0);
    assert !Moves(cfg, g, 0);
    if cl.pc.InBarrier? { BarrierFills(cfg, g, 0); }
    if cl.pc.AwaitFrames? { FramesCome(cfg, g, 0); }
    if cl.pc.AwaitVerdict? || cl.pc.AwaitConnectVerdict? { VerdictComes(cfg, g); }
    if cl.pc.InEndBarrier? { QueryReturns(cfg, g); }
    ZeroPlaces(cfg, cl);
    forall d | 0 <= d < cfg.N ensures g.clients[d].op == cl.op { NotAhead(cfg, g, d); }
  }

  lemma ZeroPlaces(cfg: Config, cl: ClientRank)
    requires cfg.Valid() && ClientOk(cfg, 0, cl)
    ensures !cl.pc.AwaitBcast? && !cl.pc.AwaitConnectBcast? && !cl.pc.Failed?
  {
  }

  // ----- The other clients stop with it ---------------------------------------------------------------------------

  lemma QuietBeside(cfg: Config, g: State, d: nat)
    requires cfg.Valid() && Inv(cfg, g) && Shape(cfg, g) && cfg.M >= 1 && cfg.N >= 1 && Linked(cfg, g) && Quiet(cfg, g) && 0 < d < cfg.N
    ensures g.clients[d].op == g.clients[0].op
    ensures g.clients[0].pc.Closed? ==> g.clients[d].pc.Closed?
    ensures g.clients[0].pc.Accepting? ==> g.clients[d].pc.Accepting?
    ensures g.clients[0].pc.Start? ==> if g.clients[0].op == |cfg.script| then g.clients[d].pc.Start? else g.clients[d].pc.InBarrier?
  {
    hide Inv, Config.Valid, Linked, ClientOk, QuitOk, ResultOk, Took, Ver;
    hide CanLeave, CanReadBcast, CanConnectBcast, CanReturn, CanPingSim, CanEndLoop;
    var cl0, cl := g.clients[0], g.clients[d];
    QuietZero(cfg, g);
    QuietNobodyMoves(cfg, g);
    QuietNoLag(cfg, g);
    QuitOf(cfg, g, 0);
    QuitOf(cfg, g, d);
    AtConnect(cfg, g, 0);
    AtConnect(cfg, g, d);
    if cl.pc.AwaitFrames? { FramesCome(cfg, g, d); }
    if cl0.pc.Start? {
      Barriers(cfg, g, d);
      NotYetBeside(cfg, d, cl0, cl);
      assert !Moves(cfg, g, d);
    } else {
      BesideZero(cfg, g, d);
      if cl0.pc.Accepting? {
        hide CanStart;
        if Past(cl, cl.op) { Connectable(cfg, g, cl.op); }
        assert !Moves(cfg, g, 0);
      } else {
        NoQueryOnceClosed(cfg, g, d);
      }
    }
  }

  lemma NotYetBeside(cfg: Config, d: nat, cl0: ClientRank, cl: ClientRank)
    requires cfg.Valid() && 0 < d < cfg.N && ClientOk(cfg, 0, cl0) && ClientOk(cfg, d, cl) && cl.op == cl0.op && cl0.pc.Start?
    requires Left(cl) <= cl0.arrived
    ensures cl.pc.Start? || cl.pc.InBarrier?
    ensures cl.op == |cfg.script| ==> cl.pc.Start?
    ensures cl.op <= |cfg.script|
  {
  }

  lemma NoQueryOnceClosed(cfg: Config, g: State, d: nat)
    requires cfg.Valid() && Inv(cfg, g) && Shape(cfg, g) && cfg.N >= 1 && d < cfg.N
    requires g.clients[0].pc.Closed? && g.clients[d].op == g.clients[0].op
    ensures !g.clients[d].pc.InEndBarrier?
  {
    hide Inv, Config.Valid, ClientOk, QuitOk, ResultOk, HistOk, CmdOk, SimOk, Took, Ver;
    QuitOf(cfg, g, 0);
    QuitOf(cfg, g, d);
    InvDesk(cfg, g);
    ClosedOnQuit(cfg, g.hist, g.clients[0]);
    if g.clients[d].pc.InEndBarrier? {
      StillOwed(cfg, g.taken, d, g.clients[d], g.clients[d]);
      TakenInProcess(cfg, g.hist, g.taken, g.vsent, g.sims[0], g.clients[d].op);
    }
  }

  // ----- Sim rank 0 stops with it ---------------------------------------------------------------------------------------

  /** Sim rank 0 has executed what client rank 0 has sent, and no query is under way. */
  predicate NoQueryLeft(cfg: Config, root: SimRank, p: nat) {
    root.ops <= p || (root.ops == p + 1 && p < |cfg.script| && cfg.script[p] != QUERY)
  }

  lemma DeskEnds(cfg: Config, hist: seq<Event>, taken: seq<nat>, vsent: seq<int>, d: Desk)
    requires cfg.Valid() && DeskOk(cfg, hist, taken, vsent, d)
    requires d.cl.pc.Start? || d.cl.pc.Closed? || d.cl.pc.Accepting?
    ensures NoQueryLeft(cfg, d.root, d.cl.op)
    ensures d.cl.pc.Closed? ==> d.root.pc.Done?
    ensures d.cl.pc.Start? ==> RootResting(d.root.pc) && !d.newQuery
    ensures d.cl.pc.Start? && d.cl.op < |cfg.script| && cfg.script[d.cl.op] == CONNECT && d.root.pc.Finalizing? ==> d.root.intercomm.None?
    ensures d.cl.pc.Start? && d.root.pc.Finalizing? ==> d.root.intercomm == Session(cfg.script, d.cl.op)
    ensures d.cl.pc.Accepting? ==>
              || (d.inbox == Some(d.cl.op) && d.root.ops <= d.cl.op && (d.root.pc.Ready? || d.root.pc.Done? || (d.root.pc.Finalizing? && d.root.intercomm.None?)))
              || (d.newQuery && (d.root.pc.Ready? || d.root.pc.Finalizing?))
              || (d.root.ops == d.cl.op + 1 && (d.root.pc.Connecting? || Comp(d.root) > d.cl.op))
  {
    var p := d.cl.op;
    if p < |cfg.script| { OpOpensSession(cfg, p); }
    if Answered(cfg, hist, d.root) == p + 1 { LastReceived(cfg, hist, taken, vsent, d.root, p); }
    hide Session, EventOk, TakenOk;
  }

  lemma DialedAll(cfg: Config, g: State, p: nat)
    requires cfg.Valid() && Inv(cfg, g) && Shape(cfg, g) && cfg.M >= 1 && cfg.N >= 1 && Linked(cfg, g) && Quiet(cfg, g)
    requires p == g.clients[0].op && p < |cfg.script| && cfg.script[p] == CONNECT && g.sims[0].ops == p + 1
    ensures forall s :: 0 <= s < cfg.M ==> p in g.sims[s].dialed
  {
    hide Inv, Config.Valid, Linked, Quiet, Link, Session, ReplayOk, CmdOk, HistOk, ClientOk;
    QuietNoLag(cfg, g);
    forall s | 0 <= s < cfg.M ensures p in g.sims[s].dialed {
      if s == 0 {
        InvDesk(cfg, g);
      } else {
        QuietCaughtUp(cfg, g, s);
        SimOkOf(cfg, g, s);
      }
    }
  }

  lemma SimOkOf(cfg: Config, g: State, s: nat)
    requires cfg.Valid() && Inv(cfg, g) && Shape(cfg, g) && s < cfg.M
    ensures SimOk(cfg, s, g.sims[s])
  {
    hide QuitOk, FollowOk, HistOk, ClientOk, VerdictAt, CmdOk, ResultOk, OwnLink, Bcs, Bars, Session, SimOk;
  }

  /** Client rank 0 waits in accept for ever only if the simulation ended without recording its CONNECT. */
  lemma AcceptReturns(cfg: Config, g: State)
    requires cfg.Valid() && Inv(cfg, g) && Shape(cfg, g) && cfg.M >= 1 && cfg.N >= 1 && Linked(cfg, g) && Quiet(cfg, g)
    requires g.clients[0].pc.Accepting?
    ensures g.inbox == Some(g.clients[0].op) && g.sims[0].pc.Done? && g.sims[0].ops <= g.clients[0].op
  {
    hide Inv, Config.Valid, Linked, Quiet, Link, Session, CmdOk, HistOk, ClientOk, DeskOk, SimOk;
    hide CanStart, CanLeave, CanReadBcast, CanConnectBcast, CanReturn, CanPingSim, CanEndLoop;
    var p := g.clients[0].op;
    InvDesk(cfg, g);
    AtConnect(cfg, g, 0);
    DeskEnds(cfg, g.hist, g.taken, g.vsent, DeskOf(g));
    QuietRoot(cfg, g);
    CallsLeft(cfg, g);
    if g.sims[0].pc.Ready? { DeskReady(cfg, g.hist, g.taken, g.vsent, DeskOf(g)); }
    QuietNobodyMoves(cfg, g);
    assert !Moves(cfg, g, 0);
    if g.sims[0].ops == p + 1 {
      DialedAll(cfg, g, p);
      if Comp(g.sims[0]) > p { Connectable(cfg, g, p); }
      forall d | 0 <= d < cfg.N ensures Reached(g.clients[d], p) { if d != 0 { QuietBeside(cfg, g, d); } }
    }
  }
}
