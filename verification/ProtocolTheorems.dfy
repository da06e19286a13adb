/** What holds in every state of every run of the protocol. */
module ProtocolTheorems {
  import opened SimStates
  import Partition
  import opened Protocol
  import opened ProtocolInvariant
  import opened ProtocolSafety
  import opened ProtocolCommands
  import opened ProtocolFollowers
  import opened ProtocolSteps
  import opened ProtocolClientSteps

  // ----- The invariant holds ----------------------------------------------------------------------

  lemma KeepSimStep(cfg: Config, g: State, a: Action)
    requires cfg.Valid() && Inv(cfg, g) && Shape(cfg, g) && Enabled(cfg, g, a)
    requires a.ARecord? || a.ARootIdle? || a.ARootConnect? || a.ARootCommand? || a.AStop? || a.AFinNone? || a.AFinConnect?
             || a.AFinCommand? || a.AHave? || a.ACommand? || a.APort? || a.AConnected? || a.ATakePing? || a.ASend? || a.AFollowFin?
    ensures Inv(cfg, Apply(cfg, g, a))
  {
    hide Inv, Config.Valid;
    match a {
      case ARecord => KeepRecord(cfg, g);
      case ARootIdle => KeepRootIdle(cfg, g);
      case ARootConnect => KeepRootConnect(cfg, g);
      case ARootCommand => KeepRootCommand(cfg, g);
      case AStop => KeepStop(cfg, g);
      case AFinNone => KeepFinNone(cfg, g);
      case AFinConnect => KeepFinConnect(cfg, g);
      case AFinCommand => KeepFinCommand(cfg, g);
      case AHave(s) => KeepHave(cfg, g, s);
      case ACommand(s) => KeepCommand(cfg, g, s);
      case APort(s) => KeepPort(cfg, g, s);
      case AConnected(s) => if s == 0 { KeepConnectedRoot(cfg, g); } else { KeepConnectedFollower(cfg, g, s); }
      case ATakePing(s, c) => KeepTakePing(cfg, g, s, c);
      case ASend(s) => KeepSend(cfg, g, s);
      case AFollowFin(s) => KeepFollowFin(cfg, g, s);
    }
  }

  lemma KeepStep(cfg: Config, g: State, a: Action)
    requires cfg.Valid() && Inv(cfg, g) && Shape(cfg, g) && Enabled(cfg, g, a)
    ensures Inv(cfg, Apply(cfg, g, a))
  {
    hide Inv, Config.Valid;
    match a {
      case AStart(c) => KeepStart(cfg, g, c);
      case AVerdict => KeepVerdict(cfg, g);
      case ALeave(c) => KeepLeave(cfg, g, c);
      case AReadBcast(c) => KeepReadBcast(cfg, g, c);
      case AAccept(c) => KeepAccept(cfg, g, c);
      case AConnectVerdict => KeepConnectVerdict(cfg, g);
      case AConnectBcast(c) => KeepConnectBcast(cfg, g, c);
      case APing(c) => KeepPing(cfg, g, c);
      case ARecv(c) => KeepRecv(cfg, g, c);
      case AEndLoop(c) => KeepEndLoop(cfg, g, c);
      case AReturn(c) => KeepReturn(cfg, g, c);
      case _ => KeepSimStep(cfg, g, a);
    }
  }

  lemma {:induction false} RunInv(cfg: Config, gs: seq<State>, acts: seq<Action>, i: nat)
    requires cfg.Valid() && IsRun(cfg, gs, acts) && i <= |acts|
    ensures Inv(cfg, gs[i])
  {
    if i == 0 {
      InitInv(cfg);
    } else {
      RunInv(cfg, gs, acts, i - 1);
      hide Inv, Config.Valid, Enabled, Apply, Init;
      KeepStep(cfg, gs[i-1], acts[i-1]);
    }
  }

  lemma ReachableInv(cfg: Config, g: State)
    requires cfg.Valid() && Reachable(cfg, g)
    ensures Inv(cfg, g) && Shape(cfg, g)
  {
    hide Config.Valid, Enabled, Apply, Init, Inv;
    var gs, acts :| IsRun(cfg, gs, acts) && gs[|acts|] == g;
    RunInv(cfg, gs, acts, |acts|);
    ShapeOf(cfg, g);
  }

  lemma ShapeOf(cfg: Config, g: State)
    requires cfg.Valid() && Inv(cfg, g)
    ensures Shape(cfg, g)
  {
  }

  // ----- No rank ever fails ----------------------------------------------------------------------------

  /** The "already connected" and "unknown command" exceptions are never thrown, and nobody reads
      a message of the wrong kind. */
  lemma NobodyFails(cfg: Config, g: State)
    requires cfg.Valid() && Reachable(cfg, g)
    ensures Shape(cfg, g)
    ensures forall s :: 0 <= s < cfg.M ==> g.sims[s].pc != SimPc.Failed
    ensures forall c :: 0 <= c < cfg.N ==> g.clients[c].pc != ClientPc.Failed
  {
    ReachableInv(cfg, g);
    hide FollowOk, HistOk, VerdictAt, CmdOk, ResultOk, OwnLink, Bcs, Bars, Session;
    forall s | 0 <= s < cfg.M ensures g.sims[s].pc != SimPc.Failed { assert SimOk(cfg, s, g.sims[s]); }
    forall c | 0 <= c < cfg.N ensures g.clients[c].pc != ClientPc.Failed { assert ClientOk(cfg, c, g.clients[c]); }
  }

  /** process and the destructor read the client's next command, never a ping. */
  lemma RootReadsCommand(cfg: Config, g: State)
    requires cfg.Valid() && Reachable(cfg, g) && Shape(cfg, g)
    requires CanRootCommand(cfg, g) || CanFinCommand(cfg, g)
    ensures g.sims[0].ops < |cfg.script| && Get(g.up, 0, 0) == [CommandMsg(Code(cfg.script[g.sims[0].ops]))]
    ensures cfg.script[g.sims[0].ops] != CONNECT && g.clients[0].op == g.sims[0].ops
  {
    ReachableInv(cfg, g);
    InvDesk(cfg, g);
    hide Inv, Config.Valid, SimOk, HistOk, ClientOk, CmdOk;
    CommandWaiting(cfg, g.hist, g.taken, g.vsent, DeskOf(g));
  }

  /** handleQuery reads the ping of the client that owns the sim, sent for the query being handled. */
  lemma ProbeReadsPing(cfg: Config, g: State, s: nat, c: nat)
    requires cfg.Valid() && Reachable(cfg, g) && Shape(cfg, g) && CanPing(cfg, g, s, c)
    ensures c == Owner(cfg, s) && Get(g.up, s, c) == [Ping(c)]
    ensures g.clients[c].op + 1 == g.sims[s].ops && cfg.lo[c] + |g.clients[c].regions| == s
    ensures g.clients[c].op < |g.taken| && g.taken[g.clients[c].op] == g.sims[s].calls
  {
    hide Reachable, Inv, ClientOk, SimOk, FramesAt, Link, Config.Valid;
    ReachableInv(cfg, g);
    ProbeFindsOwner(cfg, g, s, c);
    RootQueryTaken(cfg, g, s);
    LinkTakePing(cfg, g.taken, s, g.sims[s], g.clients[c], Get(g.up, s, c), Get(g.down, s, c));
  }

  /** The client's receives: a verdict where it waits for one, and otherwise the next frame of the
      state that its sim passed to the process call that took the query. */
  lemma ClientReadsAnswer(cfg: Config, g: State, c: nat)
    requires cfg.Valid() && Reachable(cfg, g) && Shape(cfg, g) && c < cfg.N && |cfg.lo| == cfg.N + 1
    ensures c == 0 && (CanVerdict(cfg, g) || CanConnectVerdict(cfg, g)) ==>
              Get(g.down, 0, 0) == [Verdict(Ver(cfg, g.hist, g.clients[0].op))]
    ensures CanRecv(cfg, g, c) ==>
              var cl := g.clients[c];
              var s := Target(cfg, cl, c);
              && s < cfg.M && cl.op < |g.taken| && g.taken[cl.op] < |cfg.steps|
              && |cl.got| < |FramesAt(cfg, g.taken[cl.op], s)|
              && cl.got == FramesAt(cfg, g.taken[cl.op], s)[..|cl.got|]
              && Get(g.down, s, c)[0] == FrameMsg(FramesAt(cfg, g.taken[cl.op], s)[|cl.got|])
  {
    hide Reachable, Config.Valid, VerdictAt, CmdOk, HistOk, SimOk, ClientOk, ResultOk, FollowOk, Frames, FramesAt, Link;
    ReachableInv(cfg, g);
    InvDesk(cfg, g);
    VerdictWaits(cfg, g);
    if CanRecv(cfg, g, c) {
      var s := Target(cfg, g.clients[c], c);
      WaitsForOwn(cfg, g, c);
      assert OwnLink(cfg, g, s);
      TalkHead(cfg, g.taken, s, g.sims[s], g.clients[c], Get(g.up, s, c), Get(g.down, s, c));
    }
  }

  lemma VerdictWaits(cfg: Config, g: State)
    requires cfg.Valid() && Inv(cfg, g) && Shape(cfg, g)
    ensures CanVerdict(cfg, g) || CanConnectVerdict(cfg, g) ==> Get(g.down, 0, 0) == [Verdict(Ver(cfg, g.hist, g.clients[0].op))]
  {
    hide FollowOk, SimOk, HistOk, ClientOk, VerdictAt, ResultOk, OwnLink, Ver, Took;
  }

  // ----- What a query returns ---------------------------------------------------------------------------

  /** The results of query p at client ranks 0 .. n-1, one after the other. */
  ghost function Gathered(cfg: Config, g: State, p: nat, n: nat): seq<SimState>
    requires Shape(cfg, g) && n <= cfg.N && forall c :: 0 <= c < n ==> p in g.clients[c].results
  {
    if n == 0 then [] else Gathered(cfg, g, p, n - 1) + g.clients[n-1].results[p]
  }

  lemma {:induction false} GatheredUpTo(cfg: Config, g: State, p: nat, n: nat)
    requires cfg.Valid() && Shape(cfg, g) && n <= cfg.N
    requires p < |g.taken| && g.taken[p] < |cfg.steps|
    requires forall c :: 0 <= c < n ==> p in g.clients[c].results
    requires forall c :: 0 <= c < n ==> RegionsOf(cfg, g.taken, c, p, g.clients[c].results[p])
                                        && cfg.lo[c] + |g.clients[c].results[p]| == cfg.lo[c+1]
    ensures |Gathered(cfg, g, p, n)| == cfg.lo[n] <= cfg.M
    ensures forall s :: 0 <= s < cfg.lo[n] ==> Gathered(cfg, g, p, n)[s] == Delivered(cfg.steps[g.taken[p]][s].state)
  {
    hide Delivered;
    if n == 0 {
    } else {
      GatheredUpTo(cfg, g, p, n - 1);
      assert cfg.lo[n] <= cfg.lo[cfg.N];
      RegionsFollow(cfg, g.taken, n - 1, p, Gathered(cfg, g, p, n - 1), g.clients[n-1].results[p]);
    }
  }

  /** The regions of one more client, after those of the clients before it. */
  lemma RegionsFollow(cfg: Config, taken: seq<nat>, c: nat, p: nat, front: seq<SimState>, own: seq<SimState>)
    requires cfg.Valid() && c < cfg.N && RegionsOf(cfg, taken, c, p, own) && |front| == cfg.lo[c] && cfg.lo[c] + |own| == cfg.lo[c+1]
    requires forall s :: 0 <= s < |front| ==> front[s] == Delivered(cfg.steps[taken[p]][s].state)
    ensures forall s :: 0 <= s < cfg.lo[c+1] ==> (front + own)[s] == Delivered(cfg.steps[taken[p]][s].state)
  {
    hide Delivered;
    forall s | |front| <= s < cfg.lo[c+1] ensures (front + own)[s] == Delivered(cfg.steps[taken[p]][s].state) {
      var k := s - cfg.lo[c];
      assert own[k] == Delivered(cfg.steps[taken[p]][cfg.lo[c] + k].state);
    }
  }

  lemma ResultsOf(cfg: Config, g: State, c: nat, p: nat)
    requires cfg.Valid() && Inv(cfg, g) && c < cfg.N && p < g.clients[c].op && p < |cfg.script| && cfg.script[p] == QUERY
    ensures p in g.clients[c].results && RegionsOf(cfg, g.taken, c, p, g.clients[c].results[p])
    ensures cfg.lo[c] + |g.clients[c].results[p]| == cfg.lo[c+1]
  {
    hide QuitOk, FollowOk, SimOk, HistOk, ClientOk, VerdictAt, CmdOk, OwnLink, RegionsOf;
    assert ResultOk(cfg, g.taken, c, g.clients[c]);
  }

  /** When every client rank has returned from query p, the regions they hold, read in rank order,
      are the states that sims 0 .. M-1 passed to one and the same process call: the one that took p. */
  lemma QueryDelivers(cfg: Config, g: State, p: nat)
    requires cfg.Valid() && Reachable(cfg, g) && Shape(cfg, g) && p < |cfg.script| && cfg.script[p] == QUERY
    requires forall c :: 0 <= c < cfg.N ==> g.clients[c].op > p
    ensures forall c :: 0 <= c < cfg.N ==> p in g.clients[c].results
    ensures p < |g.taken| && g.taken[p] < |cfg.steps|
    ensures Gathered(cfg, g, p, cfg.N) == seq(cfg.M, s requires 0 <= s < cfg.M => Delivered(cfg.steps[g.taken[p]][s].state))
  {
    hide Reachable, Inv, RegionsOf, Delivered;
    ReachableInv(cfg, g);
    forall c | 0 <= c < cfg.N
      ensures p in g.clients[c].results && RegionsOf(cfg, g.taken, c, p, g.clients[c].results[p])
              && cfg.lo[c] + |g.clients[c].results[p]| == cfg.lo[c+1]
    {
      ResultsOf(cfg, g, c, p);
    }
    OwedAt(cfg, g.taken, 0, p, g.clients[0].results[p]);
    GatheredUpTo(cfg, g, p, cfg.N);
  }

  lemma OwedAt(cfg: Config, taken: seq<nat>, c: nat, p: nat, regions: seq<SimState>)
    requires cfg.Valid() && c < cfg.N && RegionsOf(cfg, taken, c, p, regions)
    ensures p < |taken| && taken[p] < |cfg.steps|
  {
  }

  /** The division of sims among clients that query computes. */
  function Division(M: nat, N: nat): seq<nat> requires N > 0 {
    seq(N + 1, c requires 0 <= c <= N => Partition.Lo(M, N, c))
  }

  /** query's arithmetic is a division in the sense of Config, for any M and N, also M < N: so all of
      the above holds for it. */
  lemma QueryDivides(M: nat, N: nat, script: seq<Command>, steps: seq<seq<Snapshot>>, allAccept: bool)
    requires M >= 1 && N >= 1 && WellFormed(script)
    requires forall t :: 0 <= t < |steps| ==> |steps[t]| == M
    requires forall t, s :: 0 <= t < |steps| && 0 <= s < M ==> steps[t][s].Valid()
    ensures Config(M, N, Division(M, N), script, steps, allAccept).Valid()
    ensures forall c: nat :: c < N ==> Division(M, N)[c+1] == Division(M, N)[c] + Partition.Count(M, N, c)
  {
    var lo := Division(M, N);
    Partition.RangesPartition(M, N);
    forall i, j | 0 <= i <= j <= N ensures lo[i] <= lo[j] { Partition.LoMonotone(M, N, i, j); }
    forall c: nat | c < N ensures lo[c+1] == lo[c] + Partition.Count(M, N, c) { Partition.RangesAbut(M, N, c); }
    hide Partition.Lo, Partition.Count;
    assert lo[0+1] == lo[0] + Partition.Count(M, N, 0);
  }

  // ----- Process calls and commands -------------------------------------------------------------------------

  lemma {:induction false} OpsGrow(cfg: Config, hist: seq<Event>, taken: seq<nat>, i: nat, j: nat)
    requires i <= j <= |hist| && forall k :: 0 <= k < |hist| ==> EventOk(cfg, hist, taken, k)
    ensures OpsAt(hist, i) <= OpsAt(hist, j)
    decreases j
  {
    if i < j {
      OpsGrow(cfg, hist, taken, i, j - 1);
      assert EventOk(cfg, hist, taken, j - 1);
    }
  }

  /** Commands are taken in script order, at most one per process call. */
  lemma OneCommandPerCall(cfg: Config, g: State, p: nat, q: nat)
    requires cfg.Valid() && Reachable(cfg, g) && p < q < |g.taken|
    ensures g.taken[p] < g.taken[q] <= |cfg.steps|
  {
    ReachableInv(cfg, g);
    hide FollowOk, SimOk, ClientOk, VerdictAt, CmdOk, ResultOk, OwnLink, QuitOk;
    var h := g.hist;
    assert TakenOk(h, g.taken, p) && TakenOk(h, g.taken, q);
    assert EventOk(cfg, h, g.taken, g.taken[p]) && EventOk(cfg, h, g.taken, g.taken[q]);
    if g.taken[q] <= g.taken[p] { OpsGrow(cfg, h, g.taken, g.taken[q], g.taken[p]); }
    HistBound(cfg, g);
  }

  lemma HistBound(cfg: Config, g: State)
    requires cfg.Valid() && Inv(cfg, g)
    ensures |g.hist| <= |cfg.steps| + 1
  {
    hide FollowOk, ClientOk, VerdictAt, CmdOk, ResultOk, OwnLink, QuitOk;
  }

  lemma RootOps(cfg: Config, g: State)
    requires cfg.Valid() && Inv(cfg, g)
    ensures g.sims[0].ops <= |cfg.script|
  {
    hide FollowOk, HistOk, ClientOk, VerdictAt, CmdOk, ResultOk, OwnLink, QuitOk;
  }

  // ----- The listener -------------------------------------------------------------------------------------------

  /** Between calls: the listener runs exactly while no client is connected and none has been
      recorded, and a recorded CONNECT belongs to a client that is not connected. */
  lemma ListenerRuns(cfg: Config, g: State)
    requires cfg.Valid() && Reachable(cfg, g) && Shape(cfg, g)
    ensures g.listening <==> g.sims[0].pc.Ready? && g.sims[0].intercomm == None && !g.newQuery
    ensures g.newQuery && g.sims[0].pc.Ready? ==>
              && g.sims[0].intercomm == None && g.sims[0].clientCommand == Code(CONNECT)
              && g.sims[0].clientPort == g.clients[0].op == g.sims[0].ops
              && g.sims[0].ops < |cfg.script| && cfg.script[g.sims[0].ops] == CONNECT
  {
    hide Reachable, Inv, SimOk, HistOk, ClientOk, Session, Config.Valid, Ver;
    ReachableInv(cfg, g);
    InvDesk(cfg, g);
    var d := DeskOf(g);
    if d.newQuery && d.root.pc.Ready? { PendingConnect(cfg, g.hist, g.taken, g.vsent, d); }
  }

  lemma PendingConnect(cfg: Config, hist: seq<Event>, taken: seq<nat>, vsent: seq<int>, d: Desk)
    requires cfg.Valid() && DeskOk(cfg, hist, taken, vsent, d) && d.newQuery && d.root.pc.Ready?
    ensures d.root.clientCommand == Code(CONNECT) && d.root.clientPort == d.cl.op == d.root.ops
    ensures d.root.ops < |cfg.script| && cfg.script[d.root.ops] == CONNECT
  {
  }

  /** A recorded CONNECT is cleared only by the process call that connected its client and sent it
      a verdict; nothing overwrites it before. */
  lemma RecordedConnectIsServed(cfg: Config, g: State, a: Action)
    requires cfg.Valid() && Reachable(cfg, g) && Shape(cfg, g) && Enabled(cfg, g, a) && g.newQuery
    ensures a != ARecord
    ensures !Apply(cfg, g, a).newQuery ==>
              && a == AConnected(0) && g.sims[0].pc.Connecting?
              && Apply(cfg, g, a).sims[0].intercomm == Some(g.sims[0].clientPort)
              && Apply(cfg, g, a).vsent == g.vsent + [0]
  {
    hide Reachable, Inv, SimOk, HistOk, ClientOk, Session, Config.Valid, Ver, FramesAt;
    ReachableInv(cfg, g);
    InvDesk(cfg, g);
  }

  // ----- Verdicts -------------------------------------------------------------------------------------------------

  /** Verdicts are sent one per command, in order; only the last can be 1, and then the simulation
      has finished. */
  lemma OneVerdictEach(cfg: Config, g: State, p: nat)
    requires cfg.Valid() && Reachable(cfg, g) && Shape(cfg, g)
    requires p < |g.vsent|
    ensures g.vsent[p] == 0 || (g.vsent[p] == 1 && p == |g.vsent| - 1 && g.sims[0].pc.Done?)
    ensures |g.vsent| <= |cfg.script|
    ensures |g.vsent| == Answered(cfg, g.hist, g.sims[0]) - (if g.sims[0].pc.Connecting? then 1 else 0)
  {
    hide Reachable, Inv, ClientOk, Session, Config.Valid, FramesAt;
    ReachableInv(cfg, g);
    InvDesk(cfg, g);
    if Took(cfg, g.hist) { assert EventOk(cfg, g.hist, g.taken, |cfg.steps|); }
  }

  /** A client rank closes exactly on a verdict of 1 for the command it is at. While any verdict of 1
      has been sent, no client is past that command (a DISCONNECT apart, after which nobody can connect),
      and no ping or command can be sent any more. */
  lemma QuitStopsAll(cfg: Config, g: State, p: nat, c: nat)
    requires cfg.Valid() && Reachable(cfg, g) && Shape(cfg, g) && |cfg.lo| == cfg.N + 1
    requires p < |g.vsent| && g.vsent[p] == 1 && c < cfg.N
    ensures g.clients[c].pc.Closed? ==> g.clients[c].op == p
    ensures p < |cfg.script| && (cfg.script[p] != DISCONNECT ==> g.clients[c].op <= p)
    ensures !CanPingSim(cfg, g, c)
    ensures !CanStart(cfg, g, 0)
  {
    hide Reachable, Inv, SimOk, ClientOk, Config.Valid, FramesAt;
    ReachableInv(cfg, g);
    InvDesk(cfg, g);
    QuitOf(cfg, g, c);
    assert Took(cfg, g.hist) && g.hist[|cfg.steps|].ops == p;
    assert EventOk(cfg, g.hist, g.taken, |cfg.steps|);
    if g.clients[c].pc.Loop? { LoopMeansQueryRuns(cfg, g, c); }
    NoStart(cfg, g.hist, g.taken, g.vsent, DeskOf(g));
    PassedQuit(cfg, g.hist, g.clients[c], p);
  }

  lemma PassedQuit(cfg: Config, hist: seq<Event>, cl: ClientRank, p: nat)
    requires QuitOk(cfg, hist, cl) && Took(cfg, hist) && hist[|cfg.steps|].ops == p && p < |cfg.script|
    ensures cl.pc.Closed? ==> cl.op == p
    ensures cfg.script[p] != DISCONNECT ==> cl.op <= p
  {
  }

  lemma NoStart(cfg: Config, hist: seq<Event>, taken: seq<nat>, vsent: seq<int>, d: Desk)
    requires cfg.Valid() && DeskOk(cfg, hist, taken, vsent, d) && Took(cfg, hist)
    ensures d.cl.pc.Start? && d.cl.op < |cfg.script| ==> cfg.script[d.cl.op] == CONNECT && !d.listening
  {
    if d.cl.op < |cfg.script| { OpOpensSession(cfg, d.cl.op); }
  }

  lemma QuitOf(cfg: Config, g: State, c: nat)
    requires cfg.Valid() && Inv(cfg, g) && c < cfg.N
    ensures QuitOk(cfg, g.hist, g.clients[c]) && ResultOk(cfg, g.taken, c, g.clients[c]) && ClientOk(cfg, c, g.clients[c])
    ensures g.clients[c].nb <= |g.verdicts| == g.clients[0].nb
  {
    hide FollowOk, SimOk, HistOk, VerdictAt, CmdOk, OwnLink, ResultOk, ClientOk, QuitOk;
  }

  /** While some client reads regions, client rank 0 is in the same query and the simulation has not
      begun to quit. */
  lemma LoopMeansQueryRuns(cfg: Config, g: State, c: nat)
    requires cfg.Valid() && Inv(cfg, g) && Shape(cfg, g) && c < cfg.N && (g.clients[c].pc.Loop? || g.clients[c].pc.AwaitFrames?)
    ensures g.clients[0].op == g.clients[c].op && InQuery(g.clients[0].pc)
    ensures !Took(cfg, g.hist) && Answered(cfg, g.hist, g.sims[0]) == g.clients[c].op + 1
  {
    hide FollowOk, SimOk, VerdictAt, CmdOk, OwnLink, ResultOk, QuitOk, Session, HistOk, Took, Answered;
    QuitOf(cfg, g, c);
    QuitOf(cfg, g, 0);
    InvDesk(cfg, g);
    var cl, cl0 := g.clients[c], g.clients[0];
    var p := cl.op;
    StillOwed(cfg, g.taken, c, cl, cl);
    TakenInProcess(cfg, g.hist, g.taken, g.vsent, g.sims[0], p);
    if cl0.op > p {
      BarsMonotone(cfg.script, p, cl0.op);
      assert Left(cl0) <= cl.arrived;
    }
    if cl0.op < p { BcsMonotone(cfg.script, cl0.op, p); }
    hide Bars, Bcs;
    ClosedOnQuit(cfg, g.hist, cl0);
    QueryDesk(cfg, g.hist, DeskOf(g));
  }

  lemma ClosedOnQuit(cfg: Config, hist: seq<Event>, cl: ClientRank)
    requires QuitOk(cfg, hist, cl)
    ensures cl.pc.Closed? ==> Ver(cfg, hist, cl.op) == 1
  {
  }

  lemma QueryDesk(cfg: Config, hist: seq<Event>, d: Desk)
    requires cfg.Valid() && CmdOk(cfg, hist, d) && InQuery(d.cl.pc)
    ensures !Took(cfg, hist) && Answered(cfg, hist, d.root) == d.cl.op + 1
  {
  }

  /** The barrier at the end of query separates queries from commands: while a command is in flight,
      no client is reading regions and every other queue is empty, so no ping or frame is left over. */
  lemma CommandTravelsAlone(cfg: Config, g: State, s: nat, c: nat)
    requires cfg.Valid() && Reachable(cfg, g) && Shape(cfg, g) && s < cfg.M && c < cfg.N
    requires g.clients[0].pc.AwaitVerdict?
    ensures !g.clients[c].pc.Loop? && !g.clients[c].pc.AwaitFrames?
    ensures s != 0 || c != 0 ==> Get(g.up, s, c) == [] && Get(g.down, s, c) == []
  {
    hide Reachable, Config.Valid;
    ReachableInv(cfg, g);
    hide FollowOk, SimOk, VerdictAt, CmdOk, ResultOk, QuitOk, HistOk, ClientOk;
    var o := Owner(cfg, s);
    if g.clients[c].pc.Loop? || g.clients[c].pc.AwaitFrames? { LoopMeansQueryRuns(cfg, g, c); }
    if g.clients[o].pc.Loop? || g.clients[o].pc.AwaitFrames? { LoopMeansQueryRuns(cfg, g, o); }
    OwnerZero(cfg);
    assert OwnLink(cfg, g, s);
  }
}
