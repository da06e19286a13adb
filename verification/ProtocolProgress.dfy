/** Runs of the protocol are finite: every step lowers a natural number. */
module ProtocolProgress {
  import opened SimStates
  import opened Sums
  import opened Protocol
  import opened ProtocolInvariant
  import opened ProtocolSafety
  import opened ProtocolCommands
  import opened ProtocolFollowers
  import opened ProtocolSteps
  import opened ProtocolClientSteps
  import opened ProtocolTheorems

  // ----- Work left -------------------------------------------------------------------------------

  /** Frames that sim s would send in call t, counted once for sending and once for receiving. */
  ghost function CallsLeft(cfg: Config, s: nat, t: nat): (n: nat)
    requires cfg.Valid() && s < cfg.M
    ensures n >= 10
    decreases |cfg.steps| - t
  {
    if t >= |cfg.steps| then 10 else 2 * |FramesAt(cfg, t, s)| + 10 + CallsLeft(cfg, s, t + 1)
  }

  ghost function SimLeft(cfg: Config, s: nat, sim: SimRank): nat
    requires cfg.Valid() && s < cfg.M
  {
    var t := sim.calls;
    var fin := t >= |cfg.steps|;
    var rest := if fin then 0 else CallsLeft(cfg, s, t + 1);
    var n := if fin then 0 else |FramesAt(cfg, t, s)|;
    match sim.pc
    case Ready => CallsLeft(cfg, s, t)
    case AwaitCommand => rest + 2 * n + 9
    case AwaitPort => rest + 2 * n + 8
    case Connecting => rest + 5
    case ProbeAll => rest + 2 * n + 5
    case Sending(_, i) => if i <= n then rest + 2 * (n - i) + 3 else 0
    case Finalizing => 9
    case Done => 0
    case Failed => 0
  }

  ghost function Share(cfg: Config, c: nat): nat
    requires cfg.Valid() && c < cfg.N
  {
    cfg.lo[c+1] - cfg.lo[c]
  }

  /** Work of client c from command p on. */
  ghost function OpsLeft(cfg: Config, c: nat, p: nat): nat
    requires cfg.Valid() && c < cfg.N
    decreases |cfg.script| - p
  {
    if p >= |cfg.script| then 0 else 20 + 3 * Share(cfg, c) + OpsLeft(cfg, c, p + 1)
  }

  ghost function ClientLeft(cfg: Config, c: nat, cl: ClientRank): nat
    requires cfg.Valid() && c < cfg.N
  {
    var rest := OpsLeft(cfg, c, cl.op + 1);
    var share := Share(cfg, c);
    var regions := if |cl.regions| <= share then 3 * (share - |cl.regions|) else 0;
    match cl.pc
    case Start => OpsLeft(cfg, c, cl.op)
    case AwaitVerdict => rest + 17 + 3 * share
    case InBarrier => rest + 16 + 3 * share
    case AwaitBcast => rest + 15 + 3 * share
    case Accepting => rest + 10
    case AwaitConnectVerdict => rest + 9
    case AwaitConnectBcast => rest + 9
    case Loop => rest + regions + 5
    case AwaitFrames => rest + regions + 3
    case InEndBarrier => rest + 4
    case Closed => rest
    case Failed => 0
  }

  ghost function Queued(cfg: Config, g: State, s: nat): nat
    requires cfg.Valid() && s < cfg.M
  {
    |Get(g.up, s, Owner(cfg, s))| + |Get(g.down, s, Owner(cfg, s))|
  }

  ghost function SimWork(cfg: Config, g: State): seq<nat>
    requires cfg.Valid() && Shape(cfg, g)
  {
    seq(cfg.M, s requires 0 <= s < cfg.M => SimLeft(cfg, s, g.sims[s]) + Queued(cfg, g, s))
  }

  ghost function ClientWork(cfg: Config, g: State): seq<nat>
    requires cfg.Valid() && Shape(cfg, g)
  {
    seq(cfg.N, c requires 0 <= c < cfg.N => ClientLeft(cfg, c, g.clients[c]))
  }

  ghost function Measure(cfg: Config, g: State): nat
    requires cfg.Valid() && Shape(cfg, g)
  {
    Sum(SimWork(cfg, g)) + Sum(ClientWork(cfg, g)) + (if g.inbox.Some? then 1 else 0)
  }

  /** A step that touches sim s, client c, and the two queues between them. */
  lemma MeasureOf(cfg: Config, g: State, g': State, s: nat, c: nat)
    requires cfg.Valid() && Shape(cfg, g) && Shape(cfg, g') && s < cfg.M && c < cfg.N
    requires forall i :: 0 <= i < cfg.M && i != s ==> g'.sims[i] == g.sims[i] && Queued(cfg, g', i) == Queued(cfg, g, i)
    requires forall d :: 0 <= d < cfg.N && d != c ==> g'.clients[d] == g.clients[d]
    ensures Measure(cfg, g') + SimLeft(cfg, s, g.sims[s]) + Queued(cfg, g, s) + ClientLeft(cfg, c, g.clients[c]) + (if g.inbox.Some? then 1 else 0)
         == Measure(cfg, g) + SimLeft(cfg, s, g'.sims[s]) + Queued(cfg, g', s) + ClientLeft(cfg, c, g'.clients[c]) + (if g'.inbox.Some? then 1 else 0)
  {
    hide SimLeft, Queued, ClientLeft, Config.Valid;
    var v := SimLeft(cfg, s, g'.sims[s]) + Queued(cfg, g', s);
    var w := ClientLeft(cfg, c, g'.clients[c]);
    assert SimWork(cfg, g') == SimWork(cfg, g)[s := v];
    assert ClientWork(cfg, g') == ClientWork(cfg, g)[c := w];
    SumUpdate(SimWork(cfg, g), s, v);
    SumUpdate(ClientWork(cfg, g), c, w);
  }

  // ----- Every step does some of it ------------------------------------------------------------------

  lemma Decreases(cfg: Config, g: State, g': State, s: nat, c: nat)
    requires cfg.Valid() && Shape(cfg, g) && Shape(cfg, g') && s < cfg.M && c < cfg.N
    requires forall i :: 0 <= i < cfg.M && i != s ==> g'.sims[i] == g.sims[i] && Queued(cfg, g', i) == Queued(cfg, g, i)
    requires forall d :: 0 <= d < cfg.N && d != c ==> g'.clients[d] == g.clients[d]
    requires SimLeft(cfg, s, g'.sims[s]) + Queued(cfg, g', s) + ClientLeft(cfg, c, g'.clients[c]) + (if g'.inbox.Some? then 1 else 0)
           < SimLeft(cfg, s, g.sims[s]) + Queued(cfg, g, s) + ClientLeft(cfg, c, g.clients[c]) + (if g.inbox.Some? then 1 else 0)
    ensures Measure(cfg, g') < Measure(cfg, g)
  {
    hide SimLeft, Queued, ClientLeft, Config.Valid, Measure;
    MeasureOf(cfg, g, g', s, c);
  }

  ghost predicate Less(cfg: Config, g: State, g': State)
    requires cfg.Valid()
  {
    Shape(cfg, g) && Shape(cfg, g') && Measure(cfg, g') < Measure(cfg, g)
  }

  /** How much each move of a sim rank is worth; a verdict or frame it sends costs 1. */
  lemma SimDrop(cfg: Config, s: nat, sim: SimRank, sim': SimRank)
    requires cfg.Valid() && s < cfg.M
    ensures sim.pc.Ready? && sim.calls < |cfg.steps| && sim'.pc.Ready? && sim'.calls == sim.calls + 1 ==>
              SimLeft(cfg, s, sim') + 2 <= SimLeft(cfg, s, sim)
    ensures (sim'.calls == sim.calls && sim.pc.Ready? && sim.calls < |cfg.steps| && (sim'.pc.AwaitCommand? || sim'.pc.Connecting? || sim'.pc.ProbeAll?)) ==>
              SimLeft(cfg, s, sim') < SimLeft(cfg, s, sim)
    ensures (sim'.calls == sim.calls && sim.pc.Ready? && sim.calls >= |cfg.steps| && (sim'.pc.Finalizing? || sim'.pc.AwaitPort? || sim'.pc.Done?)) ==>
              SimLeft(cfg, s, sim') < SimLeft(cfg, s, sim)
    ensures (sim'.calls == sim.calls && sim.calls >= |cfg.steps| && sim.pc.Finalizing? && (sim'.pc.Connecting? || sim'.pc.Done?)) ==>
              SimLeft(cfg, s, sim') < SimLeft(cfg, s, sim)
    ensures (sim'.calls == sim.calls && sim.pc.AwaitCommand? && (sim'.pc.AwaitPort? || sim'.pc.ProbeAll?)) ==>
              SimLeft(cfg, s, sim') < SimLeft(cfg, s, sim)
    ensures sim'.calls == sim.calls && sim.pc.AwaitPort? && sim'.pc.Connecting? ==>
              SimLeft(cfg, s, sim') < SimLeft(cfg, s, sim)
    ensures (sim'.calls == sim.calls + 1 && sim.calls < |cfg.steps| && (sim.pc.AwaitCommand? || sim.pc.Connecting?) && sim'.pc.Ready?) ==>
              SimLeft(cfg, s, sim') + 2 <= SimLeft(cfg, s, sim)
    ensures sim'.calls == sim.calls >= |cfg.steps| && sim.pc.Connecting? && sim'.pc.Done? ==>
              SimLeft(cfg, s, sim') + 2 <= SimLeft(cfg, s, sim)
    ensures sim'.calls == sim.calls < |cfg.steps| && sim.pc.ProbeAll? && sim'.pc.Sending? && sim'.pc.sent == 0 ==>
              SimLeft(cfg, s, sim') < SimLeft(cfg, s, sim)
  {
    hide FramesAt;
  }

  lemma SendDrop(cfg: Config, s: nat, sim: SimRank)
    requires cfg.Valid() && s < cfg.M && sim.calls < |cfg.steps| && sim.pc.Sending? && sim.pc.sent < |FramesAt(cfg, sim.calls, s)|
    ensures var i := sim.pc.sent;
            SimLeft(cfg, s, if i + 1 == |FramesAt(cfg, sim.calls, s)| then Finish(sim) else sim.(pc := Sending(sim.pc.client, i + 1))) + 2
            <= SimLeft(cfg, s, sim)
  {
    hide FramesAt;
  }

  /** A step of a sim rank that leaves the clients alone. */
  lemma SimStepLess(cfg: Config, g: State, g': State, s: nat)
    requires cfg.Valid() && Shape(cfg, g) && Shape(cfg, g') && s < cfg.M
    requires g'.clients == g.clients && g'.sims == g.sims[s := g'.sims[s]]
    requires g'.inbox == g.inbox || g'.inbox == None
    requires forall i :: 0 <= i < cfg.M && i != s ==> Queued(cfg, g', i) == Queued(cfg, g, i)
    requires SimLeft(cfg, s, g'.sims[s]) + Queued(cfg, g', s) + (if g'.inbox.Some? then 1 else 0)
             < SimLeft(cfg, s, g.sims[s]) + Queued(cfg, g, s) + (if g.inbox.Some? then 1 else 0)
    ensures Less(cfg, g, g')
  {
    hide SimLeft, Queued, ClientLeft, Measure;
    Decreases(cfg, g, g', s, 0);
  }

  /** ... or of a client rank. */
  lemma ClientStepLess(cfg: Config, g: State, g': State, s: nat, c: nat)
    requires cfg.Valid() && Shape(cfg, g) && Shape(cfg, g') && s < cfg.M && c < cfg.N
    requires g'.sims == g.sims && g'.clients == g.clients[c := g'.clients[c]]
    requires forall i :: 0 <= i < cfg.M && i != s ==> Queued(cfg, g', i) == Queued(cfg, g, i)
    requires Queued(cfg, g', s) + ClientLeft(cfg, c, g'.clients[c]) + (if g'.inbox.Some? then 1 else 0)
             < Queued(cfg, g, s) + ClientLeft(cfg, c, g.clients[c]) + (if g.inbox.Some? then 1 else 0)
    ensures Less(cfg, g, g')
  {
    hide SimLeft, Queued, ClientLeft, Measure;
    Decreases(cfg, g, g', s, c);
  }

  lemma RootConnectLess(cfg: Config, g: State)
    requires cfg.Valid() && Inv(cfg, g) && Shape(cfg, g) && cfg.M >= 1 && CanRootConnect(cfg, g)
    ensures Less(cfg, g, RootConnect(cfg, g))
  {
    hide Inv, Less, SimLeft, ClientLeft, SimOk, HistOk, ClientOk, CmdOk, Config.Valid, LinkUp;
    InvDesk(cfg, g);
    CmdRootConnect(cfg, g.hist, g.taken, g.vsent, DeskOf(g));
    SimDrop(cfg, 0, g.sims[0], RootConnect(cfg, g).sims[0]);
    SimStepLess(cfg, g, RootConnect(cfg, g), 0);
  }

  lemma RootCommandLess(cfg: Config, g: State)
    requires cfg.Valid() && Inv(cfg, g) && Shape(cfg, g) && cfg.M >= 1 && CanRootCommand(cfg, g)
    ensures Less(cfg, g, RootCommand(cfg, g))
  {
    hide Inv, Less, SimLeft, ClientLeft, SimOk, HistOk, ClientOk, CmdOk, Config.Valid, LinkUp;
    InvDesk(cfg, g);
    CmdRootCommand(cfg, g.hist, g.taken, g.vsent, DeskOf(g));
    SimDrop(cfg, 0, g.sims[0], RootCommand(cfg, g).sims[0]);
    SimStepLess(cfg, g, RootCommand(cfg, g), 0);
  }

  lemma FinConnectLess(cfg: Config, g: State)
    requires cfg.Valid() && Inv(cfg, g) && Shape(cfg, g) && cfg.M >= 1 && CanFinConnect(cfg, g)
    ensures Less(cfg, g, FinConnect(cfg, g))
  {
    hide Inv, Less, SimLeft, ClientLeft, SimOk, HistOk, ClientOk, CmdOk, Config.Valid, LinkUp;
    InvDesk(cfg, g);
    CmdFinConnect(cfg, g.hist, g.taken, g.vsent, DeskOf(g));
    SimDrop(cfg, 0, g.sims[0], FinConnect(cfg, g).sims[0]);
    SimStepLess(cfg, g, FinConnect(cfg, g), 0);
  }

  lemma FinCommandLess(cfg: Config, g: State)
    requires cfg.Valid() && Inv(cfg, g) && Shape(cfg, g) && cfg.M >= 1 && CanFinCommand(cfg, g)
    ensures Less(cfg, g, FinCommand(cfg, g))
  {
    hide Inv, Less, SimLeft, ClientLeft, SimOk, HistOk, ClientOk, CmdOk, Config.Valid, LinkUp;
    InvDesk(cfg, g);
    CmdFinCommand(cfg, g.hist, g.taken, g.vsent, DeskOf(g));
    SimDrop(cfg, 0, g.sims[0], FinCommand(cfg, g).sims[0]);
    SimStepLess(cfg, g, FinCommand(cfg, g), 0);
  }

  lemma ConnectedLess(cfg: Config, g: State)
    requires cfg.Valid() && Inv(cfg, g) && Shape(cfg, g) && cfg.M >= 1 && CanConnected(cfg, g, 0)
    ensures Less(cfg, g, Connected(cfg, g, 0))
  {
    hide Inv, Less, SimLeft, ClientLeft, SimOk, HistOk, ClientOk, CmdOk, Config.Valid, LinkUp;
    InvDesk(cfg, g);
    SimDrop(cfg, 0, g.sims[0], Connected(cfg, g, 0).sims[0]);
    SimStepLess(cfg, g, Connected(cfg, g, 0), 0);
  }

  lemma RootLess(cfg: Config, g: State, a: Action)
    requires cfg.Valid() && Inv(cfg, g) && Shape(cfg, g) && Enabled(cfg, g, a)
    requires a.ARootConnect? || a.ARootCommand? || a.AFinConnect? || a.AFinCommand? || (a == AConnected(0))
    ensures Less(cfg, g, Apply(cfg, g, a))
  {
    hide Inv, Less, Config.Valid, RootConnect, RootCommand, FinConnect, FinCommand, Connected;
    OwnerZero(cfg);
    match a {
      case ARootConnect => RootConnectLess(cfg, g);
      case ARootCommand => RootCommandLess(cfg, g);
      case AFinConnect => FinConnectLess(cfg, g);
      case AFinCommand => FinCommandLess(cfg, g);
      case AConnected(_) => ConnectedLess(cfg, g);
      case _ =>
    }
  }

  lemma RestLess(cfg: Config, g: State, a: Action)
    requires cfg.Valid() && Inv(cfg, g) && Shape(cfg, g) && Enabled(cfg, g, a)
    requires a.ARecord? || a.ARootIdle? || a.AStop? || a.AFinNone?
    ensures Less(cfg, g, Apply(cfg, g, a))
  {
    hide Inv, Measure, SimLeft, ClientLeft, SimOk, HistOk, ClientOk, CmdOk, Config.Valid;
    InvDesk(cfg, g);
    var g' := Apply(cfg, g, a);
    if a.AFinNone? {
      CmdFinNone(cfg, g.hist, g.taken, g.vsent, DeskOf(g));
    }
    if a.ARecord? { RecordSame(cfg, g.sims[0], g'.sims[0]); } else { SimDrop(cfg, 0, g.sims[0], g'.sims[0]); }
    SimStepLess(cfg, g, g', 0);
  }

  lemma RecordSame(cfg: Config, sim: SimRank, sim': SimRank)
    requires cfg.Valid() && sim'.pc == sim.pc && sim'.calls == sim.calls
    ensures SimLeft(cfg, 0, sim') == SimLeft(cfg, 0, sim)
  {
  }

  lemma HaveLess(cfg: Config, g: State, s: nat)
    requires cfg.Valid() && Inv(cfg, g) && Shape(cfg, g) && CanHave(cfg, g, s)
    ensures Less(cfg, g, Have(cfg, g, s))
  {
    hide Inv, Less, SimLeft, ClientLeft, SimOk, FollowOk, Config.Valid, LinkUp;
    InvReplay(cfg, g, s);
    FollowerMoves(cfg, g.hist, g.taken, s, g.sims[s], g.bq[s]);
    ReplayHave(cfg, g.hist, g.taken, s, g.sims[s], g.bq[s]);
    SimDrop(cfg, s, g.sims[s], Have(cfg, g, s).sims[s]);
    SimStepLess(cfg, g, Have(cfg, g, s), s);
  }

  lemma HearLess(cfg: Config, g: State, s: nat)
    requires cfg.Valid() && Inv(cfg, g) && Shape(cfg, g) && CanCommand(cfg, g, s)
    ensures Less(cfg, g, FollowCommand(cfg, g, s))
  {
    hide Inv, Less, SimLeft, ClientLeft, SimOk, FollowOk, Config.Valid, LinkUp;
    InvReplay(cfg, g, s);
    FollowerMoves(cfg, g.hist, g.taken, s, g.sims[s], g.bq[s]);
    ReplayCommand(cfg, g.hist, g.taken, s, g.sims[s], g.bq[s]);
    SimDrop(cfg, s, g.sims[s], FollowCommand(cfg, g, s).sims[s]);
    SimStepLess(cfg, g, FollowCommand(cfg, g, s), s);
  }

  lemma PortLess(cfg: Config, g: State, s: nat)
    requires cfg.Valid() && Inv(cfg, g) && Shape(cfg, g) && CanPort(cfg, g, s)
    ensures Less(cfg, g, FollowPort(cfg, g, s))
  {
    hide Inv, Less, SimLeft, ClientLeft, SimOk, FollowOk, Config.Valid, LinkUp;
    InvReplay(cfg, g, s);
    FollowerMoves(cfg, g.hist, g.taken, s, g.sims[s], g.bq[s]);
    ReplayPort(cfg, g.hist, g.taken, s, g.sims[s], g.bq[s]);
    SimDrop(cfg, s, g.sims[s], FollowPort(cfg, g, s).sims[s]);
    SimStepLess(cfg, g, FollowPort(cfg, g, s), s);
  }

  lemma JoinLess(cfg: Config, g: State, s: nat)
    requires cfg.Valid() && Inv(cfg, g) && Shape(cfg, g) && CanConnected(cfg, g, s) && s > 0
    ensures Less(cfg, g, Connected(cfg, g, s))
  {
    hide Inv, Less, SimLeft, ClientLeft, SimOk, FollowOk, Config.Valid, LinkUp;
    InvReplay(cfg, g, s);
    FollowerMoves(cfg, g.hist, g.taken, s, g.sims[s], g.bq[s]);
    SimDrop(cfg, s, g.sims[s], Connected(cfg, g, s).sims[s]);
    SimStepLess(cfg, g, Connected(cfg, g, s), s);
  }

  lemma EndLess(cfg: Config, g: State, s: nat)
    requires cfg.Valid() && Inv(cfg, g) && Shape(cfg, g) && CanFollowFin(cfg, g, s)
    ensures Less(cfg, g, FollowFin(cfg, g, s))
  {
    hide Inv, Less, SimLeft, ClientLeft, SimOk, FollowOk, Config.Valid, LinkUp;
    InvReplay(cfg, g, s);
    FollowerMoves(cfg, g.hist, g.taken, s, g.sims[s], g.bq[s]);
    ReplayFin(cfg, g.hist, g.taken, s, g.sims[s], g.bq[s]);
    SimDrop(cfg, s, g.sims[s], FollowFin(cfg, g, s).sims[s]);
    SimStepLess(cfg, g, FollowFin(cfg, g, s), s);
  }

  lemma FollowerLess(cfg: Config, g: State, a: Action)
    requires cfg.Valid() && Inv(cfg, g) && Shape(cfg, g) && Enabled(cfg, g, a)
    requires a.AHave? || a.ACommand? || a.APort? || (a.AConnected? && a.s != 0) || a.AFollowFin?
    ensures Less(cfg, g, Apply(cfg, g, a))
  {
    hide Inv, Less, Config.Valid, Have, FollowCommand, FollowPort, Connected, FollowFin;
    match a {
      case AHave(s) => HaveLess(cfg, g, s);
      case ACommand(s) => HearLess(cfg, g, s);
      case APort(s) => PortLess(cfg, g, s);
      case AConnected(s) => JoinLess(cfg, g, s);
      case AFollowFin(s) => EndLess(cfg, g, s);
      case _ =>
    }
  }

  lemma FollowerMoves(cfg: Config, hist: seq<Event>, taken: seq<nat>, s: nat, sim: SimRank, q: seq<BMsg>)
    requires cfg.Valid() && s < cfg.M && ReplayOk(cfg, hist, taken, s, sim, q)
    ensures sim.calls <= |cfg.steps| && (sim.pc.AwaitCommand? ==> sim.calls < |cfg.steps|)
  {
    hide Stream;
  }

  lemma PingTakenLess(cfg: Config, g: State, s: nat, c: nat)
    requires cfg.Valid() && Inv(cfg, g) && Shape(cfg, g) && CanPing(cfg, g, s, c)
    ensures Less(cfg, g, TakePing(cfg, g, s, c))
  {
    hide Inv, Less, SimLeft, ClientLeft, SimOk, ClientOk, FramesAt, Config.Valid, Link;
    RootQueryTaken(cfg, g, s);
    ProbeFindsOwner(cfg, g, s, c);
    LinkTakePing(cfg, g.taken, s, g.sims[s], g.clients[c], Get(g.up, s, c), Get(g.down, s, c));
    SimDrop(cfg, s, g.sims[s], TakePing(cfg, g, s, c).sims[s]);
    SimStepLess(cfg, g, TakePing(cfg, g, s, c), s);
  }

  lemma SentLess(cfg: Config, g: State, s: nat)
    requires cfg.Valid() && Inv(cfg, g) && Shape(cfg, g) && CanSend(cfg, g, s)
    ensures Less(cfg, g, SendFrame(cfg, g, s))
  {
    hide Inv, Less, SimLeft, ClientLeft, SimOk, ClientOk, FramesAt, Config.Valid, Link;
    RootQueryTaken(cfg, g, s);
    SendDrop(cfg, s, g.sims[s]);
    SimStepLess(cfg, g, SendFrame(cfg, g, s), s);
  }

  lemma QueryLess(cfg: Config, g: State, a: Action)
    requires cfg.Valid() && Inv(cfg, g) && Shape(cfg, g) && Enabled(cfg, g, a) && (a.ATakePing? || a.ASend?)
    ensures Less(cfg, g, Apply(cfg, g, a))
  {
    hide Inv, Less, Config.Valid, TakePing, SendFrame;
    if a.ATakePing? { PingTakenLess(cfg, g, a.s, a.c); } else { SentLess(cfg, g, a.s); }
  }

  /** How much each move of a client rank is worth; a command or ping it sends costs 1. */
  lemma ClientDrop(cfg: Config, c: nat, cl: ClientRank, cl': ClientRank)
    requires cfg.Valid() && c < cfg.N && cl.op < |cfg.script|
    ensures (cl'.op == cl.op && cl.pc.Start? && (cl'.pc.AwaitVerdict? || cl'.pc.InBarrier?)) ==>
              ClientLeft(cfg, c, cl') + 2 <= ClientLeft(cfg, c, cl)
    ensures cl'.op == cl.op && cl.pc.AwaitVerdict? && cl'.pc.InBarrier? ==> ClientLeft(cfg, c, cl') < ClientLeft(cfg, c, cl)
    ensures cl'.op == cl.op && cl.pc.InBarrier? && cl'.pc.AwaitBcast? ==> ClientLeft(cfg, c, cl') < ClientLeft(cfg, c, cl)
    ensures (cl'.op == cl.op && (cl.pc.InBarrier? || cl.pc.AwaitBcast?)
            && (cl'.pc.Accepting? || (cl'.pc.Loop? && cl'.regions == []) || cl'.pc.Closed?)) ==>
              ClientLeft(cfg, c, cl') < ClientLeft(cfg, c, cl)
    ensures (cl'.op == cl.op && cl.pc.Accepting? && (cl'.pc.AwaitConnectVerdict? || cl'.pc.AwaitConnectBcast?)) ==>
              ClientLeft(cfg, c, cl') < ClientLeft(cfg, c, cl)
    ensures (cl'.op == cl.op && (cl.pc.AwaitConnectVerdict? || cl.pc.AwaitConnectBcast?) && cl'.pc.Closed?) ==>
              ClientLeft(cfg, c, cl') < ClientLeft(cfg, c, cl)
    ensures cl'.op == cl.op && cl.pc.Loop? && cl'.pc.InEndBarrier? ==> ClientLeft(cfg, c, cl') < ClientLeft(cfg, c, cl)
    ensures cl'.op == cl.op && cl.pc.Loop? && cl'.pc.AwaitFrames? && cl'.regions == cl.regions ==>
              ClientLeft(cfg, c, cl') + 2 <= ClientLeft(cfg, c, cl)
    ensures cl'.op == cl.op && cl.pc.AwaitFrames? && cl'.pc.AwaitFrames? && cl'.regions == cl.regions ==>
              ClientLeft(cfg, c, cl') == ClientLeft(cfg, c, cl)
    ensures cl'.op == cl.op && cl.pc.AwaitFrames? && cl'.pc.Loop? && |cl'.regions| == |cl.regions| + 1 && |cl.regions| < Share(cfg, c) ==>
              ClientLeft(cfg, c, cl') < ClientLeft(cfg, c, cl)
    ensures (cl'.op == cl.op + 1 && cl'.pc.Start?
            && (cl.pc.InBarrier? || cl.pc.AwaitBcast? || cl.pc.AwaitConnectVerdict? || cl.pc.AwaitConnectBcast? || cl.pc.InEndBarrier?)) ==>
              ClientLeft(cfg, c, cl') < ClientLeft(cfg, c, cl)
  {
    hide Share;
  }

  lemma ClientBounds(cfg: Config, g: State, c: nat)
    requires cfg.Valid() && Inv(cfg, g) && c < cfg.N
    ensures Shape(cfg, g) && cfg.M >= 1 && cfg.N >= 1 && |cfg.lo| == cfg.N + 1 && Owner(cfg, 0) == 0
    ensures !g.clients[c].pc.Start? ==> g.clients[c].op < |cfg.script|
  {
    OwnerZero(cfg);
    hide HistOk, FollowOk, VerdictAt, CmdOk, ResultOk, SimOk, QuitOk, OwnLink, Bcs, Bars;
    assert ClientOk(cfg, c, g.clients[c]);
  }

  lemma QueuedSame(cfg: Config, g: State, g': State)
    requires cfg.Valid() && g'.up == g.up && g'.down == g.down
    ensures forall i :: 0 <= i < cfg.M ==> Queued(cfg, g', i) == Queued(cfg, g, i)
  {
  }

  /** A client step without messages. */
  lemma QuietLess(cfg: Config, g: State, g': State, c: nat)
    requires cfg.Valid() && Shape(cfg, g) && Shape(cfg, g') && c < cfg.N && cfg.M >= 1
    requires g'.sims == g.sims && g'.clients == g.clients[c := g'.clients[c]] && g'.up == g.up && g'.down == g.down
    requires ClientLeft(cfg, c, g'.clients[c]) + (if g'.inbox.Some? then 1 else 0)
             < ClientLeft(cfg, c, g.clients[c]) + (if g.inbox.Some? then 1 else 0)
    ensures Less(cfg, g, g')
  {
    hide Queued, ClientLeft, Less, Config.Valid;
    QueuedSame(cfg, g, g');
    ClientStepLess(cfg, g, g', 0, c);
  }

  lemma StartLess(cfg: Config, g: State, c: nat)
    requires cfg.Valid() && Inv(cfg, g) && Shape(cfg, g) && CanStart(cfg, g, c)
    ensures Less(cfg, g, StartOp(cfg, g, c))
  {
    hide Inv, Less, ClientLeft, Config.Valid;
    OwnerZero(cfg);
    var g' := StartOp(cfg, g, c);
    ClientDrop(cfg, c, g.clients[c], g'.clients[c]);
    if c != 0 || cfg.script[g.clients[c].op] == CONNECT {
      QuietLess(cfg, g, g', c);
    } else {
      CommandQueued(cfg, g, g'.clients[0], Code(cfg.script[g.clients[0].op]));
      hide Queued, Push;
      ClientStepLess(cfg, g, g', 0, 0);
    }
  }

  lemma CommandQueued(cfg: Config, g: State, cl: ClientRank, code: int)
    requires cfg.Valid() && |g.clients| > 0 && Owner(cfg, 0) == 0
    ensures var g' := SetClient(g, 0, cl).(up := Push(g.up, 0, 0, CommandMsg(code)));
            && (forall i :: 0 < i < cfg.M ==> Queued(cfg, g', i) == Queued(cfg, g, i))
            && (cfg.M > 0 ==> Queued(cfg, g', 0) == Queued(cfg, g, 0) + 1)
  {
    hide Config.Valid;
  }

  lemma VerdictLess(cfg: Config, g: State, a: Action)
    requires cfg.Valid() && Inv(cfg, g) && Shape(cfg, g) && Enabled(cfg, g, a)
    requires a.AVerdict? || a.AConnectVerdict?
    ensures Less(cfg, g, Apply(cfg, g, a))
  {
    hide Inv, Measure, SimLeft, ClientLeft, Config.Valid;
    OwnerZero(cfg);
    var c := 0;
    ClientBounds(cfg, g, c);
    var g' := Apply(cfg, g, a);
    VerdictWaits(cfg, g);
    ClientDrop(cfg, c, g.clients[c], g'.clients[c]);
    ClientStepLess(cfg, g, g', 0, c);
  }

  lemma LeaveDrop(cfg: Config, g: State, c: nat)
    requires cfg.Valid() && Inv(cfg, g) && Shape(cfg, g) && CanLeave(cfg, g, c)
    ensures ClientLeft(cfg, c, Leave(cfg, g, c).clients[c]) < ClientLeft(cfg, c, g.clients[c])
  {
    hide Inv, ClientLeft, Config.Valid, AllArrived;
    ClientDrop(cfg, c, g.clients[c], Leave(cfg, g, c).clients[c]);
  }

  lemma LeaveLess(cfg: Config, g: State, c: nat)
    requires cfg.Valid() && Inv(cfg, g) && Shape(cfg, g) && CanLeave(cfg, g, c)
    ensures Less(cfg, g, Leave(cfg, g, c))
  {
    hide Inv, Less, SimLeft, ClientLeft, Config.Valid, AllArrived, Queued, AfterCommand;
    OwnerZero(cfg);
    LeaveDrop(cfg, g, c);
    QuietLess(cfg, g, Leave(cfg, g, c), c);
  }

  lemma BcastLess(cfg: Config, g: State, c: nat)
    requires cfg.Valid() && Inv(cfg, g) && Shape(cfg, g) && CanReadBcast(cfg, g, c)
    ensures Less(cfg, g, ReadBcast(cfg, g, c))
  {
    hide Inv, Less, SimLeft, ClientLeft, Config.Valid;
    OwnerZero(cfg);
    ClientBounds(cfg, g, c);
    var g' := ReadBcast(cfg, g, c);
    ClientDrop(cfg, c, g.clients[c], g'.clients[c]);
    QuietLess(cfg, g, g', c);
  }

  lemma AcceptLess(cfg: Config, g: State, c: nat)
    requires cfg.Valid() && Inv(cfg, g) && Shape(cfg, g) && CanAccept(cfg, g, c)
    ensures Less(cfg, g, Accept(cfg, g, c))
  {
    hide Inv, Less, SimLeft, ClientLeft, Config.Valid;
    OwnerZero(cfg);
    ClientBounds(cfg, g, c);
    var g' := Accept(cfg, g, c);
    ClientDrop(cfg, c, g.clients[c], g'.clients[c]);
    QuietLess(cfg, g, g', c);
  }

  lemma ConnectLess(cfg: Config, g: State, c: nat)
    requires cfg.Valid() && Inv(cfg, g) && Shape(cfg, g) && CanConnectBcast(cfg, g, c)
    ensures Less(cfg, g, ConnectBcast(cfg, g, c))
  {
    hide Inv, Less, SimLeft, ClientLeft, Config.Valid;
    OwnerZero(cfg);
    ClientBounds(cfg, g, c);
    var g' := ConnectBcast(cfg, g, c);
    ClientDrop(cfg, c, g.clients[c], g'.clients[c]);
    QuietLess(cfg, g, g', c);
  }

  lemma EndLoopLess(cfg: Config, g: State, c: nat)
    requires cfg.Valid() && Inv(cfg, g) && Shape(cfg, g) && CanEndLoop(cfg, g, c)
    ensures Less(cfg, g, EndLoop(cfg, g, c))
  {
    hide Inv, Less, SimLeft, ClientLeft, Config.Valid;
    OwnerZero(cfg);
    ClientBounds(cfg, g, c);
    var g' := EndLoop(cfg, g, c);
    ClientDrop(cfg, c, g.clients[c], g'.clients[c]);
    QuietLess(cfg, g, g', c);
  }

  lemma ReturnLess(cfg: Config, g: State, c: nat)
    requires cfg.Valid() && Inv(cfg, g) && Shape(cfg, g) && CanReturn(cfg, g, c)
    ensures Less(cfg, g, Return(cfg, g, c))
  {
    hide Inv, Less, SimLeft, ClientLeft, Config.Valid;
    OwnerZero(cfg);
    ClientBounds(cfg, g, c);
    var g' := Return(cfg, g, c);
    ClientDrop(cfg, c, g.clients[c], g'.clients[c]);
    QuietLess(cfg, g, g', c);
  }

  lemma PingLess(cfg: Config, g: State, c: nat)
    requires cfg.Valid() && Inv(cfg, g) && Shape(cfg, g) && CanPingSim(cfg, g, c)
    ensures Less(cfg, g, PingSim(cfg, g, c))
  {
    hide Inv, Measure, SimLeft, ClientLeft, Config.Valid, Link;
    ClientBounds(cfg, g, c);
    QuietBeforePing(cfg, g, c);
    var g' := PingSim(cfg, g, c);
    ClientDrop(cfg, c, g.clients[c], g'.clients[c]);
    ClientStepLess(cfg, g, g', Target(cfg, g.clients[c], c), c);
  }

  lemma RecvLess(cfg: Config, g: State, c: nat)
    requires cfg.Valid() && Inv(cfg, g) && Shape(cfg, g) && CanRecv(cfg, g, c)
    ensures Less(cfg, g, RecvFrame(cfg, g, c))
  {
    hide Inv, Measure, SimLeft, ClientLeft, ClientOk, ResultOk, Config.Valid, OwnLink, Complete, Expects, Assemble;
    ClientBounds(cfg, g, c);
    WaitsForOwn(cfg, g, c);
    RecvEffect(cfg, g, c);
    var g' := RecvFrame(cfg, g, c);
    ClientDrop(cfg, c, g.clients[c], g'.clients[c]);
    ClientStepLess(cfg, g, g', Target(cfg, g.clients[c], c), c);
  }

  lemma QuietActionLess(cfg: Config, g: State, a: Action)
    requires cfg.Valid() && Inv(cfg, g) && Shape(cfg, g) && Enabled(cfg, g, a)
    requires a.AStart? || a.ALeave? || a.AReadBcast? || a.AAccept? || a.AConnectBcast? || a.APing? || a.ARecv? || a.AEndLoop? || a.AReturn?
    ensures Less(cfg, g, Apply(cfg, g, a))
  {
    hide Inv, Less, Config.Valid, StartOp, Leave, ReadBcast, Accept, ConnectBcast, PingSim, RecvFrame, EndLoop, Return;
    match a {
      case AStart(c) => StartLess(cfg, g, c);
      case ALeave(c) => LeaveLess(cfg, g, c);
      case AReadBcast(c) => BcastLess(cfg, g, c);
      case AAccept(c) => AcceptLess(cfg, g, c);
      case AConnectBcast(c) => ConnectLess(cfg, g, c);
      case APing(c) => PingLess(cfg, g, c);
      case ARecv(c) => RecvLess(cfg, g, c);
      case AEndLoop(c) => EndLoopLess(cfg, g, c);
      case AReturn(c) => ReturnLess(cfg, g, c);
    }
  }

  lemma StepDecreases(cfg: Config, g: State, a: Action)
    requires cfg.Valid() && Inv(cfg, g) && Shape(cfg, g) && Enabled(cfg, g, a)
    ensures Shape(cfg, Apply(cfg, g, a)) && Measure(cfg, Apply(cfg, g, a)) < Measure(cfg, g)
  {
    hide Measure, Inv, Config.Valid, Apply, Enabled;
    KeepStep(cfg, g, a);
    ShapeOf(cfg, Apply(cfg, g, a));
    match a {
      case ARecord | ARootIdle | AStop | AFinNone => RestLess(cfg, g, a);
      case ARootConnect | ARootCommand | AFinConnect | AFinCommand => RootLess(cfg, g, a);
      case AConnected(s) => if s == 0 { RootLess(cfg, g, a); } else { FollowerLess(cfg, g, a); }
      case AHave(_) | ACommand(_) | APort(_) | AFollowFin(_) => FollowerLess(cfg, g, a);
      case ATakePing(_, _) | ASend(_) => QueryLess(cfg, g, a);
      case AVerdict | AConnectVerdict => VerdictLess(cfg, g, a);
      case _ => QuietActionLess(cfg, g, a);
    }
  }

  /** No run has more steps than the measure of the initial state: in particular every query ends. */
  lemma {:induction false} RunsAreBounded(cfg: Config, gs: seq<State>, acts: seq<Action>, i: nat)
    requires cfg.Valid() && IsRun(cfg, gs, acts) && i <= |acts|
    ensures Shape(cfg, gs[i]) && Shape(cfg, Init(cfg))
    ensures i + Measure(cfg, gs[i]) <= Measure(cfg, Init(cfg))
  {
    hide Measure, Inv, Config.Valid, Enabled, Apply;
    RunInv(cfg, gs, acts, i);
    ShapeOf(cfg, gs[i]);
    if i > 0 {
      RunsAreBounded(cfg, gs, acts, i - 1);
      RunInv(cfg, gs, acts, i - 1);
      StepDecreases(cfg, gs[i-1], acts[i-1]);
    }
  }
}
