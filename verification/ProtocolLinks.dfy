/** Whoever has got through a connect or an accept proves that the link was up, so everyone else
    still waiting there can get through as well. */
module ProtocolLinks {
  import opened SimStates
  import opened Protocol
  import opened ProtocolFrames
  import opened ProtocolInvariant
  import opened ProtocolSafety
  import opened ProtocolCommands
  import opened ProtocolFollowers
  import opened ProtocolSteps
  import opened ProtocolClientSteps
  import opened ProtocolTheorems

  /** This client rank has been through accept on port q. */
  predicate Past(cl: ClientRank, q: nat) {
    cl.op > q || (cl.op == q && (cl.pc.AwaitConnectVerdict? || cl.pc.AwaitConnectBcast? || cl.pc.Closed?))
  }

  ghost predicate LinkedAt(cfg: Config, g: State, q: nat)
    requires Shape(cfg, g) && cfg.M >= 1
  {
    (Comp(g.sims[0]) > q || (exists c :: 0 <= c < cfg.N && Past(g.clients[c], q))) ==> LinkUp(cfg, g, q)
  }

  /** Whoever is past a connect or accept proves that the link was up. */
  ghost predicate Linked(cfg: Config, g: State)
    requires Shape(cfg, g) && cfg.M >= 1
  {
    forall q :: 0 <= q < |cfg.script| && cfg.script[q] == CONNECT ==> LinkedAt(cfg, g, q)
  }

  /** One step: dialed ports and reached accepts are kept, and nobody gets past a link that is down. */
  ghost predicate Grows(cfg: Config, g: State, g': State)
    requires Shape(cfg, g) && Shape(cfg, g') && cfg.M >= 1
  {
    && (forall s :: 0 <= s < cfg.M ==> g.sims[s].dialed <= g'.sims[s].dialed)
    && (forall c, q :: 0 <= c < cfg.N && 0 <= q < |cfg.script| && cfg.script[q] == CONNECT && Reached(g.clients[c], q)
          ==> Reached(g'.clients[c], q))
    && (forall c, q :: 0 <= c < cfg.N && 0 <= q < |cfg.script| && cfg.script[q] == CONNECT && Past(g'.clients[c], q)
          ==> Past(g.clients[c], q) || LinkUp(cfg, g, q))
    && (forall q :: 0 <= q < |cfg.script| && cfg.script[q] == CONNECT && Comp(g'.sims[0]) > q
          ==> Comp(g.sims[0]) > q || LinkUp(cfg, g, q))
  }

  lemma LinkedGrows(cfg: Config, g: State, g': State)
    requires Shape(cfg, g) && Shape(cfg, g') && cfg.M >= 1 && Linked(cfg, g) && Grows(cfg, g, g')
    ensures Linked(cfg, g')
  {
    hide Past, Reached, Comp;
    forall q | 0 <= q < |cfg.script| && cfg.script[q] == CONNECT ensures LinkedAt(cfg, g', q) {
      assert LinkedAt(cfg, g, q);
    }
  }

  /** How one simulation rank moves. */
  lemma SimGrows(cfg: Config, g: State, g': State, s: nat)
    requires Shape(cfg, g) && Shape(cfg, g') && cfg.M >= 1 && s < cfg.M
    requires g'.clients == g.clients && g'.sims == g.sims[s := g'.sims[s]] && g.sims[s].dialed <= g'.sims[s].dialed
    requires s == 0 ==> forall q :: 0 <= q < |cfg.script| && cfg.script[q] == CONNECT && Comp(g'.sims[0]) > q
                          ==> Comp(g.sims[0]) > q || LinkUp(cfg, g, q)
    ensures Grows(cfg, g, g')
  {
    hide Past, Reached, LinkUp, Comp;
  }

  /** How one client rank moves. */
  ghost predicate ClientGrows(cfg: Config, g: State, cl: ClientRank, cl': ClientRank)
    requires Shape(cfg, g)
  {
    forall q :: 0 <= q < |cfg.script| && cfg.script[q] == CONNECT ==>
      (Reached(cl, q) ==> Reached(cl', q)) && (Past(cl', q) ==> Past(cl, q) || LinkUp(cfg, g, q))
  }

  lemma OneClientGrows(cfg: Config, g: State, g': State, c: nat)
    requires Shape(cfg, g) && Shape(cfg, g') && cfg.M >= 1 && c < cfg.N
    requires g'.sims == g.sims && g'.clients == g.clients[c := g'.clients[c]] && ClientGrows(cfg, g, g.clients[c], g'.clients[c])
    ensures Grows(cfg, g, g')
  {
    hide Past, Reached, LinkUp, Comp;
  }

  lemma RootConnectGrows(cfg: Config, g: State)
    requires cfg.Valid() && Inv(cfg, g) && Shape(cfg, g) && cfg.M >= 1 && CanRootConnect(cfg, g)
    ensures Shape(cfg, RootConnect(cfg, g)) && Grows(cfg, g, RootConnect(cfg, g))
  {
    hide Inv, HistOk, ClientOk, CmdOk, Config.Valid, LinkUp, Grows;
    InvDesk(cfg, g);
    CmdRootConnect(cfg, g.hist, g.taken, g.vsent, DeskOf(g));
    SimGrows(cfg, g, RootConnect(cfg, g), 0);
  }

  lemma RootCommandGrows(cfg: Config, g: State)
    requires cfg.Valid() && Inv(cfg, g) && Shape(cfg, g) && cfg.M >= 1 && CanRootCommand(cfg, g)
    ensures Shape(cfg, RootCommand(cfg, g)) && Grows(cfg, g, RootCommand(cfg, g))
  {
    hide Inv, HistOk, ClientOk, CmdOk, Config.Valid, LinkUp, Grows;
    InvDesk(cfg, g);
    CmdRootCommand(cfg, g.hist, g.taken, g.vsent, DeskOf(g));
    SimGrows(cfg, g, RootCommand(cfg, g), 0);
  }

  lemma FinConnectGrows(cfg: Config, g: State)
    requires cfg.Valid() && Inv(cfg, g) && Shape(cfg, g) && cfg.M >= 1 && CanFinConnect(cfg, g)
    ensures Shape(cfg, FinConnect(cfg, g)) && Grows(cfg, g, FinConnect(cfg, g))
  {
    hide Inv, HistOk, ClientOk, CmdOk, Config.Valid, LinkUp, Grows;
    InvDesk(cfg, g);
    CmdFinConnect(cfg, g.hist, g.taken, g.vsent, DeskOf(g));
    SimGrows(cfg, g, FinConnect(cfg, g), 0);
  }

  lemma FinCommandGrows(cfg: Config, g: State)
    requires cfg.Valid() && Inv(cfg, g) && Shape(cfg, g) && cfg.M >= 1 && CanFinCommand(cfg, g)
    ensures Shape(cfg, FinCommand(cfg, g)) && Grows(cfg, g, FinCommand(cfg, g))
  {
    hide Inv, HistOk, ClientOk, CmdOk, Config.Valid, LinkUp, Grows;
    InvDesk(cfg, g);
    CmdFinCommand(cfg, g.hist, g.taken, g.vsent, DeskOf(g));
    SimGrows(cfg, g, FinCommand(cfg, g), 0);
  }

  lemma ConnectedGrows(cfg: Config, g: State)
    requires cfg.Valid() && Inv(cfg, g) && Shape(cfg, g) && cfg.M >= 1 && CanConnected(cfg, g, 0)
    ensures Shape(cfg, Connected(cfg, g, 0)) && Grows(cfg, g, Connected(cfg, g, 0))
  {
    hide Inv, HistOk, ClientOk, CmdOk, Config.Valid, LinkUp, Grows;
    InvDesk(cfg, g);
    SimGrows(cfg, g, Connected(cfg, g, 0), 0);
  }

  lemma GrowsRoot(cfg: Config, g: State, a: Action)
    requires cfg.Valid() && Inv(cfg, g) && Shape(cfg, g) && Enabled(cfg, g, a)
    requires a.ARootConnect? || a.ARootCommand? || a.AFinConnect? || a.AFinCommand? || a == AConnected(0)
    ensures Shape(cfg, Apply(cfg, g, a)) && Grows(cfg, g, Apply(cfg, g, a))
  {
    hide Inv, Config.Valid, Grows, RootConnect, RootCommand, FinConnect, FinCommand, Connected;
    OwnerZero(cfg);
    match a {
      case ARootConnect => RootConnectGrows(cfg, g);
      case ARootCommand => RootCommandGrows(cfg, g);
      case AFinConnect => FinConnectGrows(cfg, g);
      case AFinCommand => FinCommandGrows(cfg, g);
      case AConnected(_) => ConnectedGrows(cfg, g);
      case _ =>
    }
  }

  lemma DialsMore(cfg: Config, g: State, a: Action)
    requires cfg.Valid() && Shape(cfg, g) && Enabled(cfg, g, a)
    requires a.AHave? || a.ACommand? || a.APort? || (a.AConnected? && a.s != 0) || a.AFollowFin?
    ensures 0 < a.s < cfg.M && Shape(cfg, Apply(cfg, g, a)) && g.sims[a.s].dialed <= Apply(cfg, g, a).sims[a.s].dialed
  {
    hide Config.Valid, LinkUp;
  }

  lemma GrowsFollower(cfg: Config, g: State, a: Action)
    requires cfg.Valid() && Inv(cfg, g) && Shape(cfg, g) && Enabled(cfg, g, a)
    requires a.AHave? || a.ACommand? || a.APort? || (a.AConnected? && a.s != 0) || a.AFollowFin?
    ensures Shape(cfg, Apply(cfg, g, a)) && Grows(cfg, g, Apply(cfg, g, a))
  {
    hide Inv, Config.Valid, Enabled, Apply, Grows;
    SimStepFrame(cfg, g, a);
    DialsMore(cfg, g, a);
    SimGrows(cfg, g, Apply(cfg, g, a), a.s);
  }

  lemma GrowsQuiet(cfg: Config, g: State, a: Action)
    requires cfg.Valid() && Inv(cfg, g) && Shape(cfg, g) && Enabled(cfg, g, a)
    requires a.ARecord? || a.ARootIdle? || a.AStop? || a.AFinNone?
    ensures Shape(cfg, Apply(cfg, g, a)) && Grows(cfg, g, Apply(cfg, g, a))
  {
    hide Inv, Config.Valid, LinkUp, Grows;
    OwnerZero(cfg);
    SimGrows(cfg, g, Apply(cfg, g, a), 0);
  }

  lemma GrowsQuery(cfg: Config, g: State, a: Action)
    requires cfg.Valid() && Inv(cfg, g) && Shape(cfg, g) && Enabled(cfg, g, a) && (a.ATakePing? || a.ASend?)
    ensures Shape(cfg, Apply(cfg, g, a)) && Grows(cfg, g, Apply(cfg, g, a))
  {
    hide Inv, Config.Valid, LinkUp, SimOk, Link, FramesAt, Grows;
    OwnerZero(cfg);
    RootQueryTaken(cfg, g, a.s);
    SimGrows(cfg, g, Apply(cfg, g, a), a.s);
  }

  lemma GrowsRest(cfg: Config, g: State, a: Action)
    requires cfg.Valid() && Inv(cfg, g) && Shape(cfg, g) && Enabled(cfg, g, a)
    requires a.ARecord? || a.ARootIdle? || a.AStop? || a.AFinNone? || a.ATakePing? || a.ASend?
             || a.AHave? || a.ACommand? || a.APort? || (a.AConnected? && a.s != 0) || a.AFollowFin?
    ensures Shape(cfg, Apply(cfg, g, a)) && Grows(cfg, g, Apply(cfg, g, a))
  {
    hide Inv, Config.Valid, Enabled, Apply, Grows;
    match a {
      case ARecord | ARootIdle | AStop | AFinNone => GrowsQuiet(cfg, g, a);
      case ATakePing(_, _) | ASend(_) => GrowsQuery(cfg, g, a);
      case _ => GrowsFollower(cfg, g, a);
    }
  }

  lemma AtConnect(cfg: Config, g: State, c: nat)
    requires cfg.Valid() && Inv(cfg, g) && c < cfg.N
    ensures Shape(cfg, g)
    ensures var cl := g.clients[c];
            && (cl.pc.AwaitVerdict? || InQuery(cl.pc) ==> cl.op < |cfg.script| && cfg.script[cl.op] != CONNECT)
            && (cl.pc.AwaitConnectVerdict? || cl.pc.AwaitConnectBcast? || cl.pc.Accepting? ==> cl.op < |cfg.script| && cfg.script[cl.op] == CONNECT)
  {
    hide HistOk, FollowOk, VerdictAt, CmdOk, ResultOk, SimOk, QuitOk, OwnLink, Bcs, Bars;
    assert ClientOk(cfg, c, g.clients[c]);
  }

  lemma GrowsVerdict(cfg: Config, g: State, a: Action)
    requires cfg.Valid() && Inv(cfg, g) && Shape(cfg, g) && Enabled(cfg, g, a) && (a.AVerdict? || a.AConnectVerdict?)
    ensures Shape(cfg, Apply(cfg, g, a)) && Grows(cfg, g, Apply(cfg, g, a))
  {
    hide Inv, Config.Valid, LinkUp, Grows;
    OwnerZero(cfg);
    VerdictWaits(cfg, g);
    AtConnect(cfg, g, 0);
    OneClientGrows(cfg, g, Apply(cfg, g, a), 0);
  }

  /** Neither starting a command nor the broadcast that sendCommand ends with gets anybody past an accept. */
  lemma CommandGrows(cfg: Config, g: State, cl: ClientRank, cl': ClientRank)
    requires Shape(cfg, g) && cl.op < |cfg.script| && !Past(cl, cl.op) && !cl.pc.Accepting?
    requires || (cl'.op == cl.op && (cl'.pc.InBarrier? || cl'.pc.AwaitVerdict? || cl'.pc.AwaitBcast?))
             || cl' == AfterCommand(cfg.script[cl.op], cl.(nb := cl'.nb, quit := cl'.quit))
    ensures ClientGrows(cfg, g, cl, cl')
  {
    hide LinkUp;
  }

  lemma GrowsStart(cfg: Config, g: State, c: nat)
    requires cfg.Valid() && Shape(cfg, g) && CanStart(cfg, g, c) && cfg.M >= 1
    ensures Shape(cfg, StartOp(cfg, g, c)) && Grows(cfg, g, StartOp(cfg, g, c))
  {
    hide Config.Valid, LinkUp, Grows, ClientGrows;
    var g' := StartOp(cfg, g, c);
    CommandGrows(cfg, g, g.clients[c], g'.clients[c]);
    hide Past;
    OneClientGrows(cfg, g, g', c);
  }

  lemma GrowsLeave(cfg: Config, g: State, c: nat)
    requires cfg.Valid() && Shape(cfg, g) && CanLeave(cfg, g, c) && cfg.M >= 1
    ensures Shape(cfg, Leave(cfg, g, c)) && Grows(cfg, g, Leave(cfg, g, c))
  {
    hide Config.Valid, LinkUp, Grows, ClientGrows, AllArrived;
    var g' := Leave(cfg, g, c);
    CommandGrows(cfg, g, g.clients[c], g'.clients[c]);
    hide Past;
    OneClientGrows(cfg, g, g', c);
  }

  lemma GrowsReadBcast(cfg: Config, g: State, c: nat)
    requires cfg.Valid() && Shape(cfg, g) && CanReadBcast(cfg, g, c) && cfg.M >= 1
    ensures Shape(cfg, ReadBcast(cfg, g, c)) && Grows(cfg, g, ReadBcast(cfg, g, c))
  {
    hide Config.Valid, LinkUp, Grows, ClientGrows;
    var g' := ReadBcast(cfg, g, c);
    CommandGrows(cfg, g, g.clients[c], g'.clients[c]);
    hide Past;
    OneClientGrows(cfg, g, g', c);
  }

  lemma GrowsCommand(cfg: Config, g: State, a: Action)
    requires cfg.Valid() && Inv(cfg, g) && Shape(cfg, g) && Enabled(cfg, g, a)
    requires a.AStart? || a.ALeave? || a.AReadBcast?
    ensures Shape(cfg, Apply(cfg, g, a)) && Grows(cfg, g, Apply(cfg, g, a))
  {
    hide Inv, Config.Valid, Grows, CanStart, CanLeave, CanReadBcast, StartOp, Leave, ReadBcast;
    OwnerZero(cfg);
    match a {
      case AStart(c) => GrowsStart(cfg, g, c);
      case ALeave(c) => GrowsLeave(cfg, g, c);
      case AReadBcast(c) => GrowsReadBcast(cfg, g, c);
      case _ =>
    }
  }

  lemma AcceptGrows(cfg: Config, g: State, c: nat)
    requires cfg.Valid() && Inv(cfg, g) && Shape(cfg, g) && CanAccept(cfg, g, c)
    ensures Shape(cfg, Accept(cfg, g, c)) && Grows(cfg, g, Accept(cfg, g, c))
  {
    hide Inv, Config.Valid, LinkUp, AllArrived, Grows;
    OwnerZero(cfg);
    AtConnect(cfg, g, c);
    OneClientGrows(cfg, g, Accept(cfg, g, c), c);
  }

  lemma ConnectBcastGrows(cfg: Config, g: State, c: nat)
    requires cfg.Valid() && Inv(cfg, g) && Shape(cfg, g) && CanConnectBcast(cfg, g, c)
    ensures Shape(cfg, ConnectBcast(cfg, g, c)) && Grows(cfg, g, ConnectBcast(cfg, g, c))
  {
    hide Inv, Config.Valid, LinkUp, AllArrived, Grows;
    OwnerZero(cfg);
    AtConnect(cfg, g, c);
    OneClientGrows(cfg, g, ConnectBcast(cfg, g, c), c);
  }

  lemma EndLoopGrows(cfg: Config, g: State, c: nat)
    requires cfg.Valid() && Inv(cfg, g) && Shape(cfg, g) && |cfg.lo| == cfg.N + 1 && CanEndLoop(cfg, g, c)
    ensures Shape(cfg, EndLoop(cfg, g, c)) && Grows(cfg, g, EndLoop(cfg, g, c))
  {
    hide Inv, Config.Valid, LinkUp, AllArrived, Grows;
    OwnerZero(cfg);
    AtConnect(cfg, g, c);
    OneClientGrows(cfg, g, EndLoop(cfg, g, c), c);
  }

  lemma ReturnGrows(cfg: Config, g: State, c: nat)
    requires cfg.Valid() && Inv(cfg, g) && Shape(cfg, g) && CanReturn(cfg, g, c)
    ensures Shape(cfg, Return(cfg, g, c)) && Grows(cfg, g, Return(cfg, g, c))
  {
    hide Inv, Config.Valid, LinkUp, AllArrived, Grows;
    OwnerZero(cfg);
    AtConnect(cfg, g, c);
    OneClientGrows(cfg, g, Return(cfg, g, c), c);
  }

  lemma GrowsConnect(cfg: Config, g: State, a: Action)
    requires cfg.Valid() && Inv(cfg, g) && Shape(cfg, g) && Enabled(cfg, g, a)
    requires a.AAccept? || a.AConnectBcast? || a.AEndLoop? || a.AReturn?
    ensures Shape(cfg, Apply(cfg, g, a)) && Grows(cfg, g, Apply(cfg, g, a))
  {
    hide Inv, Config.Valid, Grows, CanAccept, CanConnectBcast, CanEndLoop, CanReturn, Accept, ConnectBcast, EndLoop, Return;
    OwnerZero(cfg);
    match a {
      case AAccept(c) => AcceptGrows(cfg, g, c);
      case AConnectBcast(c) => ConnectBcastGrows(cfg, g, c);
      case AEndLoop(c) => EndLoopGrows(cfg, g, c);
      case AReturn(c) => ReturnGrows(cfg, g, c);
      case _ =>
    }
  }

  lemma GrowsLoop(cfg: Config, g: State, a: Action)
    requires cfg.Valid() && Inv(cfg, g) && Shape(cfg, g) && Enabled(cfg, g, a) && (a.APing? || a.ARecv?)
    ensures Shape(cfg, Apply(cfg, g, a)) && Grows(cfg, g, Apply(cfg, g, a))
  {
    hide Inv, Config.Valid, LinkUp, Assemble, Complete, Expects, Grows;
    OwnerZero(cfg);
    AtConnect(cfg, g, a.c);
    OneClientGrows(cfg, g, Apply(cfg, g, a), a.c);
  }

  lemma GrowsStep(cfg: Config, g: State, a: Action)
    requires cfg.Valid() && Inv(cfg, g) && Shape(cfg, g) && Enabled(cfg, g, a) && cfg.M >= 1
    ensures Shape(cfg, Apply(cfg, g, a)) && Grows(cfg, g, Apply(cfg, g, a))
  {
    hide Inv, Config.Valid, Grows, Apply, Enabled;
    match a {
      case ARootConnect | ARootCommand | AFinConnect | AFinCommand => GrowsRoot(cfg, g, a);
      case AConnected(s) => if s == 0 { GrowsRoot(cfg, g, a); } else { GrowsRest(cfg, g, a); }
      case APing(_) | ARecv(_) => GrowsLoop(cfg, g, a);
      case AVerdict | AConnectVerdict => GrowsVerdict(cfg, g, a);
      case AStart(_) | ALeave(_) | AReadBcast(_) => GrowsCommand(cfg, g, a);
      case AAccept(_) | AConnectBcast(_) | AEndLoop(_) | AReturn(_) => GrowsConnect(cfg, g, a);
      case _ => GrowsRest(cfg, g, a);
    }
  }

  lemma KeepLinked(cfg: Config, g: State, a: Action)
    requires cfg.Valid() && Inv(cfg, g) && Shape(cfg, g) && Enabled(cfg, g, a) && Linked(cfg, g)
    ensures Shape(cfg, Apply(cfg, g, a)) && Linked(cfg, Apply(cfg, g, a))
  {
    hide Inv, Config.Valid, Linked, Grows, Apply, Enabled;
    OwnerZero(cfg);
    GrowsStep(cfg, g, a);
    LinkedGrows(cfg, g, Apply(cfg, g, a));
  }

  lemma InitLinked(cfg: Config)
    requires cfg.Valid()
    ensures Shape(cfg, Init(cfg)) && Linked(cfg, Init(cfg))
  {
  }

  lemma {:induction false} RunLinked(cfg: Config, gs: seq<State>, acts: seq<Action>, i: nat)
    requires cfg.Valid() && IsRun(cfg, gs, acts) && i <= |acts| && cfg.M >= 1
    ensures Shape(cfg, gs[i]) && Linked(cfg, gs[i])
  {
    hide Inv, Linked, Apply, Enabled, Config.Valid, Init;
    if i == 0 {
      InitLinked(cfg);
    } else {
      RunLinked(cfg, gs, acts, i - 1);
      RunInv(cfg, gs, acts, i - 1);
      KeepLinked(cfg, gs[i-1], acts[i-1]);
    }
  }

  // ----- Nobody connects alone --------------------------------------------------------------------------------

  /** A simulation rank that has a connection got it on a link that was up. */
  ghost predicate MetAt(cfg: Config, g: State, r: SimRank) requires Shape(cfg, g) {
    r.intercomm.Some? ==> r.intercomm.value < |cfg.script| && cfg.script[r.intercomm.value] == CONNECT && LinkUp(cfg, g, r.intercomm.value)
  }

  ghost predicate Met(cfg: Config, g: State) requires Shape(cfg, g) {
    forall s :: 0 <= s < cfg.M ==> MetAt(cfg, g, g.sims[s])
  }

  lemma MetGrows(cfg: Config, g: State, g': State, r: SimRank)
    requires Shape(cfg, g) && Shape(cfg, g') && cfg.M >= 1 && Grows(cfg, g, g') && MetAt(cfg, g, r)
    ensures MetAt(cfg, g', r)
  {
    hide Reached, Past, Comp;
  }

  /** A new connection is the one of the port that the rank has dialed, and that link is up. */
  ghost predicate NewConnection(cfg: Config, g: State, r: SimRank, r': SimRank) requires Shape(cfg, g) {
    || r'.intercomm == r.intercomm
    || r'.intercomm == None
    || (r.pc.Connecting? && LinkUp(cfg, g, r.clientPort) && r'.intercomm == Some(r.clientPort))
  }

  lemma RootConnection(cfg: Config, g: State, a: Action)
    requires cfg.Valid() && Shape(cfg, g) && Enabled(cfg, g, a) && OnRoot(a) && cfg.M >= 1
    ensures |Apply(cfg, g, a).sims| == cfg.M && NewConnection(cfg, g, g.sims[0], Apply(cfg, g, a).sims[0])
  {
    hide Config.Valid, LinkUp, Bcast, Push, Pop;
  }

  lemma HearerConnection(cfg: Config, g: State, a: Action)
    requires cfg.Valid() && Shape(cfg, g) && Enabled(cfg, g, a) && (a.AHave? || a.ACommand? || a.APort? || a.AFollowFin?) && a.s < cfg.M
    ensures |Apply(cfg, g, a).sims| == cfg.M && NewConnection(cfg, g, g.sims[a.s], Apply(cfg, g, a).sims[a.s])
  {
    hide Config.Valid, LinkUp;
  }

  lemma OtherConnection(cfg: Config, g: State, a: Action)
    requires cfg.Valid() && Shape(cfg, g) && Enabled(cfg, g, a) && (a.AConnected? || a.ATakePing? || a.ASend?) && a.s < cfg.M
    ensures |Apply(cfg, g, a).sims| == cfg.M && NewConnection(cfg, g, g.sims[a.s], Apply(cfg, g, a).sims[a.s])
  {
    hide Config.Valid, LinkUp, FramesAt, Push, Pop;
  }

  lemma ActorMet(cfg: Config, g: State, a: Action)
    requires cfg.Valid() && Inv(cfg, g) && Shape(cfg, g) && Enabled(cfg, g, a) && IsSimAction(a) && cfg.M >= 1 && Met(cfg, g)
    ensures Shape(cfg, Apply(cfg, g, a)) && ActingSim(a) < cfg.M && MetAt(cfg, g, Apply(cfg, g, a).sims[ActingSim(a)])
  {
    hide Inv, Config.Valid, Enabled, Apply, LinkUp;
    SimStepFrame(cfg, g, a);
    var s := ActingSim(a);
    ConnectingPort(cfg, g, s);
    if OnRoot(a) {
      RootConnection(cfg, g, a);
    } else if a.AHave? || a.ACommand? || a.APort? || a.AFollowFin? {
      HearerConnection(cfg, g, a);
    } else {
      OtherConnection(cfg, g, a);
    }
    assert MetAt(cfg, g, g.sims[s]);
  }

  lemma ConnectingPort(cfg: Config, g: State, s: nat)
    requires cfg.Valid() && Inv(cfg, g) && Shape(cfg, g) && s < cfg.M
    ensures g.sims[s].pc.Connecting? ==> g.sims[s].clientPort < |cfg.script| && cfg.script[g.sims[s].clientPort] == CONNECT
  {
    hide FollowOk, HistOk, ClientOk, VerdictAt, CmdOk, ResultOk, OwnLink, QuitOk, Session, FramesAt;
    assert SimOk(cfg, s, g.sims[s]);
  }

  lemma KeepMet(cfg: Config, g: State, a: Action)
    requires cfg.Valid() && Inv(cfg, g) && Shape(cfg, g) && Enabled(cfg, g, a) && cfg.M >= 1 && Met(cfg, g)
    ensures Shape(cfg, Apply(cfg, g, a)) && Met(cfg, Apply(cfg, g, a))
  {
    hide Inv, Config.Valid, Enabled, Apply, MetAt, Grows;
    GrowsStep(cfg, g, a);
    var g' := Apply(cfg, g, a);
    if IsSimAction(a) {
      SimStepFrame(cfg, g, a);
      ActorMet(cfg, g, a);
    } else {
      ClientStepFrame(cfg, g, a);
    }
    forall s | 0 <= s < cfg.M ensures MetAt(cfg, g', g'.sims[s]) {
      assert MetAt(cfg, g, g.sims[s]);
      MetGrows(cfg, g, g', g'.sims[s]);
    }
  }

  lemma InitMet(cfg: Config)
    requires cfg.Valid()
    ensures Shape(cfg, Init(cfg)) && Met(cfg, Init(cfg))
  {
    hide Config.Valid;
  }

  lemma {:induction false} RunMet(cfg: Config, gs: seq<State>, acts: seq<Action>, i: nat)
    requires cfg.Valid() && IsRun(cfg, gs, acts) && i <= |acts| && cfg.M >= 1
    ensures Shape(cfg, gs[i]) && Met(cfg, gs[i])
  {
    hide Inv, Met, Apply, Enabled, Config.Valid, Init;
    if i == 0 {
      InitMet(cfg);
    } else {
      RunMet(cfg, gs, acts, i - 1);
      RunInv(cfg, gs, acts, i - 1);
      KeepMet(cfg, gs[i-1], acts[i-1]);
    }
  }

  /** As soon as any simulation rank holds the connection of the CONNECT at q, or any client rank is past its accept, all
      simulation ranks have called connect on it, and client rank 0, or all client ranks, accept. */
  lemma NobodyConnectsAlone(cfg: Config, g: State, q: nat, s: nat, c: nat)
    requires cfg.Valid() && Reachable(cfg, g) && Shape(cfg, g) && cfg.M >= 1 && s < cfg.M && c < cfg.N
    requires || g.sims[s].intercomm == Some(q)
             || (q < |cfg.script| && cfg.script[q] == CONNECT && g.clients[c].op > q)
             || (q < |cfg.script| && cfg.script[q] == CONNECT && g.clients[c].op == q
                 && (g.clients[c].pc.AwaitConnectVerdict? || g.clients[c].pc.AwaitConnectBcast? || g.clients[c].pc.Closed?))
    ensures forall t :: 0 <= t < cfg.M ==> q in g.sims[t].dialed
    ensures forall d :: 0 <= d < cfg.N && (d == 0 || cfg.allAccept) ==>
              || g.clients[d].op > q
              || (g.clients[d].op == q && (g.clients[d].pc.Accepting? || g.clients[d].pc.AwaitConnectVerdict?
                                           || g.clients[d].pc.AwaitConnectBcast? || g.clients[d].pc.Closed?))
  {
    hide Apply, Enabled, Config.Valid, Init, Inv, Comp;
    var gs, acts :| IsRun(cfg, gs, acts) && gs[|acts|] == g;
    RunMet(cfg, gs, acts, |acts|);
    RunLinked(cfg, gs, acts, |acts|);
    if g.sims[s].intercomm == Some(q) {
      assert MetAt(cfg, g, g.sims[s]);
    } else {
      assert Past(g.clients[c], q) && LinkedAt(cfg, g, q);
    }
  }
}
