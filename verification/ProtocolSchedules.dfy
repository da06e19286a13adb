/** The unhappy final states do happen: runs that end in each of them, for any number of ranks, and
    exactly when the simulation is sure to end. */
module ProtocolSchedules {
  import opened SimStates
  import opened Protocol
  import opened ProtocolFrames
  import opened ProtocolInvariant
  import opened ProtocolSafety
  import opened ProtocolCommands
  import opened ProtocolSteps
  import opened ProtocolTheorems
  import opened ProtocolProgress
  import opened ProtocolLinks
  import opened ProtocolWaits
  import opened ProtocolDeadlock
  import opened ProtocolVerdicts

  // ----- Building runs ------------------------------------------------------------------------------

  lemma InitReachable(cfg: Config)
    requires cfg.Valid()
    ensures Reachable(cfg, Init(cfg)) && Shape(cfg, Init(cfg))
  {
    var gs, acts: seq<Action> := [Init(cfg)], [];
    assert IsRun(cfg, gs, acts) && gs[|acts|] == Init(cfg);
  }

  lemma ReachStep(cfg: Config, g: State, a: Action)
    requires cfg.Valid() && Reachable(cfg, g) && Shape(cfg, g) && Enabled(cfg, g, a)
    ensures Reachable(cfg, Apply(cfg, g, a)) && Shape(cfg, Apply(cfg, g, a))
    ensures Inv(cfg, g) && Measure(cfg, Apply(cfg, g, a)) < Measure(cfg, g)
  {
    hide Enabled, Apply, Init, Config.Valid, Inv, Measure;
    var gs, acts :| IsRun(cfg, gs, acts) && gs[|acts|] == g;
    var gs', acts' := gs + [Apply(cfg, g, a)], acts + [a];
    assert IsRun(cfg, gs', acts') && gs'[|acts'|] == Apply(cfg, g, a);
    ReachableInv(cfg, g);
    StepDecreases(cfg, g, a);
  }

  /** Sim rank 0 calls process without finding a command until no calls are left, and begins the destructor. */
  lemma {:induction false} IdleToEnd(cfg: Config, g: State) returns (g': State)
    requires cfg.Valid() && Reachable(cfg, g) && Shape(cfg, g) && cfg.M >= 1
    requires g.sims[0].pc.Ready? && !g.newQuery && g.sims[0].calls <= |cfg.steps|
    ensures Reachable(cfg, g') && Shape(cfg, g')
    ensures g'.sims[0] == g.sims[0].(calls := |cfg.steps|, pc := Finalizing) && !g'.listening && !g'.newQuery
    ensures g'.clients == g.clients && g'.inbox == g.inbox
    decreases |cfg.steps| - g.sims[0].calls
  {
    hide Reachable, Config.Valid, Inv, Measure;
    if g.sims[0].calls < |cfg.steps| {
      ReachStep(cfg, g, ARootIdle);
      g' := IdleToEnd(cfg, Apply(cfg, g, ARootIdle));
    } else {
      ReachStep(cfg, g, AStop);
      g' := Apply(cfg, g, AStop);
    }
  }

  // ----- Runs that cannot end well ---------------------------------------------------------------------

  datatype Fate = BeRefused | BeStranded | BeAbandoned

  /** From here every run ends in one of the unhappy states. */
  ghost predicate Doomed(cfg: Config, g: State, fate: Fate)
    requires cfg.Valid() && Shape(cfg, g)
  {
    match fate
    case BeRefused => g.sims[0].pc.Done? && !g.listening && g.clients[0].pc.Start? && g.clients[0].op < |cfg.script| && cfg.script[g.clients[0].op] == CONNECT
    case BeStranded => g.sims[0].pc.Done? && g.inbox.Some? && g.inbox == Some(g.clients[0].op)
                       && (g.clients[0].pc.InBarrier? || g.clients[0].pc.Accepting?)
                       && g.clients[0].op < |cfg.script| && cfg.script[g.clients[0].op] == CONNECT
    case BeAbandoned => g.sims[0].pc.Finalizing? && g.sims[0].intercomm.Some? && !g.newQuery && Finished(cfg, g)
  }

  lemma DoneRests(cfg: Config, g: State, a: Action)
    requires cfg.Valid() && Shape(cfg, g) && Enabled(cfg, g, a) && IsSimAction(a) && ActingSim(a) < cfg.M
    ensures !g.sims[ActingSim(a)].pc.Done?
  {
    hide Config.Valid, LinkUp, FramesAt;
  }

  /** Client rank 0 cannot start a CONNECT while nobody listens. */
  lemma ClosedDoor(cfg: Config, g: State, a: Action)
    requires cfg.Valid() && Shape(cfg, g) && Enabled(cfg, g, a) && !IsSimAction(a) && cfg.N >= 1 && !g.listening
    requires g.clients[0].pc.Start? && (g.clients[0].op < |cfg.script| ==> cfg.script[g.clients[0].op] == CONNECT)
    ensures ActingClient(a) != 0
  {
    hide Config.Valid, LinkUp, AllArrived;
    Sizes(cfg);
  }

  lemma KeepRefused(cfg: Config, g: State, a: Action)
    requires cfg.Valid() && Inv(cfg, g) && Shape(cfg, g) && Enabled(cfg, g, a) && Doomed(cfg, g, BeRefused)
    ensures Shape(cfg, Apply(cfg, g, a)) && Doomed(cfg, Apply(cfg, g, a), BeRefused)
  {
    hide Inv, Config.Valid, Enabled, Apply;
    Sizes(cfg);
    if IsSimAction(a) {
      SimStepFrame(cfg, g, a);
      DoneRests(cfg, g, a);
    } else {
      ClientStepFrame(cfg, g, a);
      ClosedDoor(cfg, g, a);
    }
  }

  lemma NeverLinked(cfg: Config, g: State)
    requires cfg.Valid() && Inv(cfg, g) && Shape(cfg, g) && cfg.M >= 1 && cfg.N >= 1 && g.clients[0].pc.Accepting? && g.inbox.Some?
    ensures !LinkUp(cfg, g, g.clients[0].op)
  {
    hide Inv, DeskOk;
    InvDesk(cfg, g);
    UnrecordedNotDialed(cfg, g.hist, g.taken, g.vsent, DeskOf(g));
  }

  /** Client rank 0 gets from the barrier to accept, and no further. */
  lemma OnlyAccepts(cfg: Config, g: State, a: Action)
    requires cfg.Valid() && Shape(cfg, g) && Enabled(cfg, g, a) && !IsSimAction(a) && cfg.N >= 1 && ActingClient(a) == 0
    requires Doomed(cfg, g, BeStranded) && (g.clients[0].pc.Accepting? ==> !LinkUp(cfg, g, g.clients[0].op))
    ensures a == ALeave(0)
    ensures Shape(cfg, Apply(cfg, g, a)) && Apply(cfg, g, a).clients[0].pc.Accepting? && Apply(cfg, g, a).clients[0].op == g.clients[0].op
  {
    hide Config.Valid, LinkUp, AllArrived;
    Sizes(cfg);
  }

  lemma KeepStranded(cfg: Config, g: State, a: Action)
    requires cfg.Valid() && Inv(cfg, g) && Shape(cfg, g) && Enabled(cfg, g, a) && Doomed(cfg, g, BeStranded)
    ensures Shape(cfg, Apply(cfg, g, a)) && Doomed(cfg, Apply(cfg, g, a), BeStranded)
  {
    hide Inv, Config.Valid, LinkUp, Enabled, Apply;
    Sizes(cfg);
    if IsSimAction(a) {
      SimStepFrame(cfg, g, a);
      DoneRests(cfg, g, a);
    } else {
      if g.clients[0].pc.Accepting? { NeverLinked(cfg, g); }
      ClientStepFrame(cfg, g, a);
      if ActingClient(a) == 0 { OnlyAccepts(cfg, g, a); }
    }
  }

  /** Nobody steps but simulation ranks other than 0. */
  lemma OnlyFollowersStep(cfg: Config, g: State, a: Action)
    requires cfg.Valid() && Shape(cfg, g) && Enabled(cfg, g, a) && cfg.M >= 1 && cfg.N >= 1
    requires Doomed(cfg, g, BeAbandoned) && Get(g.up, 0, 0) == []
    ensures IsSimAction(a) && ActingSim(a) != 0
  {
    hide Config.Valid, LinkUp, FramesAt, AllArrived;
    Sizes(cfg);
  }

  lemma KeepAbandoned(cfg: Config, g: State, a: Action)
    requires cfg.Valid() && Inv(cfg, g) && Shape(cfg, g) && Enabled(cfg, g, a) && Doomed(cfg, g, BeAbandoned)
    ensures Shape(cfg, Apply(cfg, g, a)) && Doomed(cfg, Apply(cfg, g, a), BeAbandoned)
  {
    hide Inv, Config.Valid, Enabled, Apply, DeskOk;
    InvDesk(cfg, g);
    NothingSent(cfg, g.hist, g.taken, g.vsent, DeskOf(g));
    OnlyFollowersStep(cfg, g, a);
    SimStepFrame(cfg, g, a);
  }

  lemma NothingSent(cfg: Config, hist: seq<Event>, taken: seq<nat>, vsent: seq<int>, d: Desk)
    requires cfg.Valid() && DeskOk(cfg, hist, taken, vsent, d)
    ensures d.cl.pc.Start? ==> d.upq == []
  {
    hide HistOk, SimOk, ClientOk;
  }

  /** Whatever happens next, the run stops, and it stops badly. */
  lemma {:induction false} RunOut(cfg: Config, g: State, fate: Fate) returns (g': State)
    requires cfg.Valid() && Reachable(cfg, g) && Shape(cfg, g) && Doomed(cfg, g, fate)
    ensures Reachable(cfg, g') && Shape(cfg, g') && Stuck(cfg, g') && Doomed(cfg, g', fate)
    decreases Measure(cfg, g)
  {
    hide Reachable, Config.Valid, Inv, Measure, Doomed, Enabled, Apply;
    if a :| Enabled(cfg, g, a) {
      ReachStep(cfg, g, a);
      match fate {
        case BeRefused => KeepRefused(cfg, g, a);
        case BeStranded => KeepStranded(cfg, g, a);
        case BeAbandoned => KeepAbandoned(cfg, g, a);
      }
      g' := RunOut(cfg, Apply(cfg, g, a), fate);
    } else {
      g' := g;
    }
  }

  lemma DoomEnds(cfg: Config, g: State, fate: Fate)
    requires cfg.Valid() && Reachable(cfg, g) && Shape(cfg, g) && Stuck(cfg, g) && Doomed(cfg, g, fate)
    ensures cfg.M >= 1 && cfg.N >= 1
    ensures match fate
            case BeRefused => Refused(cfg, g) && AllDone(cfg, g)
            case BeStranded => Stranded(cfg, g) && AllDone(cfg, g)
            case BeAbandoned => Abandoned(cfg, g) && !AllDone(cfg, g)
  {
    hide Reachable, Config.Valid, Inv, Stuck, Session;
    OwnerZero(cfg);
    StuckExactlyWhenFinal(cfg, g);
  }

  /** Client rank 0 may come too late: it connects when the simulation has ended. */
  lemma RefusedHappens(cfg: Config) returns (g: State)
    requires cfg.Valid() && cfg.script != []
    ensures Reachable(cfg, g) && Shape(cfg, g) && cfg.M >= 1 && cfg.N >= 1 && Stuck(cfg, g) && Refused(cfg, g) && AllDone(cfg, g)
  {
    hide Reachable, Inv, Measure, Enabled, Apply, Stuck, Refused, AllDone;
    OwnerZero(cfg);
    FirstConnects(cfg);
    InitReachable(cfg);
    g := IdleToEnd(cfg, Init(cfg));
    g := EndAlone(cfg, g);
    g := RunOut(cfg, g, BeRefused);
    DoomEnds(cfg, g, BeRefused);
  }

  /** Its CONNECT may be taken off the socket and never be recorded. */
  lemma StrandedHappens(cfg: Config) returns (g: State)
    requires cfg.Valid() && cfg.script != []
    ensures Reachable(cfg, g) && Shape(cfg, g) && cfg.M >= 1 && cfg.N >= 1 && Stuck(cfg, g) && Stranded(cfg, g) && AllDone(cfg, g)
  {
    hide Reachable, Inv, Measure, Stuck, Stranded, AllDone, Config.Valid;
    OwnerZero(cfg);
    FirstConnects(cfg);
    InitReachable(cfg);
    g := Init(cfg);
    ReachStep(cfg, g, AStart(0));
    g := Apply(cfg, g, AStart(0));
    hide Enabled, Apply;
    g := IdleToEnd(cfg, g);
    g := EndAlone(cfg, g);
    g := RunOut(cfg, g, BeStranded);
    DoomEnds(cfg, g, BeStranded);
  }

  lemma FirstConnects(cfg: Config)
    requires cfg.Valid() && cfg.script != []
    ensures cfg.script[0] == CONNECT
  {
    assert InTurn(cfg.script, 0);
  }

  /** The destructor on rank 0 when there is no client. */
  lemma EndAlone(cfg: Config, g: State) returns (g': State)
    requires cfg.Valid() && Reachable(cfg, g) && Shape(cfg, g) && cfg.M >= 1
    requires g.sims[0].pc.Finalizing? && !g.newQuery && g.sims[0].intercomm.None? && g.sims[0].clientCommand != Code(CONNECT)
    ensures Reachable(cfg, g') && Shape(cfg, g')
    ensures g'.sims[0] == g.sims[0].(pc := Done) && g'.listening == g.listening && g'.inbox == g.inbox && g'.clients == g.clients
  {
    hide Reachable, Inv, Measure, Config.Valid;
    ReachStep(cfg, g, AFinNone);
    g' := Apply(cfg, g, AFinNone);
  }

  // ----- Runs that serve every command ------------------------------------------------------------------------

  /** Process calls that sim rank 0 has begun. */
  function Begun(r: SimRank): nat { r.calls + (if Busy(r.pc) then 1 else 0) }

  /** The simulation has not begun to end, and has as many calls to come as there are commands to come. */
  predicate EnoughCalls(cfg: Config, r: SimRank) {
    && (r.pc.Ready? || Busy(r.pc))
    && Begun(r) <= |cfg.steps| && r.ops <= |cfg.script| && |cfg.script| - r.ops <= |cfg.steps| - Begun(r)
  }

  lemma KeepEnoughRoot(cfg: Config, g: State, a: Action)
    requires cfg.Valid() && Inv(cfg, g) && Shape(cfg, g) && Enabled(cfg, g, a) && cfg.M >= 1 && EnoughCalls(cfg, g.sims[0])
    requires a.ARecord? || a.ARootConnect? || a.ARootCommand? || a == AConnected(0)
    ensures Shape(cfg, Apply(cfg, g, a)) && EnoughCalls(cfg, Apply(cfg, g, a).sims[0])
  {
    hide Inv, Config.Valid, LinkUp, CmdOk, DeskOk, HistOk, ClientOk, SimOk;
    InvDesk(cfg, g);
    var d := DeskOf(g);
    if a.ARootConnect? {
      CmdRootConnect(cfg, g.hist, g.taken, g.vsent, d);
    } else if a.ARootCommand? {
      CmdRootCommand(cfg, g.hist, g.taken, g.vsent, d);
    }
  }

  lemma KeepEnoughRest(cfg: Config, g: State, a: Action)
    requires cfg.Valid() && Inv(cfg, g) && Shape(cfg, g) && Enabled(cfg, g, a) && cfg.M >= 1 && EnoughCalls(cfg, g.sims[0])
    requires !(a.ARecord? || a.ARootConnect? || a.ARootCommand? || a == AConnected(0) || a == ARootIdle || a == AStop)
    ensures Shape(cfg, Apply(cfg, g, a)) && EnoughCalls(cfg, Apply(cfg, g, a).sims[0])
  {
    hide Inv, Config.Valid, Enabled, Apply, EnoughCalls;
    if IsSimAction(a) {
      SimStepFrame(cfg, g, a);
      NotEndingYet(cfg, g, a);
      if ActingSim(a) == 0 { KeepEnoughQuery(cfg, g, a); }
    } else {
      ClientStepFrame(cfg, g, a);
    }
  }

  lemma NotEndingYet(cfg: Config, g: State, a: Action)
    requires cfg.Valid() && Shape(cfg, g) && cfg.M >= 1 && Enabled(cfg, g, a) && EnoughCalls(cfg, g.sims[0]) && IsSimAction(a)
    requires !(a.ARecord? || a.ARootConnect? || a.ARootCommand? || a == AConnected(0) || a == ARootIdle || a == AStop)
    ensures ActingSim(a) == 0 ==> a.ATakePing? || a.ASend?
  {
    hide Config.Valid, LinkUp, FramesAt;
  }

  lemma KeepEnoughQuery(cfg: Config, g: State, a: Action)
    requires cfg.Valid() && Inv(cfg, g) && Shape(cfg, g) && cfg.M >= 1 && Enabled(cfg, g, a) && EnoughCalls(cfg, g.sims[0])
    requires (a.ATakePing? || a.ASend?) && a.s == 0
    ensures Shape(cfg, Apply(cfg, g, a)) && EnoughCalls(cfg, Apply(cfg, g, a).sims[0])
  {
    hide Inv, Config.Valid, FramesAt, Enabled, Apply, EnoughCalls;
    KeepStep(cfg, g, a);
    NoFailure(cfg, Apply(cfg, g, a), 0);
    QueryKeepsCalls(cfg, g, a);
  }

  lemma QueryKeepsCalls(cfg: Config, g: State, a: Action)
    requires cfg.Valid() && Shape(cfg, g) && cfg.M >= 1 && Enabled(cfg, g, a) && EnoughCalls(cfg, g.sims[0])
    requires (a.ATakePing? || a.ASend?) && a.s == 0 && Shape(cfg, Apply(cfg, g, a)) && Apply(cfg, g, a).sims[0].pc != SimPc.Failed
    ensures EnoughCalls(cfg, Apply(cfg, g, a).sims[0])
  {
    hide Config.Valid, FramesAt;
  }

  lemma NoFailure(cfg: Config, g: State, s: nat)
    requires cfg.Valid() && Inv(cfg, g) && s < cfg.M
    ensures Shape(cfg, g) && g.sims[s].pc != SimPc.Failed
  {
    hide Inv;
    ShapeOf(cfg, g);
    SimOkOf(cfg, g, s);
  }

  /** Without idle calls every client gets to the end of its script. */
  lemma {:induction false} ServeAll(cfg: Config, g: State) returns (g': State)
    requires cfg.Valid() && Reachable(cfg, g) && Shape(cfg, g) && cfg.M >= 1 && EnoughCalls(cfg, g.sims[0])
    ensures Reachable(cfg, g') && Shape(cfg, g') && EnoughCalls(cfg, g'.sims[0])
    ensures g'.sims[0].pc.Ready? && Finished(cfg, g') && !g'.newQuery
    decreases Measure(cfg, g)
  {
    hide Reachable, Config.Valid, Inv, Measure, Enabled, Apply, Finished, Linked, EnoughCalls;
    if a :| a != ARootIdle && a != AStop && Enabled(cfg, g, a) {
      ReachStep(cfg, g, a);
      if a.ARecord? || a.ARootConnect? || a.ARootCommand? || a == AConnected(0) { KeepEnoughRoot(cfg, g, a); }
      else { KeepEnoughRest(cfg, g, a); }
      g' := ServeAll(cfg, Apply(cfg, g, a));
    } else {
      g' := g;
      ReachableLinked(cfg, g);
      QuietWithCalls(cfg, g);
      QuietIsFinal(cfg, g);
      NotEnded(cfg, g);
    }
  }

  lemma QuietWithCalls(cfg: Config, g: State)
    requires cfg.Valid() && Shape(cfg, g) && cfg.M >= 1 && EnoughCalls(cfg, g.sims[0])
    requires forall a :: a != ARootIdle && a != AStop ==> !Enabled(cfg, g, a)
    ensures Quiet(cfg, g)
  {
    hide Enabled;
  }

  lemma NotEnded(cfg: Config, g: State)
    requires Shape(cfg, g) && cfg.M >= 1 && cfg.N >= 1 && EnoughCalls(cfg, g.sims[0])
    ensures !Final(cfg, g)
  {
    hide Finished, ToldToQuit, Refused, Stranded, Session;
  }

  /** A client that ends without disconnecting may leave the destructor waiting, if there are as many process
      calls as it has commands. */
  lemma AbandonedHappens(cfg: Config) returns (g: State)
    requires cfg.Valid() && Session(cfg.script, |cfg.script|).Some? && |cfg.script| <= |cfg.steps|
    ensures Reachable(cfg, g) && Shape(cfg, g) && cfg.M >= 1 && cfg.N >= 1 && Stuck(cfg, g) && Abandoned(cfg, g) && !AllDone(cfg, g)
  {
    hide Reachable, Inv, Measure, Enabled, Apply, Stuck, Session, AllDone, Abandoned;
    OwnerZero(cfg);
    InitReachable(cfg);
    g := ServeAll(cfg, Init(cfg));
    FinishedSession(cfg, g);
    g := IdleToEnd(cfg, g);
    g := RunOut(cfg, g, BeAbandoned);
    DoomEnds(cfg, g, BeAbandoned);
  }

  lemma FinishedSession(cfg: Config, g: State)
    requires cfg.Valid() && Reachable(cfg, g) && Shape(cfg, g) && cfg.M >= 1 && cfg.N >= 1 && Finished(cfg, g)
    requires g.sims[0].pc.Ready? || g.sims[0].pc.Finalizing?
    ensures g.sims[0].ops == |cfg.script| && g.sims[0].intercomm == Session(cfg.script, |cfg.script|)
  {
    hide Reachable, Inv, DeskOk, Session;
    ReachableInv(cfg, g);
    InvDesk(cfg, g);
    DeskSession(cfg, g.hist, g.taken, g.vsent, DeskOf(g));
  }

  lemma DeskSession(cfg: Config, hist: seq<Event>, taken: seq<nat>, vsent: seq<int>, d: Desk)
    requires cfg.Valid() && DeskOk(cfg, hist, taken, vsent, d) && d.cl.pc.Start? && (d.root.pc.Ready? || d.root.pc.Finalizing?)
    ensures d.root.ops == d.cl.op && d.root.intercomm == Session(cfg.script, d.cl.op)
  {
    hide HistOk, ClientOk, Session;
  }

  lemma {:induction false} TakenLate(cfg: Config, g: State, p: nat)
    requires cfg.Valid() && Reachable(cfg, g) && p < |g.taken|
    ensures g.taken[p] >= p
  {
    hide Reachable;
    if p > 0 {
      TakenLate(cfg, g, p - 1);
      OneCommandPerCall(cfg, g, p - 1, p);
    }
  }

  /** A process call takes at most one command, so that the destructor waits for a client in vain only after as
      many calls as there are commands. */
  lemma AbandonedNeedsCalls(cfg: Config, g: State)
    requires cfg.Valid() && Reachable(cfg, g) && Shape(cfg, g) && cfg.M >= 1 && cfg.N >= 1 && Abandoned(cfg, g)
    ensures |cfg.script| <= |cfg.steps|
  {
    hide Reachable, Inv, Session;
    FinishedSession(cfg, g);
    ReachableInv(cfg, g);
    InvDesk(cfg, g);
    if cfg.script != [] {
      var p := |cfg.script| - 1;
      TakenLate(cfg, g, p);
      assert TakenOk(g.hist, g.taken, p);
    }
  }

  /** The simulation gets to its end in every run exactly if the client disconnects, or has more commands than
      there are process calls. */
  lemma SimulationEndsExactly(cfg: Config)
    requires cfg.Valid()
    ensures (forall g :: Reachable(cfg, g) && Shape(cfg, g) && Stuck(cfg, g) ==> AllDone(cfg, g))
            <==> Session(cfg.script, |cfg.script|) == None || |cfg.script| > |cfg.steps|
  {
    hide Reachable, Inv, Config.Valid, Stuck, Session, Final, AllDone;
    OwnerZero(cfg);
    if Session(cfg.script, |cfg.script|) == None || |cfg.script| > |cfg.steps| {
      forall g | Reachable(cfg, g) && Shape(cfg, g) && Stuck(cfg, g) ensures AllDone(cfg, g) {
        if Session(cfg.script, |cfg.script|) == None {
          SimulationEnds(cfg, g);
        } else {
          StuckExactlyWhenFinal(cfg, g);
          if Abandoned(cfg, g) { AbandonedNeedsCalls(cfg, g); }
          NotAbandoned(cfg, g);
        }
      }
    } else {
      var g := AbandonedHappens(cfg);
    }
  }

  lemma NotAbandoned(cfg: Config, g: State)
    requires Shape(cfg, g) && cfg.M >= 1 && cfg.N >= 1 && Final(cfg, g)
    ensures AllDone(cfg, g) || Abandoned(cfg, g)
  {
    hide AllDone, Session, Finished;
  }

  // ----- Which commands are answered -------------------------------------------------------------------------------

  /** This client rank has a command that it never got past. */
  predicate LeftWaiting(cfg: Config, cl: ClientRank) {
    cl.op < |cfg.script| && !cl.pc.Closed?
  }

  lemma DeskUnanswered(cfg: Config, hist: seq<Event>, taken: seq<nat>, vsent: seq<int>, d: Desk)
    requires cfg.Valid() && DeskOk(cfg, hist, taken, vsent, d) && d.root.pc.Done?
    ensures d.cl.pc.Start? ==> |vsent| == d.cl.op && !d.newQuery
    ensures d.cl.pc.Accepting? && d.inbox == Some(d.cl.op) ==> |vsent| == d.cl.op && !d.newQuery
    ensures d.cl.pc.Closed? ==> |vsent| == d.cl.op + 1
  {
    hide EventOk, TakenOk, Ver, Session;
  }

  /** When nothing can happen any more, a command hangs exactly if the simulation has sent no verdict on it. */
  lemma HangsExactlyWithoutVerdict(cfg: Config, g: State, c: nat)
    requires cfg.Valid() && Reachable(cfg, g) && Shape(cfg, g) && Stuck(cfg, g) && c < cfg.N
    requires g.clients[c].op < |cfg.script|
    ensures LeftWaiting(cfg, g.clients[c]) <==> |g.vsent| == g.clients[c].op
  {
    hide Reachable, Inv, Config.Valid, DeskOk, Session, Stuck;
    ReachableInv(cfg, g);
    InvDesk(cfg, g);
    StuckExactlyWhenFinal(cfg, g);
    if g.clients[c].pc.Closed? {
      VerdictsAreObeyed(cfg, g, c, g.clients[c].op);
    } else {
      assert g.sims[0].pc.Done?;
      DeskUnanswered(cfg, g.hist, g.taken, g.vsent, DeskOf(g));
    }
  }

  /** No program that connects at all is sure of an answer: the simulation may always end before the listener
      records the CONNECT. */
  lemma EveryCommandAnsweredExactly(cfg: Config)
    requires cfg.Valid()
    ensures (forall g, c: nat :: Reachable(cfg, g) && Shape(cfg, g) && Stuck(cfg, g) && c < cfg.N ==> !LeftWaiting(cfg, g.clients[c]))
            <==> cfg.script == []
  {
    hide Reachable, Inv, Config.Valid, Stuck, Session, Final;
    OwnerZero(cfg);
    if cfg.script != [] {
      var g := RefusedHappens(cfg);
      assert LeftWaiting(cfg, g.clients[0]);
    }
  }

  // ----- A recorded CONNECT is answered -------------------------------------------------------------------------------

  lemma RootVerdicts(cfg: Config, g: State, a: Action)
    requires cfg.Valid() && Shape(cfg, g) && Enabled(cfg, g, a) && IsSimAction(a)
    ensures g.vsent <= Apply(cfg, g, a).vsent
  {
    hide Config.Valid, LinkUp, FramesAt, Dispatch, Dial;
    Sizes(cfg);
  }

  /** Verdicts are never taken back, and clients only go forward. */
  lemma VerdictsGrow(cfg: Config, g: State, a: Action)
    requires cfg.Valid() && Shape(cfg, g) && Enabled(cfg, g, a) && cfg.N >= 1
    ensures Shape(cfg, Apply(cfg, g, a)) && g.vsent <= Apply(cfg, g, a).vsent
    ensures g.clients[0].op <= Apply(cfg, g, a).clients[0].op
  {
    hide Enabled, Apply;
    if IsSimAction(a) {
      SimStepFrame(cfg, g, a);
      RootVerdicts(cfg, g, a);
    } else {
      ClientStepFrame(cfg, g, a);
      ClientsGoOn(cfg, g, a);
    }
  }

  lemma ClientsGoOn(cfg: Config, g: State, a: Action)
    requires cfg.Valid() && Shape(cfg, g) && Enabled(cfg, g, a) && !IsSimAction(a) && cfg.N >= 1
    requires Shape(cfg, Apply(cfg, g, a))
    ensures ActingClient(a) == 0 ==> g.clients[0].op <= Apply(cfg, g, a).clients[0].op
  {
    hide Config.Valid, LinkUp, AllArrived, Assemble, Complete, Expects, Push, Pop;
    Sizes(cfg);
  }

  /** CONNECT p has been recorded or already answered. */
  predicate Promised(g: State, p: nat) requires |g.clients| >= 1 {
    g.clients[0].op >= p && (|g.vsent| > p || (|g.vsent| == p && g.newQuery))
  }

  lemma KeepPromise(cfg: Config, g: State, a: Action, p: nat)
    requires cfg.Valid() && Reachable(cfg, g) && Shape(cfg, g) && Enabled(cfg, g, a) && cfg.N >= 1 && Promised(g, p)
    ensures Shape(cfg, Apply(cfg, g, a)) && Promised(Apply(cfg, g, a), p)
  {
    hide Enabled, Apply, Reachable;
    Sizes(cfg);
    VerdictsGrow(cfg, g, a);
    if g.newQuery { RecordedConnectIsServed(cfg, g, a); }
  }

  lemma {:induction false} RunReachable(cfg: Config, gs: seq<State>, acts: seq<Action>, i: nat)
    requires cfg.Valid() && IsRun(cfg, gs, acts) && i <= |acts|
    ensures Reachable(cfg, gs[i]) && Shape(cfg, gs[i])
  {
    hide Enabled, Apply, Init, Inv;
    assert IsRun(cfg, gs[..i+1], acts[..i]) && gs[..i+1][|acts[..i]|] == gs[i];
    ReachableInv(cfg, gs[i]);
  }

  lemma {:induction false} PromiseHolds(cfg: Config, gs: seq<State>, acts: seq<Action>, i: nat, j: nat, p: nat)
    requires cfg.Valid() && IsRun(cfg, gs, acts) && i <= j <= |acts| && |gs[i].clients| >= 1 && Promised(gs[i], p)
    ensures |gs[j].clients| >= 1 && Promised(gs[j], p)
    decreases j
  {
    hide Enabled, Apply, Init, Reachable, Promised;
    if i < j {
      PromiseHolds(cfg, gs, acts, i, j - 1, p);
      RunReachable(cfg, gs, acts, j - 1);
      Sizes(cfg);
      KeepPromise(cfg, gs[j-1], acts[j-1], p);
    }
  }

  lemma DeskPromises(cfg: Config, hist: seq<Event>, taken: seq<nat>, vsent: seq<int>, d: Desk)
    requires cfg.Valid() && DeskOk(cfg, hist, taken, vsent, d) && d.newQuery && d.root.pc.Ready?
    ensures |vsent| == d.cl.op
  {
    hide EventOk, TakenOk, Ver, Session;
  }

  /** Once recorded, a CONNECT gets its verdict in every run that goes on for as long as it can. */
  lemma RecordedConnectIsAnswered(cfg: Config, gs: seq<State>, acts: seq<Action>, i: nat, j: nat)
    requires cfg.Valid() && IsRun(cfg, gs, acts) && i <= j <= |acts| && Shape(cfg, gs[i]) && Shape(cfg, gs[j]) && cfg.M >= 1 && cfg.N >= 1
    requires gs[i].newQuery && gs[i].sims[0].pc.Ready? && Stuck(cfg, gs[j])
    ensures gs[i].clients[0].op < |gs[j].vsent|
  {
    hide Enabled, Apply, Init, Reachable, Inv, Stuck, DeskOk, Config.Valid, Session;
    RunReachable(cfg, gs, acts, i);
    RunReachable(cfg, gs, acts, j);
    ReachableInv(cfg, gs[i]);
    ReachableInv(cfg, gs[j]);
    InvDesk(cfg, gs[i]);
    InvDesk(cfg, gs[j]);
    DeskPromises(cfg, gs[i].hist, gs[i].taken, gs[i].vsent, DeskOf(gs[i]));
    PromiseHolds(cfg, gs, acts, i, j, gs[i].clients[0].op);
    StuckExactlyWhenFinal(cfg, gs[j]);
    assert gs[j].clients[0].op >= gs[i].clients[0].op;
    if gs[j].sims[0].pc.Done? { DeskUnanswered(cfg, gs[j].hist, gs[j].taken, gs[j].vsent, DeskOf(gs[j])); }
  }
}
