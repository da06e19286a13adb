/** The protocol stops only where it should: a reachable state in which nobody can step is one of
    five kinds of final state. */
module ProtocolDeadlock {
  import opened SimStates
  import opened Protocol
  import opened ProtocolFrames
  import opened ProtocolInvariant
  import opened ProtocolSafety
  import opened ProtocolCommands
  import opened ProtocolFollowers
  import opened ProtocolSteps
  import opened ProtocolClientSteps
  import opened ProtocolTheorems
  import opened ProtocolLinks
  import opened ProtocolWaits

  // ----- Final states ---------------------------------------------------------------------------------------------------------

  predicate AllDone(cfg: Config, g: State) requires Shape(cfg, g) {
    forall s :: 0 <= s < cfg.M ==> g.sims[s].pc.Done?
  }

  /** Every client has executed its whole script. */
  predicate Finished(cfg: Config, g: State) requires Shape(cfg, g) {
    forall c :: 0 <= c < cfg.N ==> g.clients[c].pc.Start? && g.clients[c].op == |cfg.script|
  }

  /** Every client has been told to quit. */
  predicate ToldToQuit(cfg: Config, g: State) requires Shape(cfg, g) {
    forall c :: 0 <= c < cfg.N ==> g.clients[c].pc.Closed?
  }

  /** Client rank 0 finds nobody listening for its next CONNECT, and its fellows wait for it. */
  predicate Refused(cfg: Config, g: State) requires Shape(cfg, g) && cfg.N >= 1 {
    var p := g.clients[0].op;
    && g.clients[0].pc.Start? && p < |cfg.script| && cfg.script[p] == CONNECT && !g.listening
    && forall c :: 0 < c < cfg.N ==> g.clients[c].pc.InBarrier? && g.clients[c].op == p
  }

  /** The listener's socket took a CONNECT that the listener thread never recorded. */
  predicate Stranded(cfg: Config, g: State) requires Shape(cfg, g) {
    g.inbox.Some? && forall c :: 0 <= c < cfg.N ==> g.clients[c].pc.Accepting? && g.inbox == Some(g.clients[c].op)
  }

  /** The destructor waits for the next command of a client that has ended without disconnecting. */
  predicate Abandoned(cfg: Config, g: State) requires Shape(cfg, g) && cfg.M >= 1 {
    && Finished(cfg, g) && Session(cfg.script, |cfg.script|).Some?
    && g.sims[0].pc.Finalizing? && !g.newQuery && g.sims[0].intercomm.Some? && Get(g.up, 0, 0) == []
    && forall s :: 0 < s < cfg.M ==> g.sims[s].pc.Ready? && g.sims[s].calls == |cfg.steps| && g.bq[s] == []
  }

  ghost predicate Final(cfg: Config, g: State)
    requires Shape(cfg, g) && cfg.M >= 1 && cfg.N >= 1
  {
    || (AllDone(cfg, g) && (Finished(cfg, g) || ToldToQuit(cfg, g) || Refused(cfg, g) || Stranded(cfg, g)))
    || Abandoned(cfg, g)
  }

  lemma SimsEnd(cfg: Config, g: State)
    requires cfg.Valid() && Inv(cfg, g) && Shape(cfg, g) && cfg.M >= 1 && cfg.N >= 1 && Linked(cfg, g) && Quiet(cfg, g)
    requires NoQueryLeft(cfg, g.sims[0], g.clients[0].op)
    ensures g.sims[0].pc.Done? ==> AllDone(cfg, g)
    ensures g.sims[0].pc.Finalizing? ==> forall s :: 0 < s < cfg.M ==> g.sims[s].pc.Ready? && g.sims[s].calls == |cfg.steps| && g.bq[s] == []
  {
    hide Inv, Config.Valid, Linked, Quiet, Link, Session, ReplayOk, CmdOk, HistOk, ClientOk;
    QuietNoLag(cfg, g);
    InvDesk(cfg, g);
    forall s: nat | 0 < s < cfg.M
      ensures g.sims[0].pc.Done? ==> g.sims[s].pc.Done?
      ensures g.sims[0].pc.Finalizing? ==> g.sims[s].pc.Ready? && g.sims[s].calls == |cfg.steps| && g.bq[s] == []
    {
      QuietCaughtUp(cfg, g, s);
      SimOkOf(cfg, g, s);
      if g.sims[s].pc.Ready? { QueueEmpty(cfg, g, s); }
    }
  }

  lemma QueueEmpty(cfg: Config, g: State, s: nat)
    requires cfg.Valid() && Inv(cfg, g) && Shape(cfg, g) && 0 < s < cfg.M && g.sims[s].pc.Ready? && g.sims[s].calls == |g.hist|
    ensures g.bq[s] == []
  {
    hide Inv, SimOk, EventOk;
    InvReplay(cfg, g, s);
  }

  lemma QuietIsFinal(cfg: Config, g: State)
    requires cfg.Valid() && Inv(cfg, g) && Shape(cfg, g) && cfg.M >= 1 && cfg.N >= 1 && Linked(cfg, g) && Quiet(cfg, g)
    ensures Final(cfg, g) || (g.sims[0].pc.Ready? && Finished(cfg, g) && !g.newQuery)
  {
    hide Inv, Config.Valid, Linked, Link, Session, ReplayOk, CmdOk, HistOk, ClientOk, DeskOk, SimOk;
    var cl0 := g.clients[0];
    QuietZero(cfg, g);
    InvDesk(cfg, g);
    DeskEnds(cfg, g.hist, g.taken, g.vsent, DeskOf(g));
    SimsEnd(cfg, g);
    QuietRoot(cfg, g);
    forall c: nat | 0 < c < cfg.N
      ensures cl0.pc.Closed? ==> g.clients[c].pc.Closed?
      ensures cl0.pc.Accepting? ==> g.clients[c].pc.Accepting?
      ensures cl0.pc.Start? ==> if cl0.op == |cfg.script| then g.clients[c].pc.Start? else g.clients[c].pc.InBarrier?
    {
      QuietBeside(cfg, g, c);
    }
    if cl0.pc.Accepting? { AcceptReturns(cfg, g); }
    if cl0.pc.Start? {
      QuietStart(cfg, g);
      if g.sims[0].pc.Ready? { DeskReady(cfg, g.hist, g.taken, g.vsent, DeskOf(g)); }
    }
  }

  lemma QuietStart(cfg: Config, g: State)
    requires cfg.Valid() && Inv(cfg, g) && Shape(cfg, g) && cfg.M >= 1 && cfg.N >= 1 && Quiet(cfg, g) && g.clients[0].pc.Start?
    ensures g.clients[0].op == |cfg.script| || (g.clients[0].op < |cfg.script| && cfg.script[g.clients[0].op] == CONNECT && !g.listening)
  {
    hide Inv, Config.Valid, Quiet, Link, Session, HistOk, ClientOk, DeskOk, SimOk, Moves;
    InvDesk(cfg, g);
    ListenerAt(cfg, g.hist, g.taken, g.vsent, DeskOf(g));
    QuietClient(cfg, g, 0);
    StartMoves(cfg, g);
  }

  lemma StartMoves(cfg: Config, g: State)
    requires Shape(cfg, g) && cfg.N >= 1 && |cfg.lo| == cfg.N + 1
    ensures CanStart(cfg, g, 0) ==> Moves(cfg, g, 0)
  {
  }

  lemma ListenerAt(cfg: Config, hist: seq<Event>, taken: seq<nat>, vsent: seq<int>, d: Desk)
    requires cfg.Valid() && DeskOk(cfg, hist, taken, vsent, d)
    ensures d.cl.pc.Start? ==> d.cl.op <= |cfg.script| && d.inbox == None
  {
  }

  lemma StuckIsQuiet(cfg: Config, g: State)
    requires cfg.Valid() && Shape(cfg, g) && cfg.M >= 1 && Stuck(cfg, g)
    ensures Quiet(cfg, g) && !g.sims[0].pc.Ready?
  {
    assert !Enabled(cfg, g, ARootIdle) && !Enabled(cfg, g, ARootConnect) && !Enabled(cfg, g, AStop);
  }

  // ----- Final states are stuck -------------------------------------------------------------------------------------------------

  lemma SimsRest(cfg: Config, g: State, a: Action)
    requires cfg.Valid() && Shape(cfg, g) && cfg.M >= 1 && IsSimAction(a)
    requires AllDone(cfg, g) || Abandoned(cfg, g)
    ensures !Enabled(cfg, g, a)
  {
    hide Config.Valid, FramesAt, LinkUp, Session, Finished;
    if AllDone(cfg, g) { assert g.sims[0].pc.Done?; }
  }

  lemma ClientsRest(cfg: Config, g: State, a: Action)
    requires cfg.Valid() && Shape(cfg, g) && |cfg.lo| == cfg.N + 1 && !IsSimAction(a)
    requires Finished(cfg, g) || ToldToQuit(cfg, g)
    ensures !Enabled(cfg, g, a)
  {
    hide Config.Valid, LinkUp, AllArrived;
    assert cfg.N >= 1 by { OwnerZero(cfg); }
  }

  lemma RefusedRest(cfg: Config, g: State, a: Action)
    requires cfg.Valid() && Inv(cfg, g) && Shape(cfg, g) && |cfg.lo| == cfg.N + 1 && cfg.N >= 1 && !IsSimAction(a) && Refused(cfg, g)
    ensures !Enabled(cfg, g, a)
  {
    hide Inv, Config.Valid, LinkUp, ClientOk, QuitOk, ResultOk;
    QuitOf(cfg, g, 0);
    InBarrierAt(cfg, 0, g.clients[0]);
    if a.ALeave? && a.c < cfg.N {
      QuitOf(cfg, g, a.c);
      InBarrierAt(cfg, a.c, g.clients[a.c]);
    }
  }

  lemma UnrecordedNotDialed(cfg: Config, hist: seq<Event>, taken: seq<nat>, vsent: seq<int>, d: Desk)
    requires cfg.Valid() && DeskOk(cfg, hist, taken, vsent, d) && d.cl.pc.Accepting? && d.inbox.Some?
    ensures d.cl.op !in d.root.dialed
  {
  }

  lemma StrandedRest(cfg: Config, g: State, a: Action)
    requires cfg.Valid() && Inv(cfg, g) && Shape(cfg, g) && |cfg.lo| == cfg.N + 1 && cfg.M >= 1 && cfg.N >= 1 && !IsSimAction(a) && Stranded(cfg, g)
    ensures !Enabled(cfg, g, a)
  {
    hide Inv, Config.Valid, DeskOk, AllArrived;
    InvDesk(cfg, g);
    UnrecordedNotDialed(cfg, g.hist, g.taken, g.vsent, DeskOf(g));
    assert g.clients[0].pc.Accepting?;
  }

  lemma FinalIsStuck(cfg: Config, g: State)
    requires cfg.Valid() && Inv(cfg, g) && Shape(cfg, g) && cfg.M >= 1 && cfg.N >= 1 && Final(cfg, g)
    ensures Stuck(cfg, g)
  {
    hide Inv, Config.Valid, AllDone, Finished, ToldToQuit, Refused, Stranded, Enabled;
    OwnerZero(cfg);
    FinishedOf(cfg, g);
    forall a ensures !Enabled(cfg, g, a) {
      if IsSimAction(a) { SimsRest(cfg, g, a); }
      else if Finished(cfg, g) || ToldToQuit(cfg, g) { ClientsRest(cfg, g, a); }
      else if Refused(cfg, g) { RefusedRest(cfg, g, a); }
      else { StrandedRest(cfg, g, a); }
    }
  }

  lemma FinishedOf(cfg: Config, g: State)
    requires Shape(cfg, g) && cfg.M >= 1
    ensures Abandoned(cfg, g) ==> Finished(cfg, g)
  {
    hide Finished, Session;
  }

  // ----- The theorems ---------------------------------------------------------------------------------------------------------------

  lemma ReachableLinked(cfg: Config, g: State)
    requires cfg.Valid() && Reachable(cfg, g)
    ensures Inv(cfg, g) && Shape(cfg, g) && cfg.M >= 1 && cfg.N >= 1 && Linked(cfg, g)
  {
    hide Enabled, Apply, Init, Inv, Linked;
    var gs, acts :| IsRun(cfg, gs, acts) && gs[|acts|] == g;
    ReachableInv(cfg, g);
    OwnerZero(cfg);
    RunLinked(cfg, gs, acts, |acts|);
  }

  /** A reachable state is stuck exactly when it is final: no rank on either side ever waits for
      something that cannot come any more, except in these five ways. */
  lemma StuckExactlyWhenFinal(cfg: Config, g: State)
    requires cfg.Valid() && Reachable(cfg, g)
    ensures Shape(cfg, g) && cfg.M >= 1 && cfg.N >= 1
    ensures Stuck(cfg, g) <==> Final(cfg, g)
  {
    hide Reachable, Inv, Config.Valid, Linked, Stuck, Final;
    ReachableLinked(cfg, g);
    if Stuck(cfg, g) {
      StuckIsQuiet(cfg, g);
      QuietIsFinal(cfg, g);
    }
    if Final(cfg, g) { FinalIsStuck(cfg, g); }
  }

  /** While any client has a query or a disconnect before it or under way, somebody can step: a query
      never deadlocks. */
  lemma QueryNeverDeadlocks(cfg: Config, g: State, c: nat)
    requires cfg.Valid() && Reachable(cfg, g) && Shape(cfg, g) && c < cfg.N
    requires g.clients[c].op < |cfg.script| && cfg.script[g.clients[c].op] != CONNECT && !g.clients[c].pc.Closed?
    ensures exists a :: Enabled(cfg, g, a)
  {
    hide Reachable, Inv, Config.Valid, Linked, Enabled, Session;
    ReachableLinked(cfg, g);
    StuckExactlyWhenFinal(cfg, g);
    AtConnect(cfg, g, c);
  }

  /** A client that is connected, or whose CONNECT was recorded, is never left waiting: in a stuck
      state an unanswered CONNECT is one that the listener thread never recorded. */
  lemma OnlyUnrecordedConnectsHang(cfg: Config, g: State, c: nat)
    requires cfg.Valid() && Reachable(cfg, g) && Shape(cfg, g) && cfg.M >= 1 && Stuck(cfg, g) && c < cfg.N
    requires !g.clients[c].pc.Closed? && g.clients[c].op < |cfg.script|
    ensures cfg.script[g.clients[c].op] == CONNECT && AllDone(cfg, g)
    ensures g.inbox == Some(g.clients[c].op) || (!g.listening && g.clients[0].pc.Start? && g.clients[0].op == g.clients[c].op)
  {
    hide Reachable, Inv, Config.Valid, Linked, Enabled, Session, Stuck;
    ReachableLinked(cfg, g);
    StuckExactlyWhenFinal(cfg, g);
    AtConnect(cfg, g, c);
  }

  /** If the client always disconnects, the simulation always gets to its end. */
  lemma SimulationEnds(cfg: Config, g: State)
    requires cfg.Valid() && Reachable(cfg, g) && Shape(cfg, g) && Stuck(cfg, g) && Session(cfg.script, |cfg.script|) == None
    ensures AllDone(cfg, g)
  {
    hide Reachable, Inv, Config.Valid, Linked, Enabled, Session, Stuck;
    StuckExactlyWhenFinal(cfg, g);
  }
}
