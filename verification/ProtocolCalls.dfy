/** What the steps of one call add up to. Over any run, whatever the other ranks and the client do while a
    rank is inside process or inside the destructor, the rank ends up as the method of ConnectionManager
    leaves it, given the command and the broadcasts that were there when the call began. */
module ProtocolCalls {
  import opened SimStates
  import opened Protocol
  import opened ProtocolFrames
  import opened ProtocolInvariant
  import opened ProtocolCommands
  import opened ProtocolFollowers
  import opened ProtocolSteps
  import opened ProtocolTheorems
  import opened ProtocolRanks
  import opened ConnectionManager

  /** A rank outside any call. */
  predicate Outside(pc: SimPc) { pc.Ready? || pc.Done? }

  /** The end of a call: process returns, or the destructor does. */
  function Close(cfg: Config, r: SimRank): SimRank {
    if r.calls >= |cfg.steps| then r.(pc := Done) else Finish(r)
  }

  // ----- Sim rank 0 ----------------------------------------------------------------------------------

  predicate BeginsRoot(a: Action) {
    a.ARootIdle? || a.ARootConnect? || a.ARootCommand? || a.AFinNone? || a.AFinConnect? || a.AFinCommand?
  }

  /** The command that probe and recv find when the call begins. */
  function Waiting(g: State, a: Action): Option<int> {
    if (a.ARootCommand? || a.AFinCommand?) && Get(g.up, 0, 0) != [] && Get(g.up, 0, 0)[0].CommandMsg?
    then Some(Get(g.up, 0, 0)[0].code) else None
  }

  function RootOutcome(g: State, a: Action): Outcome requires |g.sims| > 0 {
    if a.ARootIdle? || a.ARootConnect? || a.ARootCommand? then RootCall(g.sims[0], g.newQuery, g.listening, Waiting(g, a))
    else RootEnd(g.sims[0], g.newQuery, Waiting(g, a))
  }

  /** Rank 0 is on its way to outcome o, having sent `sent` before the call. */
  ghost predicate RootMid(cfg: Config, r: SimRank, sh: Shared, o: Outcome, sent: seq<int>) {
    && o.Returned? && sh.listening == o.listening
    && match r.pc
       case Connecting =>
         && Close(cfg, r.(intercomm := Some(r.clientPort))) == o.sim
         && o.newQuery == (r.calls >= |cfg.steps| && sh.newQuery)
         && sh.vsent + [if r.calls >= |cfg.steps| then 1 else 0] == sent + o.told
       case ProbeAll => r.calls < |cfg.steps| && Finish(r) == o.sim && sh.newQuery == o.newQuery && sh.vsent == sent + o.told
       case Sending(_, _) => r.calls < |cfg.steps| && Finish(r) == o.sim && sh.newQuery == o.newQuery && sh.vsent == sent + o.told
       case Ready => r == o.sim && sh.newQuery == o.newQuery && sh.vsent == sent + o.told
       case Done => r == o.sim && sh.newQuery == o.newQuery && sh.vsent == sent + o.told
       case _ => false
  }

  /** g' is the state after the step with which rank 0 begins a call. */
  ghost predicate RootBegun(cfg: Config, g: State, a: Action, g': State) requires |g.sims| > 0 {
    var o := RootOutcome(g, a);
    && Shape(cfg, g) && Shape(cfg, g') && cfg.M >= 1 && RootMid(cfg, g'.sims[0], SharedOf(g'), o, g.vsent)
    && Announced(cfg, g, g', o.announced)
  }

  lemma IdleBegins(cfg: Config, g: State)
    requires cfg.Valid() && Inv(cfg, g) && Shape(cfg, g) && cfg.M >= 1 && CanRootIdle(cfg, g)
    ensures RootBegun(cfg, g, ARootIdle, RootIdle(cfg, g))
  {
    hide Inv, Config.Valid, CmdOk, HistOk, ClientOk, SimOk, DeskOk, Push, Pop;
    InvDesk(cfg, g);
  }

  lemma ConnectBegins(cfg: Config, g: State)
    requires cfg.Valid() && Inv(cfg, g) && Shape(cfg, g) && cfg.M >= 1 && CanRootConnect(cfg, g)
    ensures RootBegun(cfg, g, ARootConnect, RootConnect(cfg, g))
  {
    hide Inv, Config.Valid, CmdOk, HistOk, ClientOk, SimOk, DeskOk, Push, Pop;
    InvDesk(cfg, g);
    CmdRootConnect(cfg, g.hist, g.taken, g.vsent, DeskOf(g));
  }

  lemma CommandBegins(cfg: Config, g: State)
    requires cfg.Valid() && Inv(cfg, g) && Shape(cfg, g) && cfg.M >= 1 && CanRootCommand(cfg, g)
    ensures RootBegun(cfg, g, ARootCommand, RootCommand(cfg, g))
  {
    hide Inv, Config.Valid, CmdOk, HistOk, ClientOk, SimOk, DeskOk, Push, Pop;
    InvDesk(cfg, g);
    CmdRootCommand(cfg, g.hist, g.taken, g.vsent, DeskOf(g));
  }

  lemma FinNoneBegins(cfg: Config, g: State)
    requires cfg.Valid() && Inv(cfg, g) && Shape(cfg, g) && cfg.M >= 1 && CanFinNone(cfg, g)
    ensures RootBegun(cfg, g, AFinNone, FinNone(cfg, g))
  {
    hide Inv, Config.Valid, CmdOk, HistOk, ClientOk, SimOk, DeskOk, Push, Pop;
    InvDesk(cfg, g);
    DeskSilent(cfg, g.hist, g.taken, g.vsent, DeskOf(g));
    CmdFinNone(cfg, g.hist, g.taken, g.vsent, DeskOf(g));
  }

  lemma FinConnectBegins(cfg: Config, g: State)
    requires cfg.Valid() && Inv(cfg, g) && Shape(cfg, g) && cfg.M >= 1 && CanFinConnect(cfg, g)
    ensures RootBegun(cfg, g, AFinConnect, FinConnect(cfg, g))
  {
    hide Inv, Config.Valid, CmdOk, HistOk, ClientOk, SimOk, DeskOk, Push, Pop;
    InvDesk(cfg, g);
    DeskSilent(cfg, g.hist, g.taken, g.vsent, DeskOf(g));
    CmdFinConnect(cfg, g.hist, g.taken, g.vsent, DeskOf(g));
  }

  lemma FinCommandBegins(cfg: Config, g: State)
    requires cfg.Valid() && Inv(cfg, g) && Shape(cfg, g) && cfg.M >= 1 && CanFinCommand(cfg, g)
    ensures RootBegun(cfg, g, AFinCommand, FinCommand(cfg, g))
  {
    hide Inv, Config.Valid, CmdOk, HistOk, ClientOk, SimOk, DeskOk, Push, Pop;
    InvDesk(cfg, g);
    DeskSilent(cfg, g.hist, g.taken, g.vsent, DeskOf(g));
    CmdFinCommand(cfg, g.hist, g.taken, g.vsent, DeskOf(g));
  }

  lemma RootBegins(cfg: Config, g: State, a: Action)
    requires cfg.Valid() && Inv(cfg, g) && Shape(cfg, g) && Enabled(cfg, g, a) && cfg.M >= 1 && BeginsRoot(a)
    ensures RootBegun(cfg, g, a, Apply(cfg, g, a))
  {
    hide Inv, Config.Valid, RootBegun, RootIdle, RootConnect, RootCommand, FinNone, FinConnect, FinCommand;
    match a {
      case ARootIdle => IdleBegins(cfg, g);
      case ARootConnect => ConnectBegins(cfg, g);
      case ARootCommand => CommandBegins(cfg, g);
      case AFinNone => FinNoneBegins(cfg, g);
      case AFinConnect => FinConnectBegins(cfg, g);
      case AFinCommand => FinCommandBegins(cfg, g);
      case _ =>
    }
  }

  lemma DeskSilent(cfg: Config, hist: seq<Event>, taken: seq<nat>, vsent: seq<int>, d: Desk)
    requires cfg.Valid() && DeskOk(cfg, hist, taken, vsent, d)
    ensures d.root.pc.Finalizing? ==> !d.listening && d.root.calls == |cfg.steps|
  {
    hide HistOk, ClientOk, Session;
  }

  lemma RootContinues(cfg: Config, g: State, a: Action, o: Outcome, sent: seq<int>)
    requires cfg.Valid() && Inv(cfg, g) && Shape(cfg, g) && Enabled(cfg, g, a) && cfg.M >= 1
    requires RootMid(cfg, g.sims[0], SharedOf(g), o, sent) && !Outside(g.sims[0].pc)
    ensures Shape(cfg, Apply(cfg, g, a)) && RootMid(cfg, Apply(cfg, g, a).sims[0], SharedOf(Apply(cfg, g, a)), o, sent)
  {
    hide Inv, Config.Valid, Enabled, Apply, RootMid;
    if !IsSimAction(a) {
      ClientStepFrame(cfg, g, a);
    } else {
      SimStepFrame(cfg, g, a);
      if ActingSim(a) == 0 {
        KeepStep(cfg, g, a);
        RankIs(cfg, Apply(cfg, g, a), 0);
        RootMoves(cfg, g, a, o, sent);
      }
    }
  }

  lemma RootMoves(cfg: Config, g: State, a: Action, o: Outcome, sent: seq<int>)
    requires cfg.Valid() && Shape(cfg, g) && Enabled(cfg, g, a) && cfg.M >= 1 && IsSimAction(a) && ActingSim(a) == 0
    requires RootMid(cfg, g.sims[0], SharedOf(g), o, sent) && !Outside(g.sims[0].pc)
    requires Shape(cfg, Apply(cfg, g, a)) && SimOk(cfg, 0, Apply(cfg, g, a).sims[0])
    ensures RootMid(cfg, Apply(cfg, g, a).sims[0], SharedOf(Apply(cfg, g, a)), o, sent)
  {
    hide Config.Valid, LinkUp, FramesAt, Session, Push, Pop, Dispatch, Dial, Bcast;
  }

  ghost predicate RootAt(cfg: Config, g: State, o: Outcome, sent: seq<int>) {
    Shape(cfg, g) && cfg.M >= 1 && RootMid(cfg, g.sims[0], SharedOf(g), o, sent)
  }

  /** Rank s is inside a call. */
  predicate Inside(cfg: Config, g: State, s: nat) {
    Shape(cfg, g) && s < cfg.M && !Outside(g.sims[s].pc)
  }

  predicate Announced(cfg: Config, g: State, g': State, ms: seq<BMsg>) {
    Shape(cfg, g) && Shape(cfg, g') && forall t :: 0 <= t < cfg.M ==> g'.bq[t] == g.bq[t] + ms
  }

  lemma {:induction false} RootUntil(cfg: Config, gs: seq<State>, acts: seq<Action>, b: nat, m: nat)
    requires cfg.Valid() && IsRun(cfg, gs, acts) && b < m <= |acts| && BeginsRoot(acts[b]) && |gs[b].sims| > 0
    requires forall n :: b < n < m ==> Inside(cfg, gs[n], 0)
    ensures RootAt(cfg, gs[m], RootOutcome(gs[b], acts[b]), gs[b].vsent)
    ensures Announced(cfg, gs[b], gs[b+1], RootOutcome(gs[b], acts[b]).announced)
    decreases m
  {
    hide Inv, Enabled, Apply, Init, RootMid, RootOutcome, Config.Valid;
    var o := RootOutcome(gs[b], acts[b]);
    RunInv(cfg, gs, acts, m - 1);
    Sizes(cfg);
    if m == b + 1 {
      RootBegins(cfg, gs[b], acts[b]);
    } else {
      RootUntil(cfg, gs, acts, b, m - 1);
      assert Inside(cfg, gs[m-1], 0);
      RootContinues(cfg, gs[m-1], acts[m-1], o, gs[b].vsent);
    }
  }

  lemma RunShape(cfg: Config, gs: seq<State>, acts: seq<Action>, n: nat)
    requires cfg.Valid() && IsRun(cfg, gs, acts) && n <= |acts|
    ensures Shape(cfg, gs[n]) && Inv(cfg, gs[n]) && cfg.M >= 1
  {
    hide Inv, Enabled, Apply, Init;
    RunInv(cfg, gs, acts, n);
    ShapeOf(cfg, gs[n]);
    Sizes(cfg);
  }

  /** A whole call on rank 0: from the step that begins it to the state in which rank 0 is outside again. */
  lemma RootCallDone(cfg: Config, gs: seq<State>, acts: seq<Action>, b: nat, j: nat)
    requires cfg.Valid() && IsRun(cfg, gs, acts) && b < j <= |acts| && BeginsRoot(acts[b])
    requires |gs[b].sims| > 0 && |gs[j].sims| > 0
    requires (forall n :: b < n < j ==> Inside(cfg, gs[n], 0)) && Outside(gs[j].sims[0].pc)
    ensures var o := RootOutcome(gs[b], acts[b]);
            && o.Returned? && o == Returned(gs[j].sims[0], gs[j].newQuery, gs[j].listening, o.announced, o.told)
            && gs[j].vsent == gs[b].vsent + o.told
            && Announced(cfg, gs[b], gs[b+1], o.announced)
  {
    hide IsRun, Inv, RootOutcome, Config.Valid;
    RootUntil(cfg, gs, acts, b, j);
  }

  // ----- The other simulation ranks ---------------------------------------------------------------------

  /** Rank s is on its way to outcome o, and the broadcasts it still needs are at the head of its queue. */
  ghost predicate FollowMid(cfg: Config, r: SimRank, q: seq<BMsg>, o: Outcome) {
    && o.Returned? && !o.newQuery && !o.listening && o.announced == [] && o.told == []
    && match r.pc
       case AwaitCommand =>
         && r.calls < |cfg.steps| && q != [] && q[0].CommandCode? && (q[0].code == Code(CONNECT) ==> |q| >= 2 && q[1].PortName?)
         && FollowerCall(r.(pc := Ready), [HaveQuery(true)] + q) == o
       case AwaitPort =>
         && q != [] && q[0].PortName? && r.intercomm.None?
         && o.sim == Close(cfg, Dial(r.(clientPort := q[0].port)).(intercomm := Some(q[0].port)))
       case Connecting => Close(cfg, r.(intercomm := Some(r.clientPort))) == o.sim
       case ProbeAll => r.calls < |cfg.steps| && Finish(r) == o.sim
       case Sending(_, _) => r.calls < |cfg.steps| && Finish(r) == o.sim
       case Ready => r == o.sim
       case Done => r == o.sim
       case _ => false
  }

  lemma QueueHeads(cfg: Config, hist: seq<Event>, taken: seq<nat>, s: nat, sim: SimRank, q: seq<BMsg>)
    requires cfg.Valid() && 0 < s < cfg.M && ReplayOk(cfg, hist, taken, s, sim, q) && sim.pc.Ready? && q != []
    ensures sim.calls < |cfg.steps| ==> Orderly(q)
    ensures sim.calls < |cfg.steps| && q[0].have ==> FollowerCall(sim, q).Returned?
    ensures sim.calls >= |cfg.steps| ==> OrderlyEnd(q) && FollowerEnd(sim, q).Returned?
  {
    hide Stream, FramesAt;
    Replay(cfg, hist, taken, s, sim, q);
    if sim.ops < |cfg.script| { OpOpensSession(cfg, sim.ops); }
  }

  lemma FollowerBegins(cfg: Config, g: State, s: nat)
    requires cfg.Valid() && Inv(cfg, g) && Shape(cfg, g) && CanHave(cfg, g, s)
    ensures Orderly(g.bq[s])
    ensures FollowMid(cfg, Have(cfg, g, s).sims[s], Have(cfg, g, s).bq[s], FollowerCall(g.sims[s], g.bq[s]))
  {
    hide Inv, Config.Valid, ReplayOk;
    InvReplay(cfg, g, s);
    QueueHeads(cfg, g.hist, g.taken, s, g.sims[s], g.bq[s]);
    var q := g.bq[s];
    if q[0].have { assert ([HaveQuery(true)] + q[1..])[1] == q[1]; }
  }

  lemma FollowerBeginsEnd(cfg: Config, g: State, s: nat)
    requires cfg.Valid() && Inv(cfg, g) && Shape(cfg, g) && CanFollowFin(cfg, g, s)
    ensures OrderlyEnd(g.bq[s])
    ensures FollowMid(cfg, FollowFin(cfg, g, s).sims[s], FollowFin(cfg, g, s).bq[s], FollowerEnd(g.sims[s], g.bq[s]))
  {
    hide Inv, Config.Valid, ReplayOk;
    InvReplay(cfg, g, s);
    QueueHeads(cfg, g.hist, g.taken, s, g.sims[s], g.bq[s]);
  }

  /** More broadcasts do not matter. */
  lemma MoreQueued(cfg: Config, r: SimRank, q: seq<BMsg>, q': seq<BMsg>, o: Outcome)
    requires FollowMid(cfg, r, q, o) && q <= q'
    ensures FollowMid(cfg, r, q', o)
  {
  }

  lemma FollowerHears(cfg: Config, g: State, a: Action, s: nat, o: Outcome)
    requires cfg.Valid() && Shape(cfg, g) && Enabled(cfg, g, a) && 0 < s < cfg.M && (a.ACommand? || a.APort?) && a.s == s
    requires FollowMid(cfg, g.sims[s], g.bq[s], o)
    requires Shape(cfg, Apply(cfg, g, a)) && SimOk(cfg, s, Apply(cfg, g, a).sims[s])
    ensures FollowMid(cfg, Apply(cfg, g, a).sims[s], Apply(cfg, g, a).bq[s], o)
  {
    hide Config.Valid, FramesAt, Session;
  }

  lemma FollowerMoves(cfg: Config, g: State, a: Action, s: nat, o: Outcome)
    requires cfg.Valid() && Shape(cfg, g) && Enabled(cfg, g, a) && 0 < s < cfg.M && (a.AConnected? || a.ATakePing? || a.ASend?) && a.s == s
    requires FollowMid(cfg, g.sims[s], g.bq[s], o)
    requires Shape(cfg, Apply(cfg, g, a)) && SimOk(cfg, s, Apply(cfg, g, a).sims[s])
    ensures FollowMid(cfg, Apply(cfg, g, a).sims[s], Apply(cfg, g, a).bq[s], o)
  {
    hide Config.Valid, LinkUp, FramesAt, Session, FollowerCall;
  }

  lemma InsideActions(cfg: Config, g: State, a: Action, s: nat)
    requires cfg.Valid() && Shape(cfg, g) && Enabled(cfg, g, a) && IsSimAction(a) && 0 < s < cfg.M && ActingSim(a) == s && !Outside(g.sims[s].pc)
    ensures (a.ACommand? || a.APort? || a.AConnected? || a.ATakePing? || a.ASend?) && a.s == s
  {
    hide Config.Valid, LinkUp, FramesAt;
  }

  lemma FollowerContinues(cfg: Config, g: State, a: Action, s: nat, o: Outcome)
    requires cfg.Valid() && Inv(cfg, g) && Shape(cfg, g) && Enabled(cfg, g, a) && 0 < s < cfg.M
    requires FollowMid(cfg, g.sims[s], g.bq[s], o) && !Outside(g.sims[s].pc)
    ensures Shape(cfg, Apply(cfg, g, a)) && FollowMid(cfg, Apply(cfg, g, a).sims[s], Apply(cfg, g, a).bq[s], o)
  {
    hide Inv, Config.Valid, Enabled, Apply, FollowMid;
    if !IsSimAction(a) {
      ClientStepFrame(cfg, g, a);
    } else {
      SimStepFrame(cfg, g, a);
      if ActingSim(a) == s {
        KeepStep(cfg, g, a);
        RankIs(cfg, Apply(cfg, g, a), s);
        InsideActions(cfg, g, a, s);
        if a.ACommand? || a.APort? { FollowerHears(cfg, g, a, s, o); } else { FollowerMoves(cfg, g, a, s, o); }
      } else {
        MoreQueued(cfg, g.sims[s], g.bq[s], Apply(cfg, g, a).bq[s], o);
      }
    }
  }

  /** What rank s has heard when it begins a call. */
  predicate Heard(cfg: Config, g: State, a: Action, s: nat) {
    Shape(cfg, g) && s < cfg.M && (if a.AHave? then Orderly(g.bq[s]) else OrderlyEnd(g.bq[s]))
  }

  function FollowerOutcome(cfg: Config, g: State, a: Action, s: nat): Outcome requires Heard(cfg, g, a, s) {
    if a.AHave? then FollowerCall(g.sims[s], g.bq[s]) else FollowerEnd(g.sims[s], g.bq[s])
  }

  ghost predicate FollowAfter(cfg: Config, g: State, s: nat, o: Outcome) {
    Shape(cfg, g) && s < cfg.M && FollowMid(cfg, g.sims[s], g.bq[s], o)
  }

  lemma {:induction false} FollowerUntil(cfg: Config, gs: seq<State>, acts: seq<Action>, s: nat, b: nat, m: nat)
    requires cfg.Valid() && IsRun(cfg, gs, acts) && b < m <= |acts| && 0 < s < cfg.M && (acts[b] == AHave(s) || acts[b] == AFollowFin(s))
    requires forall n :: b < n < m ==> Inside(cfg, gs[n], s)
    ensures Heard(cfg, gs[b], acts[b], s)
    ensures FollowAfter(cfg, gs[m], s, FollowerOutcome(cfg, gs[b], acts[b], s))
    decreases m
  {
    hide Inv, Init, FollowMid, FollowerCall, FollowerEnd, Config.Valid;
    RunInv(cfg, gs, acts, m - 1);
    if m == b + 1 {
      if acts[b].AHave? { FollowerBegins(cfg, gs[b], s); } else { FollowerBeginsEnd(cfg, gs[b], s); }
    } else {
      hide Enabled, Apply, Orderly, OrderlyEnd;
      FollowerUntil(cfg, gs, acts, s, b, m - 1);
      assert Inside(cfg, gs[m-1], s);
      FollowerContinues(cfg, gs[m-1], acts[m-1], s, FollowerOutcome(cfg, gs[b], acts[b], s));
    }
  }

  /** A whole call on another rank. */
  lemma FollowerCallDone(cfg: Config, gs: seq<State>, acts: seq<Action>, s: nat, b: nat, j: nat)
    requires cfg.Valid() && IsRun(cfg, gs, acts) && b < j <= |acts| && 0 < s < cfg.M && (acts[b] == AHave(s) || acts[b] == AFollowFin(s))
    requires (forall n :: b < n < j ==> Inside(cfg, gs[n], s)) && |gs[j].sims| == cfg.M && Outside(gs[j].sims[s].pc)
    ensures Heard(cfg, gs[b], acts[b], s)
    ensures FollowerOutcome(cfg, gs[b], acts[b], s) == Returned(gs[j].sims[s], false, false, [], [])
  {
    hide IsRun, Inv, FollowerCall, FollowerEnd, Config.Valid, Orderly, OrderlyEnd;
    FollowerUntil(cfg, gs, acts, s, b, j);
  }

  // ----- From one completed call to the next --------------------------------------------------------------

  function Calls(g: State, s: nat): int { if s < |g.sims| then g.sims[s].calls else -1 }

  /** gs[i] is between two calls of rank s, and gs[j] is the first state after that in which it has completed one more. */
  ghost predicate OneCall(cfg: Config, gs: seq<State>, acts: seq<Action>, s: nat, i: nat, j: nat)
    requires cfg.Valid()
  {
    && IsRun(cfg, gs, acts) && i < j <= |acts| && s < cfg.M
    && Shape(cfg, gs[i]) && gs[i].sims[s].pc.Ready? && Calls(gs[j], s) == gs[i].sims[s].calls + 1
    && forall m :: i <= m < j ==> Calls(gs[m], s) == gs[i].sims[s].calls
  }

  predicate Begins(a: Action, s: nat) {
    if s == 0 then a.ARootIdle? || a.ARootConnect? || a.ARootCommand? else a == AHave(s)
  }

  /** The next step, when rank s is between calls. */
  lemma ReadySteps(cfg: Config, g: State, a: Action, s: nat)
    requires cfg.Valid() && Shape(cfg, g) && Enabled(cfg, g, a) && s < cfg.M && g.sims[s].pc.Ready?
    ensures || Begins(a, s)
            || (Shape(cfg, Apply(cfg, g, a)) && Apply(cfg, g, a).sims[s].pc.Ready? && Apply(cfg, g, a).sims[s].calls == g.sims[s].calls
                && (s > 0 ==> Apply(cfg, g, a).sims[s] == g.sims[s]))
            || g.sims[s].calls >= |cfg.steps|
  {
    hide Config.Valid, Enabled, Apply;
    if !IsSimAction(a) {
      ClientStepFrame(cfg, g, a);
    } else {
      SimStepFrame(cfg, g, a);
      if ActingSim(a) == s { ReadyActs(cfg, g, a, s); }
    }
  }

  lemma ReadyActs(cfg: Config, g: State, a: Action, s: nat)
    requires cfg.Valid() && Shape(cfg, g) && Enabled(cfg, g, a) && IsSimAction(a) && ActingSim(a) == s < cfg.M && g.sims[s].pc.Ready?
    ensures || Begins(a, s)
            || (a == ARecord && s == 0 && Shape(cfg, Apply(cfg, g, a)) && Apply(cfg, g, a).sims[s].pc.Ready? && Apply(cfg, g, a).sims[s].calls == g.sims[s].calls)
            || g.sims[s].calls >= |cfg.steps|
  {
    hide Config.Valid, LinkUp, FramesAt;
  }

  lemma CallsBound(cfg: Config, gs: seq<State>, acts: seq<Action>, s: nat, j: nat)
    requires cfg.Valid() && IsRun(cfg, gs, acts) && j <= |acts| && s < cfg.M
    ensures Shape(cfg, gs[j]) && gs[j].sims[s].calls <= |cfg.steps|
  {
    hide Enabled, Apply, Init, Inv, Config.Valid, Session;
    RunShape(cfg, gs, acts, j);
    RankIs(cfg, gs[j], s);
  }

  lemma {:induction false} FindBegin(cfg: Config, gs: seq<State>, acts: seq<Action>, s: nat, i: nat, j: nat) returns (b: nat)
    requires cfg.Valid() && OneCall(cfg, gs, acts, s, i, j)
    ensures i <= b < j && Begins(acts[b], s) && OneCall(cfg, gs, acts, s, b, j)
    ensures s > 0 ==> gs[b].sims[s] == gs[i].sims[s]
    decreases j - i
  {
    hide Enabled, Apply, Init, Config.Valid;
    if Begins(acts[i], s) {
      b := i;
    } else {
      CallsBound(cfg, gs, acts, s, j);
      ReadySteps(cfg, gs[i], acts[i], s);
      b := FindBegin(cfg, gs, acts, s, i + 1, j);
    }
  }

  lemma RootOutcomeCalls(cfg: Config, g: State, a: Action)
    requires |g.sims| > 0 && g.sims[0].pc.Ready? && (a.ARootIdle? || a.ARootConnect? || a.ARootCommand?) && RootOutcome(g, a).Returned?
    ensures RootOutcome(g, a).sim.calls == g.sims[0].calls + 1 && RootOutcome(g, a).sim.pc.Ready?
  {
  }

  lemma RootMidCalls(cfg: Config, r: SimRank, sh: Shared, o: Outcome, sent: seq<int>)
    requires RootMid(cfg, r, sh, o, sent) && o.sim.pc.Ready?
    ensures Outside(r.pc) <==> r.calls == o.sim.calls
  {
  }

  lemma {:induction false} RootStaysInside(cfg: Config, gs: seq<State>, acts: seq<Action>, b: nat, j: nat, m: nat)
    requires cfg.Valid() && OneCall(cfg, gs, acts, 0, b, j) && Begins(acts[b], 0) && b < m <= j
    ensures forall n :: b < n < m ==> Inside(cfg, gs[n], 0)
    ensures RootAt(cfg, gs[m], RootOutcome(gs[b], acts[b]), gs[b].vsent)
    ensures Announced(cfg, gs[b], gs[b+1], RootOutcome(gs[b], acts[b]).announced)
    ensures |gs[m].sims| > 0 && (Outside(gs[m].sims[0].pc) <==> m == j)
    decreases m
  {
    hide Enabled, Apply, Init, Config.Valid, RootMid, RootOutcome;
    if m > b + 1 { RootStaysInside(cfg, gs, acts, b, j, m - 1); }
    RootUntil(cfg, gs, acts, b, m);
    var o := RootOutcome(gs[b], acts[b]);
    RootOutcomeCalls(cfg, gs[b], acts[b]) by { assert o.Returned? by { RootReturns(cfg, gs[m].sims[0], SharedOf(gs[m]), o, gs[b].vsent); } }
    RootMidCalls(cfg, gs[m].sims[0], SharedOf(gs[m]), o, gs[b].vsent);
    assert Calls(gs[m], 0) == gs[m].sims[0].calls;
  }

  lemma RootReturns(cfg: Config, r: SimRank, sh: Shared, o: Outcome, sent: seq<int>)
    requires RootMid(cfg, r, sh, o, sent)
    ensures o.Returned?
  {
  }

  /** process on rank 0, over any run: between two completed calls there is one step that begins the call, and what
      the call leaves behind, broadcasts and answers is what the method does with the fields and the command of that moment. */
  lemma RootCallsAreProcess(cfg: Config, gs: seq<State>, acts: seq<Action>, i: nat, j: nat) returns (b: nat)
    requires cfg.Valid() && OneCall(cfg, gs, acts, 0, i, j)
    ensures i <= b < j && Begins(acts[b], 0) && |gs[b].sims| > 0 && |gs[j].sims| > 0
    ensures var o := RootCall(gs[b].sims[0], gs[b].newQuery, gs[b].listening, Waiting(gs[b], acts[b]));
            && o.Returned? && o == Returned(gs[j].sims[0], gs[j].newQuery, gs[j].listening, o.announced, o.told)
            && gs[j].vsent == gs[b].vsent + o.told
            && Announced(cfg, gs[b], gs[b+1], o.announced)
  {
    hide IsRun, RootCall, Config.Valid, Waiting;
    b := FindBegin(cfg, gs, acts, 0, i, j);
    RootStaysInside(cfg, gs, acts, b, j, j);
    RootCallDone(cfg, gs, acts, b, j);
  }

  lemma FollowerOutcomeCalls(r: SimRank, q: seq<BMsg>)
    requires Orderly(q) && FollowerCall(r, q).Returned? && r.pc.Ready?
    ensures FollowerCall(r, q).sim.calls == r.calls + 1 && FollowerCall(r, q).sim.pc.Ready?
  {
  }

  lemma FollowMidCalls(cfg: Config, r: SimRank, q: seq<BMsg>, o: Outcome)
    requires FollowMid(cfg, r, q, o)
    ensures o.Returned?
    ensures o.sim.pc.Ready? ==> (Outside(r.pc) <==> r.calls == o.sim.calls)
  {
  }

  lemma {:induction false} FollowerStaysInside(cfg: Config, gs: seq<State>, acts: seq<Action>, s: nat, b: nat, j: nat, m: nat)
    requires cfg.Valid() && s > 0 && OneCall(cfg, gs, acts, s, b, j) && Begins(acts[b], s) && b < m <= j
    ensures forall n :: b < n < m ==> Inside(cfg, gs[n], s)
    ensures |gs[m].sims| == cfg.M && (Outside(gs[m].sims[s].pc) <==> m == j)
    decreases m
  {
    hide Enabled, Apply, Init, Config.Valid, FollowMid, FollowerCall, Orderly;
    if m > b + 1 { FollowerStaysInside(cfg, gs, acts, s, b, j, m - 1); }
    FollowerUntil(cfg, gs, acts, s, b, m);
    var o := FollowerOutcome(cfg, gs[b], acts[b], s);
    FollowMidCalls(cfg, gs[m].sims[s], gs[m].bq[s], o);
    FollowerOutcomeCalls(gs[b].sims[s], gs[b].bq[s]);
    assert Calls(gs[m], s) == gs[m].sims[s].calls;
  }

  /** process on any other rank, over any run: what is at the head of the rank's queue when it begins the call is one
      call's broadcasts, and the call leaves behind what the method does with the fields before it and these broadcasts. */
  lemma FollowerCallsAreProcess(cfg: Config, gs: seq<State>, acts: seq<Action>, s: nat, i: nat, j: nat) returns (b: nat)
    requires cfg.Valid() && s > 0 && OneCall(cfg, gs, acts, s, i, j)
    ensures i <= b < j && acts[b] == AHave(s) && Shape(cfg, gs[b]) && Shape(cfg, gs[j])
    ensures Orderly(gs[b].bq[s])
    ensures FollowerCall(gs[i].sims[s], gs[b].bq[s]) == Returned(gs[j].sims[s], false, false, [], [])
  {
    hide FollowerCall, Config.Valid, Orderly, Enabled, Apply, Init;
    b := FindBegin(cfg, gs, acts, s, i, j);
    FollowerStaysInside(cfg, gs, acts, s, b, j, j);
    FollowerCallDone(cfg, gs, acts, s, b, j);
    CallsBound(cfg, gs, acts, s, j);
  }
}
