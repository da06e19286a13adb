/** What the steps of one sendCommand and of one connectSim add up to, over any run: what the methods of
    SimulationConnection do with the verdict that the simulation has sent on the command. */
module ProtocolClientCalls {
  import opened SimStates
  import opened Protocol
  import opened ProtocolFrames
  import opened ProtocolInvariant
  import opened ProtocolCommands
  import opened ProtocolSteps
  import opened ProtocolClientSteps
  import opened ProtocolTheorems
  import opened ProtocolVerdicts
  import opened SimulationConnection

  function PcOf(g: State, c: nat): ClientPc { if c < |g.clients| then g.clients[c].pc else ClientPc.Failed }

  predicate InSend(pc: ClientPc) { pc.AwaitVerdict? || pc.InBarrier? || pc.AwaitBcast? }

  predicate InConnect(pc: ClientPc) { pc.AwaitConnectVerdict? || pc.AwaitConnectBcast? }

  // ----- What the last step reads --------------------------------------------------------------------------

  /** A broadcast that rank c has yet to read means that rank 0 is past it. */
  lemma ZeroIsPast(cfg: Config, c: nat, cl0: ClientRank, cl: ClientRank)
    requires cfg.Valid() && 0 < c < cfg.N && ClientOk(cfg, 0, cl0) && ClientOk(cfg, c, cl) && cl.nb < cl0.nb
    ensures cl.pc.AwaitBcast? && cl0.op <= cl.op ==> cl0.op == cl.op && !cl0.pc.Start? && !cl0.pc.AwaitVerdict? && !cl0.pc.InBarrier?
    ensures cl.pc.AwaitConnectBcast? && cl0.op <= cl.op ==> cl0.op == cl.op && cl0.pc.Closed?
    ensures cl.pc.AwaitBcast? || cl.pc.AwaitConnectBcast? ==> cl.op < |cfg.script|
    ensures cl0.pc.Accepting? || cl0.pc.AwaitConnectVerdict? ==> cfg.script[cl0.op] == CONNECT
    ensures !cl0.pc.AwaitBcast? && !cl0.pc.AwaitConnectBcast? && !cl0.pc.Failed?
  {
    if cl0.op < cl.op { BcsMonotone(cfg.script, cl0.op, cl.op); }
  }

  /** The verdict on rank c's command has been sent by the time the rank reads it. */
  lemma VerdictRead(cfg: Config, g: State, c: nat)
    requires cfg.Valid() && Inv(cfg, g) && Shape(cfg, g) && c < cfg.N && cfg.N >= 1 && g.clients[c].op < |cfg.script|
    requires var cl := g.clients[c];
             || (c > 0 && cl.nb < |g.verdicts| && (cl.pc.AwaitConnectBcast? || (cl.pc.AwaitBcast? && cfg.script[cl.op] != CONNECT)))
             || (c == 0 && cl.pc.InBarrier? && cfg.script[cl.op] != CONNECT)
             || (c == 0 && CanConnectVerdict(cfg, g))
    ensures g.clients[c].op < |g.vsent| && g.vsent[g.clients[c].op] == Ver(cfg, g.hist, g.clients[c].op)
  {
    hide Inv, Config.Valid, ClientOk, QuitOk, ResultOk, Ver, CmdOk, HistOk, SimOk, DeskOk;
    InvDesk(cfg, g);
    DeskVerdicts(cfg, g.hist, g.taken, g.vsent, DeskOf(g));
    QuitOf(cfg, g, 0);
    QuitOf(cfg, g, c);
    if c > 0 { ZeroIsPast(cfg, c, g.clients[0], g.clients[c]); }
  }

  /** What SendCommand is given as the verdict: on CONNECT there is none yet, and rank 0 broadcasts its initial 0. */
  ghost function VerdictOn(g: State, cmd: Command, p: nat): int {
    if cmd == CONNECT then 0 else if p < |g.vsent| then g.vsent[p] else -1
  }

  // ----- sendCommand ------------------------------------------------------------------------------------------

  /** Rank c is inside sendCommand, which it entered as `was`. */
  ghost predicate SendMid(cfg: Config, c: nat, was: ClientRank, cl: ClientRank) {
    && was.op < |cfg.script| && InSend(cl.pc)
    && (if cl.pc.AwaitVerdict? then c == 0 && cfg.script[was.op] != CONNECT && cl == was.(pc := AwaitVerdict)
        else cl == was.(pc := cl.pc, arrived := was.arrived + 1, quit := cl.quit)
             && (c == 0 && cfg.script[was.op] == CONNECT ==> cl.quit == 0))
  }

  /** Rank c has left it again. */
  ghost predicate SendDone(cfg: Config, g: State, c: nat, was: ClientRank, cl: ClientRank) {
    && was.op < |cfg.script|
    && var cmd := cfg.script[was.op];
       && (cmd != CONNECT ==> was.op < |g.vsent|)
       && cl == AfterCommand(cmd, was.(arrived := was.arrived + 1, nb := was.nb + 1,
                                       quit := Sent(c, cmd, if cmd == CONNECT then 0 else was.quit, VerdictOn(g, cmd, was.op))))
  }

  lemma SendStarts(cfg: Config, g: State, c: nat)
    requires cfg.Valid() && Shape(cfg, g) && CanStart(cfg, g, c)
    ensures SendMid(cfg, c, g.clients[c], StartOp(cfg, g, c).clients[c])
  {
  }

  lemma ZeroSendReturns(cfg: Config, g: State, was: ClientRank)
    requires cfg.Valid() && Inv(cfg, g) && Shape(cfg, g) && cfg.N >= 1 && SendMid(cfg, 0, was, g.clients[0]) && CanLeave(cfg, g, 0)
    ensures Leave(cfg, g, 0).vsent == g.vsent && SendDone(cfg, Leave(cfg, g, 0), 0, was, Leave(cfg, g, 0).clients[0])
  {
    hide Inv, Config.Valid, AllArrived, Ver;
    BarrierQuit(cfg, g);
    if cfg.script[was.op] != CONNECT { VerdictRead(cfg, g, 0); }
  }

  lemma OtherSendReturns(cfg: Config, g: State, c: nat, was: ClientRank)
    requires cfg.Valid() && Inv(cfg, g) && Shape(cfg, g) && 0 < c < cfg.N && SendMid(cfg, c, was, g.clients[c]) && CanReadBcast(cfg, g, c)
    ensures ReadBcast(cfg, g, c).vsent == g.vsent && SendDone(cfg, ReadBcast(cfg, g, c), c, was, ReadBcast(cfg, g, c).clients[c])
  {
    hide Inv, Config.Valid, Ver;
    ReadsVerdict(cfg, g, c);
    if cfg.script[was.op] != CONNECT { VerdictRead(cfg, g, c); }
  }

  /** In sendCommand's barrier rank 0 already knows the verdict. */
  lemma BarrierQuit(cfg: Config, g: State)
    requires cfg.Valid() && Inv(cfg, g) && Shape(cfg, g) && cfg.N >= 1 && g.clients[0].pc.InBarrier?
    ensures g.clients[0].op < |cfg.script|
    ensures g.clients[0].quit == if cfg.script[g.clients[0].op] == CONNECT then 0 else Ver(cfg, g.hist, g.clients[0].op)
  {
    hide Inv, HistOk, SimOk, ClientOk, Ver;
    InvDesk(cfg, g);
  }

  lemma SendMoves(cfg: Config, g: State, a: Action, c: nat, was: ClientRank)
    requires cfg.Valid() && Inv(cfg, g) && Shape(cfg, g) && Enabled(cfg, g, a) && !IsSimAction(a) && ActingClient(a) == c < cfg.N
    requires SendMid(cfg, c, was, g.clients[c])
    requires Shape(cfg, Apply(cfg, g, a)) && ClientOk(cfg, c, Apply(cfg, g, a).clients[c])
    ensures var g' := Apply(cfg, g, a);
            if InSend(g'.clients[c].pc) then SendMid(cfg, c, was, g'.clients[c]) else SendDone(cfg, g', c, was, g'.clients[c])
  {
    hide Inv, Config.Valid, AllArrived, SendDone, ClientOk, LinkUp, Assemble, Complete, Expects;
    Sizes(cfg);
    NotFailed(cfg, c, Apply(cfg, g, a).clients[c]);
    if a == ALeave(0) { ZeroSendReturns(cfg, g, was); }
    if a.AReadBcast? { OtherSendReturns(cfg, g, c, was); }
  }

  lemma NotFailed(cfg: Config, c: nat, cl: ClientRank)
    requires cfg.Valid() && c < cfg.N && ClientOk(cfg, c, cl)
    ensures !cl.pc.Failed?
  {
  }

  ghost predicate SendAt(cfg: Config, g: State, c: nat, was: ClientRank) {
    Shape(cfg, g) && c < cfg.N
    && if InSend(g.clients[c].pc) then SendMid(cfg, c, was, g.clients[c]) else SendDone(cfg, g, c, was, g.clients[c])
  }

  lemma SendContinues(cfg: Config, g: State, a: Action, c: nat, was: ClientRank)
    requires cfg.Valid() && Inv(cfg, g) && Shape(cfg, g) && Enabled(cfg, g, a) && c < cfg.N && SendMid(cfg, c, was, g.clients[c])
    ensures SendAt(cfg, Apply(cfg, g, a), c, was)
  {
    hide Inv, Config.Valid, Enabled, Apply, SendMid, SendDone;
    assert InSend(g.clients[c].pc) by { MidInSend(cfg, c, was, g.clients[c]); }
    if IsSimAction(a) {
      SimStepFrame(cfg, g, a);
    } else {
      ClientStepFrame(cfg, g, a);
      if ActingClient(a) == c {
        KeepStep(cfg, g, a);
        QuitOf(cfg, Apply(cfg, g, a), c);
        SendMoves(cfg, g, a, c, was);
      }
    }
  }

  lemma MidInSend(cfg: Config, c: nat, was: ClientRank, cl: ClientRank)
    requires SendMid(cfg, c, was, cl)
    ensures InSend(cl.pc)
  {
  }

  lemma {:induction false} SendUntil(cfg: Config, gs: seq<State>, acts: seq<Action>, c: nat, i: nat, m: nat)
    requires cfg.Valid() && IsRun(cfg, gs, acts) && i < m <= |acts| && acts[i] == AStart(c) && c < |gs[i].clients|
    requires forall n :: i < n < m ==> InSend(PcOf(gs[n], c))
    ensures SendAt(cfg, gs[m], c, gs[i].clients[c])
    decreases m
  {
    hide Inv, Init, SendMid, SendDone, Config.Valid;
    RunInv(cfg, gs, acts, m - 1);
    if m == i + 1 {
      ClientStepFrame(cfg, gs[i], acts[i]);
      SendStarts(cfg, gs[i], c);
      MidInSend(cfg, c, gs[i].clients[c], gs[m].clients[c]);
    } else {
      hide Enabled, Apply;
      SendUntil(cfg, gs, acts, c, i, m - 1);
      assert InSend(PcOf(gs[m-1], c));
      SendContinues(cfg, gs[m-1], acts[m-1], c, gs[i].clients[c]);
    }
  }

  /** sendCommand on any client rank, over any run: from its first step to the first state in which the rank is past
      it, the rank changes as SendCommand and what follows it say, and the verdict is the one the simulation sent on this
      command. */
  lemma StepsAreSendCommand(cfg: Config, gs: seq<State>, acts: seq<Action>, c: nat, i: nat, j: nat)
    requires cfg.Valid() && IsRun(cfg, gs, acts) && i < j <= |acts| && acts[i] == AStart(c) && c < |gs[i].clients| && c < |gs[j].clients|
    requires (forall n :: i < n < j ==> InSend(PcOf(gs[n], c))) && !InSend(PcOf(gs[j], c))
    ensures var was := gs[i].clients[c];
            && was.op < |cfg.script|
            && var cmd := cfg.script[was.op];
               && (cmd != CONNECT ==> was.op < |gs[j].vsent|)
               && var verdict := if cmd == CONNECT then 0 else gs[j].vsent[was.op];
                  gs[j].clients[c] == AfterCommand(cmd, was.(arrived := was.arrived + 1, nb := was.nb + 1,
                                                             quit := Sent(c, cmd, if cmd == CONNECT then 0 else was.quit, verdict)))
  {
    hide IsRun, Inv, Config.Valid, Sent, AfterCommand;
    SendUntil(cfg, gs, acts, c, i, j);
  }

  // ----- connectSim after the accept -------------------------------------------------------------------------------

  ghost predicate ConnectAt(cfg: Config, g: State, c: nat, was: ClientRank) {
    Shape(cfg, g) && c < cfg.N
    && if InConnect(g.clients[c].pc) then g.clients[c] == was.(pc := g.clients[c].pc)
       else was.op < |g.vsent| && g.clients[c] == AfterConnect(was.(nb := was.nb + 1, quit := g.vsent[was.op]))
  }

  lemma ConnectMoves(cfg: Config, g: State, a: Action, c: nat, was: ClientRank)
    requires cfg.Valid() && Inv(cfg, g) && Shape(cfg, g) && Enabled(cfg, g, a) && !IsSimAction(a) && ActingClient(a) == c < cfg.N && cfg.N >= 1
    requires InConnect(g.clients[c].pc) && g.clients[c] == was.(pc := g.clients[c].pc) && was.op < |cfg.script|
    requires Shape(cfg, Apply(cfg, g, a))
    ensures ConnectAt(cfg, Apply(cfg, g, a), c, was)
  {
    hide Inv, Config.Valid, Ver, LinkUp, AllArrived, Assemble, Complete, Expects;
    assert (c == 0 && a.AConnectVerdict?) || (c > 0 && a.AConnectBcast?) by { ConnectActs(cfg, g, a, c); }
    VerdictRead(cfg, g, c);
    if c > 0 { ReadsVerdict(cfg, g, c); } else { VerdictWaits(cfg, g); }
  }

  lemma ConnectActs(cfg: Config, g: State, a: Action, c: nat)
    requires cfg.Valid() && Inv(cfg, g) && Shape(cfg, g) && Enabled(cfg, g, a) && !IsSimAction(a) && ActingClient(a) == c < cfg.N && InConnect(g.clients[c].pc)
    ensures (c == 0 && a.AConnectVerdict?) || (c > 0 && a.AConnectBcast?)
  {
    hide Inv, Config.Valid, LinkUp, AllArrived;
    Sizes(cfg);
  }

  lemma ConnectContinues(cfg: Config, g: State, a: Action, c: nat, was: ClientRank)
    requires cfg.Valid() && Inv(cfg, g) && Shape(cfg, g) && Enabled(cfg, g, a) && c < cfg.N && was.op < |cfg.script|
    requires InConnect(g.clients[c].pc) && g.clients[c] == was.(pc := g.clients[c].pc)
    ensures ConnectAt(cfg, Apply(cfg, g, a), c, was)
  {
    hide Inv, Config.Valid, Enabled, Apply, AfterConnect;
    Sizes(cfg);
    if IsSimAction(a) {
      SimStepFrame(cfg, g, a);
    } else {
      ClientStepFrame(cfg, g, a);
      if ActingClient(a) == c { ConnectMoves(cfg, g, a, c, was); }
    }
  }

  lemma AcceptStarts(cfg: Config, g: State, c: nat)
    requires cfg.Valid() && Inv(cfg, g) && Shape(cfg, g) && CanAccept(cfg, g, c)
    ensures g.clients[c].op < |cfg.script| && InConnect(Accept(cfg, g, c).clients[c].pc) && ConnectAt(cfg, Accept(cfg, g, c), c, g.clients[c])
  {
    hide Inv, LinkUp, ClientOk, QuitOk, ResultOk;
    QuitOf(cfg, g, c);
    AcceptingPlace(cfg, c, g.clients[c]);
  }

  lemma AcceptingPlace(cfg: Config, c: nat, cl: ClientRank)
    requires cfg.Valid() && c < cfg.N && ClientOk(cfg, c, cl) && cl.pc.Accepting?
    ensures cl.op < |cfg.script|
  {
  }

  lemma {:induction false} ConnectUntil(cfg: Config, gs: seq<State>, acts: seq<Action>, c: nat, i: nat, m: nat)
    requires cfg.Valid() && IsRun(cfg, gs, acts) && i < m <= |acts| && acts[i] == AAccept(c) && c < |gs[i].clients|
    requires forall n :: i < n < m ==> InConnect(PcOf(gs[n], c))
    ensures gs[i].clients[c].op < |cfg.script| && ConnectAt(cfg, gs[m], c, gs[i].clients[c])
    decreases m
  {
    hide Inv, Init, Config.Valid, AfterConnect;
    RunInv(cfg, gs, acts, m - 1);
    if m == i + 1 {
      AcceptStarts(cfg, gs[i], c);
    } else {
      hide Enabled, Apply;
      ConnectUntil(cfg, gs, acts, c, i, m - 1);
      assert InConnect(PcOf(gs[m-1], c));
      ConnectContinues(cfg, gs[m-1], acts[m-1], c, gs[i].clients[c]);
    }
  }

  /** connectSim on any client rank, over any run: from the return of accept to the first state in which the rank is past
      connectSim, simQuit becomes the verdict the simulation sent on this CONNECT. */
  lemma StepsAreConnectSim(cfg: Config, gs: seq<State>, acts: seq<Action>, c: nat, i: nat, j: nat)
    requires cfg.Valid() && IsRun(cfg, gs, acts) && i < j <= |acts| && acts[i] == AAccept(c) && c < |gs[i].clients| && c < |gs[j].clients|
    requires (forall n :: i < n < j ==> InConnect(PcOf(gs[n], c))) && !InConnect(PcOf(gs[j], c))
    ensures var was := gs[i].clients[c];
            && was.op < |gs[j].vsent|
            && gs[j].clients[c] == AfterConnect(was.(nb := was.nb + 1, quit := gs[j].vsent[was.op]))
  {
    hide IsRun, Inv, Config.Valid, AfterConnect;
    ConnectUntil(cfg, gs, acts, c, i, j);
  }
}
