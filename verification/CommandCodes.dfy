/** The three integers that stand for commands (is_command.h): what each of them makes a rank do when it
    arrives, and which of them is sent when. Here they are plain numbers. */
module CommandCodes {
  import opened SimStates
  import opened Protocol
  import opened ProtocolFrames
  import opened ProtocolInvariant
  import opened ProtocolCommands
  import opened ProtocolTheorems
  import opened ConnectionManager
  import opened ProtocolCalls
  import opened ProtocolSchedules

  // ----- One call, given the integer ---------------------------------------------------------------------

  /** process on a connected rank 0 that finds an integer: 2 is a query, 3 a disconnect, and anything else is thrown at,
      1 included, as a client is connected. */
  lemma ConnectedCall(r: SimRank, listening: bool, code: int)
    requires r.intercomm.Some?
    ensures var o := RootCall(r, false, listening, Some(code));
            && (code == 2 ==> o == Returned(r.(calls := r.calls + 1, clientCommand := -1, ops := r.ops + 1, pc := Ready), false, listening,
                                            [HaveQuery(true), CommandCode(2)], [0]))
            && (code == 3 ==> o == Returned(r.(calls := r.calls + 1, clientCommand := -1, ops := r.ops + 1, pc := Ready, intercomm := None), false,
                                            true, [HaveQuery(true), CommandCode(3)], [0]))
            && (o == Thrown <==> code != 2 && code != 3)
  {
  }

  /** process on rank 0 with a recorded command: 1 connects to the recorded port, unless a client is connected. */
  lemma RecordedCall(r: SimRank, listening: bool, waiting: Option<int>)
    ensures var o := RootCall(r, true, listening, waiting);
            && (r.clientCommand == 1 && r.intercomm.None? ==>
                  o == Returned(r.(calls := r.calls + 1, clientCommand := -1, ops := r.ops + 1, pc := Ready, dialed := r.dialed + {r.clientPort},
                                   intercomm := Some(r.clientPort)), false, listening,
                                [HaveQuery(true), CommandCode(1), PortName(r.clientPort)], [0]))
            && (r.clientCommand == 1 && r.intercomm.Some? ==> o == Thrown)
  {
  }

  /** process on rank 0 with nothing recorded and nothing to read. */
  lemma IdleCall(r: SimRank, listening: bool, waiting: Option<int>)
    requires r.intercomm.None? || waiting.None?
    ensures RootCall(r, false, listening, waiting) == Returned(r.(calls := r.calls + 1), false, listening, [HaveQuery(false)], [])
  {
  }

  /** process on another rank: the same commands, but the port is rank 0's, and nobody is told anything. */
  lemma FollowerByNumber(r: SimRank, code: int, port: nat)
    ensures var o := FollowerCall(r, [HaveQuery(true), CommandCode(code), PortName(port)]);
            var done := r.(calls := r.calls + 1, clientCommand := -1, ops := r.ops + 1, pc := Ready);
            && (code == 1 && r.intercomm.None? ==>
                  o == Returned(done.(clientPort := port, dialed := r.dialed + {port}, intercomm := Some(port)), false, false, [], []))
            && (code == 2 ==> o == Returned(done, false, false, [], []))
            && (code == 3 ==> o == Returned(done.(intercomm := None), false, false, [], []))
            && (o == Thrown <==> code < 1 || code > 3 || (code == 1 && r.intercomm.Some?))
  {
  }

  /** The destructor on rank 0: a client that has connected or connects now is told 1. */
  lemma EndByNumber(r: SimRank, newQuery: bool, code: int)
    requires newQuery ==> r.clientCommand == code
    requires newQuery || r.intercomm.Some?
    ensures var o := RootEnd(r, newQuery, Some(code));
            && (code == 1 ==>
                  if r.intercomm.Some? then o == Thrown
                  else o == Returned(r.(clientCommand := 1, pc := Done, ops := r.ops + 1, dialed := r.dialed + {r.clientPort},
                                        intercomm := Some(r.clientPort)), newQuery, false, [CommandCode(1), PortName(r.clientPort)], [1]))
            && (code == 2 && r.intercomm.Some? ==> o == Returned(r.(clientCommand := 2, pc := Done), newQuery, false, [CommandCode(2)], [1]))
            && (code == 3 && r.intercomm.Some? ==> o == Returned(r.(clientCommand := 3, pc := Done, ops := r.ops + 1), newQuery, false, [CommandCode(3)], [1]))
  {
  }

  // ----- One step, given the integer ---------------------------------------------------------------------

  /** The step in which rank 0 reads an integer: after 2 it waits for a ping, after 3 it listens again, and it fails on
      everything else. */
  lemma RootStepByNumber(cfg: Config, g: State, code: int)
    requires cfg.Valid() && Shape(cfg, g) && Enabled(cfg, g, ARootCommand) && |g.sims| > 0 && Get(g.up, 0, 0)[0] == CommandMsg(code)
    ensures var g' := Apply(cfg, g, ARootCommand);
            && |g'.sims| > 0
            && (code == 2 ==> g'.sims[0].pc == ProbeAll && g'.sims[0].intercomm == g.sims[0].intercomm && g'.listening == g.listening)
            && (code == 3 ==> g'.sims[0].pc == Ready && g'.sims[0].intercomm == None && g'.listening)
            && (g'.sims[0].pc == SimPc.Failed <==> code != 2 && code != 3)
  {
    hide Config.Valid, Push, Pop, Bcast;
  }

  /** And on the other ranks, from the broadcast. */
  lemma FollowStepByNumber(cfg: Config, g: State, s: nat, code: int)
    requires cfg.Valid() && Shape(cfg, g) && Enabled(cfg, g, ACommand(s)) && s < |g.sims| && s < |g.bq| && g.bq[s][0] == CommandCode(code)
    ensures var g' := Apply(cfg, g, ACommand(s));
            && s < |g'.sims|
            && (code == 1 && g.sims[s].intercomm == None ==> g'.sims[s].pc == AwaitPort)
            && (code == 2 ==> g'.sims[s].pc == ProbeAll && g'.sims[s].intercomm == g.sims[s].intercomm)
            && (code == 3 ==> g'.sims[s].pc == Ready && g'.sims[s].intercomm == None)
            && (g'.sims[s].pc == SimPc.Failed <==> code < 1 || code > 3 || (code == 1 && g.sims[s].intercomm != None))
  {
    hide Config.Valid;
  }

  /** What makes a simulation rank fail: a message that is not of the kind it waits for, a number that is no command in its
      place, or a client that connects twice. */
  predicate SimMisreads(g: State, a: Action)
    requires |g.sims| > 0 && |g.bq| == |g.sims| && IsSimAction(a) && ActingSim(a) < |g.sims|
  {
    var r, heard, sent := g.sims[ActingSim(a)], g.bq[ActingSim(a)], Get(g.up, 0, 0);
    match a
    case ARootConnect => r.clientCommand != 1 || r.intercomm != None
    case ARootCommand => sent != [] && sent[0] != CommandMsg(2) && sent[0] != CommandMsg(3)
    case AFinNone => r.clientCommand == 1
    case AFinConnect => r.clientCommand != 1 || r.intercomm != None
    case AFinCommand => sent != [] && (!sent[0].CommandMsg? || sent[0] == CommandMsg(1))
    case AHave(_) => heard != [] && !heard[0].HaveQuery?
    case ACommand(_) =>
      heard != [] && heard[0] != CommandCode(2) && heard[0] != CommandCode(3) && (heard[0] != CommandCode(1) || r.intercomm != None)
    case APort(_) => heard != [] && (!heard[0].PortName? || r.intercomm != None)
    case AFollowFin(_) => heard != [] && (!heard[0].CommandCode? || (heard[0] == CommandCode(1) && r.intercomm != None))
    case ATakePing(s, c) => Get(g.up, s, c) != [] && Get(g.up, s, c)[0] != Ping(c)
    case _ => false
  }

  /** It fails then and only then, and so does a client rank that gets no verdict where one is due, or a frame of another
      kind than the next. NobodyFails says that neither ever happens. */
  lemma RootFailsExactly(cfg: Config, g: State, a: Action)
    requires cfg.Valid() && Shape(cfg, g) && |g.sims| > 0 && Enabled(cfg, g, a) && IsSimAction(a) && OnRoot(a)
    ensures |Apply(cfg, g, a).sims| == |g.sims|
    ensures Apply(cfg, g, a).sims[0].pc.Failed? <==> SimMisreads(g, a)
  {
    hide Config.Valid, Push, Pop, Bcast;
  }

  lemma RankFailsExactly(cfg: Config, g: State, a: Action)
    requires cfg.Valid() && Shape(cfg, g) && |g.sims| > 0 && Enabled(cfg, g, a) && IsSimAction(a) && !OnRoot(a) && a.s < |g.sims|
    ensures |Apply(cfg, g, a).sims| == |g.sims|
    ensures Apply(cfg, g, a).sims[a.s].pc.Failed? <==> SimMisreads(g, a)
  {
    hide Config.Valid, Enabled, Apply, SimMisreads, Shape;
    if a.AHave? || a.ACommand? || a.APort? || a.AFollowFin? {
      HearerFailsExactly(cfg, g, a);
    } else {
      OtherFailsExactly(cfg, g, a);
    }
  }

  lemma HearerFailsExactly(cfg: Config, g: State, a: Action)
    requires cfg.Valid() && Shape(cfg, g) && |g.sims| > 0 && Enabled(cfg, g, a) && (a.AHave? || a.ACommand? || a.APort? || a.AFollowFin?)
    requires a.s < |g.sims|
    ensures |Apply(cfg, g, a).sims| == |g.sims|
    ensures Apply(cfg, g, a).sims[a.s].pc.Failed? <==> SimMisreads(g, a)
  {
    hide Config.Valid, LinkUp, FramesAt, Push, Pop;
  }

  lemma OtherFailsExactly(cfg: Config, g: State, a: Action)
    requires cfg.Valid() && Shape(cfg, g) && |g.sims| > 0 && Enabled(cfg, g, a) && (a.ATakePing? || a.AConnected? || a.ASend?)
    requires a.s < |g.sims|
    ensures |Apply(cfg, g, a).sims| == |g.sims|
    ensures Apply(cfg, g, a).sims[a.s].pc.Failed? <==> SimMisreads(g, a)
  {
    hide Config.Valid, LinkUp, FramesAt, Push, Pop;
  }

  lemma FrameFailsExactly(cfg: Config, g: State, c: nat, m: Msg)
    requires cfg.Valid() && Shape(cfg, g) && |cfg.lo| == cfg.N + 1 && Enabled(cfg, g, ARecv(c)) && c < |g.clients|
    requires Get(g.down, cfg.lo[c] + |g.clients[c].regions|, c)[..1] == [m]
    ensures |Apply(cfg, g, ARecv(c)).clients| == |g.clients|
    ensures Apply(cfg, g, ARecv(c)).clients[c].pc.Failed? <==> !m.FrameMsg? || !Expects(g.clients[c].got, m.frame)
  {
    hide Config.Valid, Complete, Expects, Assemble, Pop;
    assert Get(g.down, cfg.lo[c] + |g.clients[c].regions|, c)[..1][0] == m;
  }

  lemma VerdictFailsExactly(cfg: Config, g: State, a: Action, m: Msg)
    requires cfg.Valid() && Shape(cfg, g) && Enabled(cfg, g, a) && (a == AVerdict || a == AConnectVerdict) && |g.clients| > 0
    requires Get(g.down, 0, 0)[..1] == [m]
    ensures |Apply(cfg, g, a).clients| == |g.clients|
    ensures Apply(cfg, g, a).clients[0].pc.Failed? <==> !m.Verdict?
  {
    hide Config.Valid, Pop;
    assert Get(g.down, 0, 0)[..1][0] == m;
  }

  // ----- What is sent ------------------------------------------------------------------------------------------

  /** sendCommand puts 2 for a query and 3 for a disconnect on the intercommunicator; a connect goes to the socket. */
  lemma SentByNumber(cfg: Config, g: State)
    requires cfg.Valid() && Shape(cfg, g) && Enabled(cfg, g, AStart(0)) && |g.clients| > 0
    ensures g.clients[0].op < |cfg.script|
    ensures var cmd, g' := cfg.script[g.clients[0].op], Apply(cfg, g, AStart(0));
            && (cmd == QUERY ==> Get(g'.up, 0, 0) == Get(g.up, 0, 0) + [CommandMsg(2)] && g'.inbox == g.inbox)
            && (cmd == DISCONNECT ==> Get(g'.up, 0, 0) == Get(g.up, 0, 0) + [CommandMsg(3)] && g'.inbox == g.inbox)
            && (cmd == CONNECT ==> g'.up == g.up && g'.inbox == Some(g.clients[0].op))
  {
    hide Config.Valid;
  }

  // ----- Over whole runs -------------------------------------------------------------------------------------------

  /** In every reachable state: what rank 0 may read next is 2 if the client's command is a query and 3 if it is a
      disconnect, and a recorded command is 1, of a client that connects. */
  lemma CodesInFlight(cfg: Config, g: State)
    requires cfg.Valid() && Reachable(cfg, g) && Shape(cfg, g) && |g.sims| > 0
    ensures CanRootCommand(cfg, g) || CanFinCommand(cfg, g) ==>
              && g.sims[0].ops < |cfg.script|
              && ((cfg.script[g.sims[0].ops] == QUERY && Get(g.up, 0, 0) == [CommandMsg(2)])
                  || (cfg.script[g.sims[0].ops] == DISCONNECT && Get(g.up, 0, 0) == [CommandMsg(3)]))
    ensures g.newQuery && g.sims[0].pc.Ready? ==>
              g.sims[0].clientCommand == 1 && g.sims[0].ops < |cfg.script| && cfg.script[g.sims[0].ops] == CONNECT
  {
    hide Reachable, Config.Valid;
    if CanRootCommand(cfg, g) || CanFinCommand(cfg, g) { RootReadsCommand(cfg, g); }
    ListenerRuns(cfg, g);
  }

  /** One call of process on rank 0 over any run, by the client's script: it has nothing to do; or it connects, and says 1;
      or it queries, and says 2, keeping its connection; or it disconnects, and says 3, and listens again. Only in the
      first case does it tell the client nothing. */
  lemma CallByScript(cfg: Config, gs: seq<State>, acts: seq<Action>, i: nat, j: nat) returns (b: nat)
    requires cfg.Valid() && OneCall(cfg, gs, acts, 0, i, j)
    ensures i <= b < j && Shape(cfg, gs[b]) && |gs[b].sims| > 0 && |gs[j].sims| > 0 && gs[b].sims[0].ops <= |cfg.script|
    ensures var was, now := gs[b].sims[0], gs[j].sims[0];
            if acts[b] == ARootIdle then
              && ProtocolCalls.Announced(cfg, gs[b], gs[b+1], [HaveQuery(false)]) && gs[j].vsent == gs[b].vsent
              && now.intercomm == was.intercomm && now.ops == was.ops && now.clientCommand == was.clientCommand
            else
              && was.ops < |cfg.script| && now.ops == was.ops + 1 && gs[j].vsent == gs[b].vsent + [0]
              && now.clientCommand == -1 && !gs[j].newQuery
              && match cfg.script[was.ops]
                 case CONNECT => now.intercomm == Some(was.ops) && ProtocolCalls.Announced(cfg, gs[b], gs[b+1], [HaveQuery(true), CommandCode(1), PortName(was.ops)])
                 case QUERY => now.intercomm == was.intercomm && ProtocolCalls.Announced(cfg, gs[b], gs[b+1], [HaveQuery(true), CommandCode(2)])
                 case DISCONNECT => now.intercomm == None && gs[j].listening && ProtocolCalls.Announced(cfg, gs[b], gs[b+1], [HaveQuery(true), CommandCode(3)])
  {
    hide IsRun, Inv, RootCall, Enabled, Apply, Init, Reachable, ProtocolCalls.Announced, Config.Valid;
    b := RootCallsAreProcess(cfg, gs, acts, i, j);
    RunReachable(cfg, gs, acts, b);
    BeginIs(cfg, gs, acts, b);
    var g, r := gs[b], gs[b].sims[0];
    ReachableInv(cfg, g);
    RootOps(cfg, g);
    CodesInFlight(cfg, g);
    if acts[b] == ARootIdle {
      IdleCall(r, g.listening, None);
    } else if acts[b] == ARootConnect {
      ListenerRuns(cfg, g);
      RecordedCall(r, g.listening, None);
    } else {
      ConnectedCall(r, g.listening, Get(g.up, 0, 0)[0].code);
    }
  }

  lemma BeginIs(cfg: Config, gs: seq<State>, acts: seq<Action>, b: nat)
    requires cfg.Valid() && IsRun(cfg, gs, acts) && b < |acts| && Begins(acts[b], 0)
    ensures |gs| == |acts| + 1 && Shape(cfg, gs[b]) && |gs[b].sims| > 0 && gs[b].sims[0].pc.Ready?
    ensures acts[b] == ARootIdle ==> !gs[b].newQuery
    ensures acts[b] == ARootConnect ==> gs[b].newQuery
    ensures acts[b] == ARootCommand ==> CanRootCommand(cfg, gs[b])
  {
    hide Init;
    assert Enabled(cfg, gs[b], acts[b]);
  }
}
