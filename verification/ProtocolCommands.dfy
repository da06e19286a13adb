/** The traffic between the two rank 0s: commands, verdicts, and the listener's CONNECT. Each
    lemma says that one step keeps CmdOk. */
module ProtocolCommands {
  import opened SimStates
  import opened Protocol
  import opened ProtocolInvariant

  ghost predicate DeskOk(cfg: Config, hist: seq<Event>, taken: seq<nat>, vsent: seq<int>, d: Desk)
    requires cfg.Valid()
  {
    && CmdOk(cfg, hist, d)
    && SimOk(cfg, 0, d.root)
    && HistOk(cfg, hist, taken, vsent, d.root)
    && ClientOk(cfg, 0, d.cl)
    // while sim 0 is at rest in a query it has not begun, only its client's ping can be waiting
    && (d.cl.pc.AwaitFrames? && |d.cl.regions| == 0 && d.upq != [] ==> Fresh(d.root, d.cl.op))
  }

  lemma OpOpensSession(cfg: Config, p: nat)
    requires cfg.Valid() && p < |cfg.script|
    ensures cfg.script[p] == CONNECT <==> Session(cfg.script, p) == None
  {
    assert InTurn(cfg.script, p);
  }

  /** If the last command received is p, the destructor answered either p or nothing. */
  lemma LastReceived(cfg: Config, hist: seq<Event>, taken: seq<nat>, vsent: seq<int>, root: SimRank, p: nat)
    requires cfg.Valid() && HistOk(cfg, hist, taken, vsent, root) && Answered(cfg, hist, root) == p + 1
    ensures Took(cfg, hist) ==> Ver(cfg, hist, p) == 1 && p < |cfg.script| && hist[|cfg.steps|].code == Code(cfg.script[p])
    ensures !Took(cfg, hist) ==> Ver(cfg, hist, p) == 0 && root.ops == p + 1
    ensures p < |cfg.script| && cfg.script[p] != QUERY ==> root.ops == p + 1
  {
    if Took(cfg, hist) {
      assert EventOk(cfg, hist, taken, |cfg.steps|);
    }
  }

  lemma CmdRecord(cfg: Config, hist: seq<Event>, d: Desk)
    requires cfg.Valid() && CmdOk(cfg, hist, d)
    requires d.listening && d.inbox.Some? && d.root.pc.Ready?
    ensures CmdOk(cfg, hist, d.(root := d.root.(clientCommand := Code(CONNECT), clientPort := d.inbox.value),
                                newQuery := true, listening := false, inbox := None))
    ensures SimOk(cfg, 0, d.root) ==> SimOk(cfg, 0, d.root.(clientCommand := Code(CONNECT), clientPort := d.inbox.value))
  {
  }

  lemma CmdIdle(cfg: Config, hist: seq<Event>, d: Desk)
    requires cfg.Valid() && CmdOk(cfg, hist, d) && d.root.pc.Ready? && |hist| < |cfg.steps|
    ensures CmdOk(cfg, hist + [Idle(d.root.ops)], d.(root := d.root.(calls := d.root.calls + 1)))
    ensures SimOk(cfg, 0, d.root) && d.root.calls < |cfg.steps| ==> SimOk(cfg, 0, d.root.(calls := d.root.calls + 1))
  {
  }

  lemma CmdRootConnect(cfg: Config, hist: seq<Event>, taken: seq<nat>, vsent: seq<int>, d: Desk)
    requires cfg.Valid() && DeskOk(cfg, hist, taken, vsent, d) && d.root.pc.Ready? && |hist| < |cfg.steps| && d.newQuery
    ensures d.root.clientCommand == Code(CONNECT) && d.root.clientPort == d.root.ops && d.root.intercomm.None?
    ensures d.root.ops < |cfg.script| && cfg.script[d.root.ops] == CONNECT && !d.cl.pc.AwaitFrames?
    ensures CmdOk(cfg, hist + [Run(d.root.ops)], d.(root := Dial(d.root))) && SimOk(cfg, 0, Dial(d.root))
  {
    OpOpensSession(cfg, d.cl.op);
  }

  /** Anything rank 0 finds on the intercommunicator between queries is the next command. */
  lemma CommandWaiting(cfg: Config, hist: seq<Event>, taken: seq<nat>, vsent: seq<int>, d: Desk)
    requires cfg.Valid() && DeskOk(cfg, hist, taken, vsent, d) && (d.root.pc.Ready? || d.root.pc.Finalizing?)
    requires d.root.intercomm.Some? && d.upq != []
    ensures d.root.ops == d.cl.op < |cfg.script| && cfg.script[d.root.ops] != CONNECT
    ensures d.upq == [CommandMsg(Code(cfg.script[d.root.ops]))] && d.cl.pc.AwaitVerdict?
    ensures d.downq == [] && d.inbox == None && !Took(cfg, hist) && !d.newQuery
  {
  }

  lemma CmdRootCommand(cfg: Config, hist: seq<Event>, taken: seq<nat>, vsent: seq<int>, d: Desk)
    requires cfg.Valid() && DeskOk(cfg, hist, taken, vsent, d) && d.root.pc.Ready? && |hist| < |cfg.steps|
    requires !d.newQuery && d.root.intercomm.Some? && d.upq != []
    ensures d.root.ops < |cfg.script| && cfg.script[d.root.ops] != CONNECT && d.upq == [CommandMsg(Code(cfg.script[d.root.ops]))]
    ensures !d.cl.pc.AwaitFrames?
    ensures var code := Code(cfg.script[d.root.ops]);
            CmdOk(cfg, hist + [Run(d.root.ops)],
                  d.(root := Dispatch(d.root, code), upq := [], downq := d.downq + [Verdict(0)],
                     listening := d.listening || code == Code(DISCONNECT)))
            && SimOk(cfg, 0, Dispatch(d.root, code))
  {
  }

  lemma CmdStop(cfg: Config, hist: seq<Event>, d: Desk)
    requires cfg.Valid() && CmdOk(cfg, hist, d) && d.root.pc.Ready?
    ensures CmdOk(cfg, hist, d.(root := d.root.(pc := Finalizing), listening := false))
    ensures SimOk(cfg, 0, d.root) && d.root.calls >= |cfg.steps| ==> SimOk(cfg, 0, d.root.(pc := Finalizing))
  {
  }

  /** The destructor's event is the last one. */
  lemma FinLast(cfg: Config, hist: seq<Event>, root: SimRank, e: Event)
    requires |hist| == |cfg.steps| && e.Fin?
    ensures !Took(cfg, hist) && (Took(cfg, hist + [e]) <==> e.took)
    ensures Answered(cfg, hist, root) == root.ops
    ensures Answered(cfg, hist + [e], root) == root.ops + (if e.took && e.code == Code(QUERY) then 1 else 0)
    ensures forall p :: Ver(cfg, hist + [e], p) == if e.took && e.ops == p then 1 else 0
  {
    assert (hist + [e])[|cfg.steps|] == e;
  }

  lemma CmdFinNone(cfg: Config, hist: seq<Event>, taken: seq<nat>, vsent: seq<int>, d: Desk)
    requires cfg.Valid() && DeskOk(cfg, hist, taken, vsent, d) && d.root.pc.Finalizing? && !d.newQuery && d.root.intercomm.None?
    ensures d.root.clientCommand <= 0
    ensures CmdOk(cfg, hist + [Fin(d.root.ops, false, d.root.clientCommand)], d.(root := d.root.(pc := Done)))
    ensures SimOk(cfg, 0, d.root.(pc := Done))
  {
    var e := Fin(d.root.ops, false, d.root.clientCommand);
    FinLast(cfg, hist, d.root, e);
    FinLast(cfg, hist, d.root.(pc := Done), e);
    if !d.cl.pc.Start? { OpOpensSession(cfg, d.cl.op); }
    hide HistOk, ClientOk, Took, Answered, Ver, Session, Config.Valid;
  }

  lemma CmdFinConnect(cfg: Config, hist: seq<Event>, taken: seq<nat>, vsent: seq<int>, d: Desk)
    requires cfg.Valid() && DeskOk(cfg, hist, taken, vsent, d) && d.root.pc.Finalizing? && d.newQuery
    ensures d.root.clientCommand == Code(CONNECT) && d.root.clientPort == d.root.ops && d.root.intercomm.None?
    ensures d.root.ops == d.cl.op < |cfg.script| && cfg.script[d.root.ops] == CONNECT && (d.cl.pc.InBarrier? || d.cl.pc.Accepting?)
    ensures CmdOk(cfg, hist + [Fin(d.root.ops, true, Code(CONNECT))], d.(root := Dial(d.root))) && SimOk(cfg, 0, Dial(d.root))
  {
    OpOpensSession(cfg, d.cl.op);
  }

  lemma CmdFinCommand(cfg: Config, hist: seq<Event>, taken: seq<nat>, vsent: seq<int>, d: Desk)
    requires cfg.Valid() && DeskOk(cfg, hist, taken, vsent, d) && d.root.pc.Finalizing?
    requires !d.newQuery && d.root.intercomm.Some? && d.upq != []
    ensures d.root.ops < |cfg.script| && cfg.script[d.root.ops] != CONNECT && d.upq == [CommandMsg(Code(cfg.script[d.root.ops]))]
    ensures d.cl.op == d.root.ops && d.cl.pc.AwaitVerdict?
    ensures var code := Code(cfg.script[d.root.ops]);
            CmdOk(cfg, hist + [Fin(d.root.ops, true, code)],
                  d.(root := d.root.(pc := Done, clientCommand := code,
                                     ops := if code == Code(DISCONNECT) then d.root.ops + 1 else d.root.ops),
                     upq := [], downq := d.downq + [Verdict(1)]))
            && SimOk(cfg, 0, d.root.(pc := Done, clientCommand := code,
                                     ops := if code == Code(DISCONNECT) then d.root.ops + 1 else d.root.ops))
  {
    var p := d.root.ops;
    CommandWaiting(cfg, hist, taken, vsent, d);
    var code := Code(cfg.script[p]);
    var root' := d.root.(pc := Done, clientCommand := code, ops := if code == Code(DISCONNECT) then p + 1 else p);
    FinLast(cfg, hist, root', Fin(p, true, code));
    hide HistOk, ClientOk, Took, Answered, Ver, Config.Valid;
  }

  lemma CmdConnected(cfg: Config, hist: seq<Event>, taken: seq<nat>, vsent: seq<int>, d: Desk)
    requires cfg.Valid() && DeskOk(cfg, hist, taken, vsent, d) && d.root.pc.Connecting?
    ensures var r := d.root.(intercomm := Some(d.root.clientPort));
            var fin := r.calls >= |cfg.steps|;
            && !d.cl.pc.AwaitFrames?
            && CmdOk(cfg, hist, d.(root := if fin then r.(pc := Done) else Finish(r),
                                   downq := d.downq + [Verdict(if fin then 1 else 0)], newQuery := fin && d.newQuery))
            && SimOk(cfg, 0, if fin then r.(pc := Done) else Finish(r))
  {
    LastReceived(cfg, hist, taken, vsent, d.root, d.root.ops - 1);
  }

  lemma CmdTakePing(cfg: Config, hist: seq<Event>, taken: seq<nat>, vsent: seq<int>, d: Desk, c: nat)
    requires cfg.Valid() && DeskOk(cfg, hist, taken, vsent, d) && d.root.pc.ProbeAll? && d.upq != []
    ensures d.cl.pc.AwaitFrames? && |d.cl.regions| == 0
    ensures CmdOk(cfg, hist, d.(root := d.root.(pc := Sending(c, 0)), upq := []))
  {
  }

  lemma CmdSend(cfg: Config, hist: seq<Event>, d: Desk, root': SimRank, downq': seq<Msg>)
    requires cfg.Valid() && CmdOk(cfg, hist, d) && d.root.pc.Sending? && d.cl.pc.AwaitFrames? && |d.cl.regions| == 0
    requires root' == Finish(d.root) || (root'.pc.Sending? && root' == d.root.(pc := root'.pc))
    requires d.root.intercomm.Some?
    ensures CmdOk(cfg, hist, d.(root := root', downq := downq'))
  {
  }

  lemma CmdStart(cfg: Config, hist: seq<Event>, taken: seq<nat>, vsent: seq<int>, d: Desk)
    requires cfg.Valid() && DeskOk(cfg, hist, taken, vsent, d) && d.cl.pc.Start? && d.cl.op < |cfg.script|
    ensures d.upq == []
    ensures cfg.script[d.cl.op] != CONNECT ==>
      CmdOk(cfg, hist, d.(cl := d.cl.(pc := AwaitVerdict), upq := [CommandMsg(Code(cfg.script[d.cl.op]))]))
    ensures cfg.script[d.cl.op] == CONNECT && d.listening ==>
      CmdOk(cfg, hist, d.(cl := d.cl.(pc := InBarrier, arrived := d.cl.arrived + 1, quit := 0), inbox := Some(d.cl.op)))
  {
    OpOpensSession(cfg, d.cl.op);
  }

  lemma CmdVerdict(cfg: Config, hist: seq<Event>, d: Desk)
    requires cfg.Valid() && CmdOk(cfg, hist, d) && d.cl.pc.AwaitVerdict? && d.downq != []
    requires cfg.script[d.cl.op] != CONNECT
    ensures d.downq == [Verdict(Ver(cfg, hist, d.cl.op))]
    ensures CmdOk(cfg, hist, d.(cl := d.cl.(pc := InBarrier, arrived := d.cl.arrived + 1, quit := Ver(cfg, hist, d.cl.op)), downq := []))
  {
  }

  /** Where sim rank 0 is when client rank 0 knows the verdict on p. */
  lemma RootAfterVerdict(cfg: Config, hist: seq<Event>, taken: seq<nat>, vsent: seq<int>, d: Desk, p: nat)
    requires cfg.Valid() && SimOk(cfg, 0, d.root) && HistOk(cfg, hist, taken, vsent, d.root)
    requires p < |cfg.script| && Answered(cfg, hist, d.root) == p + 1
    requires Took(cfg, hist) ==> d.root.pc.Done? || d.root.pc.Connecting?
    requires d.root.pc.Done? && !Took(cfg, hist) ==> d.root.ops <= |cfg.script| && Session(cfg.script, d.root.ops) == None
    ensures if Took(cfg, hist) then Ver(cfg, hist, p) == 1 else Ver(cfg, hist, p) == 0 && d.root.ops == p + 1
    ensures cfg.script[p] == QUERY && Took(cfg, hist) ==> d.root.pc.Done?
    ensures cfg.script[p] == DISCONNECT ==> RootResting(d.root.pc) && Session(cfg.script, p + 1) == None
    ensures cfg.script[p] == CONNECT ==> Session(cfg.script, p + 1) == Some(p)
    ensures cfg.script[p] == CONNECT && !d.root.pc.Connecting? ==> (Took(cfg, hist) <==> d.root.pc.Done?)
  {
    LastReceived(cfg, hist, taken, vsent, d.root, p);
  }

  /** Client rank 0 leaves sendCommand's barrier and broadcasts simQuit. */
  lemma CmdLeave(cfg: Config, hist: seq<Event>, taken: seq<nat>, vsent: seq<int>, d: Desk)
    requires cfg.Valid() && DeskOk(cfg, hist, taken, vsent, d) && d.cl.pc.InBarrier?
    ensures d.cl.quit == if cfg.script[d.cl.op] == CONNECT then 0 else Ver(cfg, hist, d.cl.op)
    ensures cfg.script[d.cl.op] != CONNECT ==> Answered(cfg, hist, d.root) == d.cl.op + 1
    ensures CmdOk(cfg, hist, d.(cl := AfterCommand(cfg.script[d.cl.op], d.cl.(nb := d.cl.nb + 1))))
  {
    hide SimOk, HistOk, ClientOk, Took, Answered, Ver, Session, Config.Valid;
    if cfg.script[d.cl.op] != CONNECT {
      RootAfterVerdict(cfg, hist, taken, vsent, d, d.cl.op);
    }
  }

  lemma CmdAccept(cfg: Config, hist: seq<Event>, taken: seq<nat>, vsent: seq<int>, d: Desk)
    requires cfg.Valid() && DeskOk(cfg, hist, taken, vsent, d) && d.cl.pc.Accepting? && d.cl.op in d.root.dialed
    ensures CmdOk(cfg, hist, d.(cl := d.cl.(pc := AwaitConnectVerdict)))
  {
  }

  lemma CmdConnectVerdict(cfg: Config, hist: seq<Event>, taken: seq<nat>, vsent: seq<int>, d: Desk)
    requires cfg.Valid() && DeskOk(cfg, hist, taken, vsent, d) && d.cl.pc.AwaitConnectVerdict? && d.downq != []
    requires d.cl.op < |cfg.script| && cfg.script[d.cl.op] == CONNECT
    ensures d.downq == [Verdict(Ver(cfg, hist, d.cl.op))]
    ensures CmdOk(cfg, hist, d.(cl := AfterConnect(d.cl.(nb := d.cl.nb + 1, quit := Ver(cfg, hist, d.cl.op))), downq := []))
  {
    hide SimOk, HistOk, ClientOk, Took, Answered, Ver, Session, Config.Valid;
    RootAfterVerdict(cfg, hist, taken, vsent, d, d.cl.op);
  }

  lemma CmdReturn(cfg: Config, hist: seq<Event>, taken: seq<nat>, vsent: seq<int>, d: Desk, results: map<nat, seq<SimState>>)
    requires cfg.Valid() && DeskOk(cfg, hist, taken, vsent, d) && d.cl.pc.InEndBarrier? && Comp(d.root) > d.cl.op
    ensures CmdOk(cfg, hist, d.(cl := d.cl.(pc := Start, op := d.cl.op + 1, results := results)))
  {
  }
}
