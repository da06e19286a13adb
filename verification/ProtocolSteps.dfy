/** Every step of the protocol keeps the invariant, hence every run does. */
module ProtocolSteps {
  import opened SimStates
  import opened Protocol
  import opened ProtocolInvariant
  import opened ProtocolSafety
  import opened ProtocolCommands
  import opened ProtocolFollowers

  lemma InvDesk(cfg: Config, g: State)
    requires cfg.Valid() && Inv(cfg, g)
    ensures Shape(cfg, g) && cfg.M >= 1 && cfg.N >= 1 && |cfg.lo| == cfg.N + 1 && Owner(cfg, 0) == 0
    ensures DeskOk(cfg, g.hist, g.taken, g.vsent, DeskOf(g))
    ensures |g.hist| == g.sims[0].calls + (if Busy(g.sims[0].pc) || g.sims[0].pc.Done? then 1 else 0)
    ensures g.sims[0].calls <= |cfg.steps| && (g.sims[0].pc.Finalizing? ==> g.sims[0].calls == |cfg.steps|)
  {
    hide QuitOk, FollowOk, ClientOk, VerdictAt, CmdOk, ResultOk, FramesAt, Bcs, Bars;
    OwnerUnique(cfg, 0, 0);
    assert OwnLink(cfg, g, 0);
  }

  lemma InvReplay(cfg: Config, g: State, s: nat)
    requires cfg.Valid() && Inv(cfg, g) && 0 < s < cfg.M
    ensures Shape(cfg, g) && ReplayOk(cfg, g.hist, g.taken, s, g.sims[s], g.bq[s])
  {
    hide QuitOk, FollowOk, SimOk, ClientOk, VerdictAt, CmdOk, ResultOk, Link;
  }

  // ----- A step of one of the other simulation ranks --------------------------------------------

  ghost predicate SimMoves(cfg: Config, sim: SimRank, sim': SimRank) {
    && !sim.pc.Sending? && !sim'.pc.Sending? && !sim.pc.ProbeAll?
    && (sim'.ops == sim.ops
        || (sim'.ops == sim.ops + 1 && sim.ops < |cfg.script| && (cfg.script[sim.ops] == QUERY ==> sim'.pc.ProbeAll?)))
    && Comp(sim') >= Comp(sim)
  }

  lemma KeepFollower(cfg: Config, g: State, s: nat, sim': SimRank, q': seq<BMsg>)
    requires cfg.Valid() && Inv(cfg, g) && 0 < s < cfg.M
    requires ReplayOk(cfg, g.hist, g.taken, s, sim', q') && SimMoves(cfg, g.sims[s], sim')
    ensures Inv(cfg, SetSim(g, s, sim').(bq := g.bq[s := q']))
  {
    hide QuitOk, FollowOk, SimOk, HistOk, ClientOk, VerdictAt, CmdOk, ResultOk, Link, Config.Valid;
    var c := Owner(cfg, s);
    assert ClientOk(cfg, c, g.clients[c]);
    assert OwnLink(cfg, g, s);
    LinkSim(cfg, g.taken, s, g.sims[s], sim', g.clients[c], Get(g.up, s, c), Get(g.down, s, c), Get(g.up, s, c), Get(g.down, s, c));
    var g' := SetSim(g, s, sim').(bq := g.bq[s := q']);
    assert DeskOf(g') == DeskOf(g);
    forall i | 0 <= i < cfg.M ensures OwnLink(cfg, g', i) { assert OwnLink(cfg, g, i); }
  }

  lemma KeepHave(cfg: Config, g: State, s: nat)
    requires cfg.Valid() && Inv(cfg, g) && CanHave(cfg, g, s)
    ensures Inv(cfg, Have(cfg, g, s))
  {
    hide QuitOk, FollowOk, SimOk, HistOk, ClientOk, VerdictAt, CmdOk, ResultOk, Link, Inv, ReplayOk, Config.Valid;
    InvReplay(cfg, g, s);
    var r := g.sims[s];
    ReplayHave(cfg, g.hist, g.taken, s, r, g.bq[s]);
    KeepFollower(cfg, g, s, if g.bq[s][0].have then r.(pc := AwaitCommand) else r.(calls := r.calls + 1), g.bq[s][1..]);
  }

  lemma KeepCommand(cfg: Config, g: State, s: nat)
    requires cfg.Valid() && Inv(cfg, g) && CanCommand(cfg, g, s)
    ensures Inv(cfg, FollowCommand(cfg, g, s))
  {
    hide QuitOk, FollowOk, SimOk, HistOk, ClientOk, VerdictAt, CmdOk, ResultOk, Link, Inv, ReplayOk, Config.Valid;
    InvReplay(cfg, g, s);
    var r := g.sims[s];
    ReplayCommand(cfg, g.hist, g.taken, s, r, g.bq[s]);
    var cmd := cfg.script[r.ops];
    KeepFollower(cfg, g, s, if cmd == CONNECT then r.(pc := AwaitPort, clientCommand := Code(CONNECT)) else Dispatch(r, Code(cmd)),
                 g.bq[s][1..]);
  }

  lemma KeepPort(cfg: Config, g: State, s: nat)
    requires cfg.Valid() && Inv(cfg, g) && CanPort(cfg, g, s)
    ensures Inv(cfg, FollowPort(cfg, g, s))
  {
    hide QuitOk, FollowOk, HistOk, ClientOk, VerdictAt, CmdOk, ResultOk, Link, Inv, Config.Valid;
    InvReplay(cfg, g, s);
    var r := g.sims[s];
    ReplayPort(cfg, g.hist, g.taken, s, r, g.bq[s]);
    KeepFollower(cfg, g, s, Dial(r.(clientPort := r.ops)), g.bq[s][1..]);
  }

  lemma KeepFollowFin(cfg: Config, g: State, s: nat)
    requires cfg.Valid() && Inv(cfg, g) && CanFollowFin(cfg, g, s)
    ensures Inv(cfg, FollowFin(cfg, g, s))
  {
    hide QuitOk, FollowOk, SimOk, HistOk, ClientOk, VerdictAt, CmdOk, ResultOk, Link, Inv, ReplayOk, Config.Valid;
    InvReplay(cfg, g, s);
    var r := g.sims[s];
    ReplayFin(cfg, g.hist, g.taken, s, r, g.bq[s]);
    var code := g.hist[r.calls].code;
    KeepFollower(cfg, g, s,
      if code == Code(CONNECT) then r.(pc := AwaitPort, clientCommand := code)
      else r.(pc := Done, clientCommand := code, ops := if code == Code(DISCONNECT) then r.ops + 1 else r.ops),
      g.bq[s][1..]);
  }

  lemma KeepConnectedFollower(cfg: Config, g: State, s: nat)
    requires cfg.Valid() && Inv(cfg, g) && s != 0 && CanConnected(cfg, g, s)
    ensures Inv(cfg, Connected(cfg, g, s))
  {
    hide QuitOk, FollowOk, SimOk, HistOk, ClientOk, VerdictAt, CmdOk, ResultOk, Link, Inv, ReplayOk, Config.Valid;
    InvReplay(cfg, g, s);
    ReplayConnected(cfg, g.hist, g.taken, s, g.sims[s], g.bq[s]);
    var r := g.sims[s].(intercomm := Some(g.sims[s].clientPort));
    KeepFollower(cfg, g, s, if r.calls >= |cfg.steps| then r.(pc := Done) else Finish(r), g.bq[s]);
    assert g.bq[s := g.bq[s]] == g.bq;
  }

  // ----- A step of simulation rank 0 or of its listener --------------------------------------------

  /** Client rank 0 has not yet broadcast the verdict on its current command. */
  predicate BeforeVerdict(cfg: Config, cl: ClientRank) {
    cl.pc.AwaitVerdict? || (cl.op < |cfg.script| && cfg.script[cl.op] == CONNECT && (cl.pc.InBarrier? || cl.pc.Accepting?))
  }

  lemma OwnerZero(cfg: Config)
    requires cfg.Valid()
    ensures cfg.M >= 1 && cfg.N >= 1 && |cfg.lo| == cfg.N + 1 && cfg.lo[0] == 0 && Owner(cfg, 0) == 0
  {
    OwnerUnique(cfg, 0, 0);
  }

  /** Verdicts already broadcast by client rank 0 do not change when rank 0's history grows. */
  lemma VerdictsStay(cfg: Config, hist: seq<Event>, e: Event, verdicts: seq<int>, cl: ClientRank, p: nat)
    requires cfg.Valid() && ClientOk(cfg, 0, cl) && cl.nb == |verdicts| && |hist| <= |cfg.steps|
    requires e.Fin? && e.took ==> |hist| == |cfg.steps| && e.ops == cl.op && BeforeVerdict(cfg, cl)
    requires p < |cfg.script| && VerdictAt(cfg, hist, verdicts, p)
    ensures VerdictAt(cfg, hist + [e], verdicts, p)
  {
    assert Ver(cfg, hist, p) == 0;
    if e.Fin? && e.took && p == cl.op {
    } else {
      assert Ver(cfg, hist + [e], p) == 0;
    }
  }

  /** ... so no rank has passed the command that the destructor answers. */
  lemma QuitStays(cfg: Config, hist: seq<Event>, e: Event, verdicts: seq<int>, cl: ClientRank, c: nat, other: ClientRank)
    requires cfg.Valid() && ClientOk(cfg, 0, cl) && cl.nb == |verdicts| && |hist| <= |cfg.steps|
    requires e.Fin? && e.took ==> |hist| == |cfg.steps| && e.ops == cl.op && BeforeVerdict(cfg, cl)
    requires c < cfg.N && ClientOk(cfg, c, other) && other.nb <= |verdicts| && QuitOk(cfg, hist, other)
    ensures QuitOk(cfg, hist + [e], other)
  {
    if e.Fin? && e.took && cl.op < other.op { BcsMonotone(cfg.script, cl.op, other.op); }
  }

  lemma KeepRoot(cfg: Config, g: State, g': State, event: seq<Event>, more: seq<nat>)
    requires cfg.Valid() && Inv(cfg, g) && Shape(cfg, g')
    requires g'.clients == g.clients && g'.verdicts == g.verdicts && g'.sims == g.sims[0 := g'.sims[0]]
    requires forall s, c :: 0 <= s < cfg.M && 0 <= c < cfg.N && (s != 0 || c != 0) ==>
               Get(g'.up, s, c) == Get(g.up, s, c) && Get(g'.down, s, c) == Get(g.down, s, c)
    requires (Get(g'.up, 0, 0) == Get(g.up, 0, 0) && Get(g'.down, 0, 0) == Get(g.down, 0, 0)) || !g.clients[0].pc.AwaitFrames?
    requires |event| <= 1 && g'.hist == g.hist + event && g'.taken == g.taken + more
    requires event == [] ==> g'.bq == g.bq
    requires event != [] ==> g'.bq == Bcast(g.bq, Entry(cfg, event[0])) && |g.hist| <= |cfg.steps|
    requires event != [] && event[0].Fin? && event[0].took ==>
               var cl := g.clients[0];
               |g.hist| == |cfg.steps| && event[0].ops == cl.op && BeforeVerdict(cfg, cl)
    requires SimOk(cfg, 0, g'.sims[0]) && HistOk(cfg, g'.hist, g'.taken, g'.vsent, g'.sims[0])
    requires CmdOk(cfg, g'.hist, DeskOf(g')) && SimMoves(cfg, g.sims[0], g'.sims[0])
    ensures Inv(cfg, g')
  {
    hide QuitOk, FollowOk, SimOk, HistOk, ClientOk, VerdictAt, CmdOk, ResultOk, Link, Config.Valid, Entry;
    OwnerZero(cfg);
    assert event == [] ==> g'.hist == g.hist;
    assert event != [] ==> event == [event[0]];
    forall s | 1 <= s < cfg.M ensures FollowOk(cfg, g'.hist, g'.sims[s], g'.bq[s]) {
      if event != [] { FollowSnoc(cfg, g.hist, event[0], g.sims[s], g.bq[s]); }
    }
    forall p | 0 <= p < |cfg.script| ensures VerdictAt(cfg, g'.hist, g'.verdicts, p) {
      assert VerdictAt(cfg, g.hist, g.verdicts, p);
      if event != [] { VerdictsStay(cfg, g.hist, event[0], g.verdicts, g.clients[0], p); }
    }
    forall c | 0 <= c < cfg.N ensures QuitOk(cfg, g'.hist, g'.clients[c]) {
      if event != [] {
        assert ClientOk(cfg, c, g.clients[c]) && ClientOk(cfg, 0, g.clients[0]);
        QuitStays(cfg, g.hist, event[0], g.verdicts, g.clients[0], c, g.clients[c]);
      }
    }
    forall s | 0 <= s < cfg.M ensures OwnLink(cfg, g', s) {
      var c := Owner(cfg, s);
      var upq, downq := Get(g.up, s, c), Get(g.down, s, c);
      assert OwnLink(cfg, g, s);
      LinkTaken(cfg, g.taken, more, s, g.sims[s], g.clients[c], upq, downq);
      if s == 0 {
        LinkSim(cfg, g'.taken, 0, g.sims[0], g'.sims[0], g.clients[0], upq, downq, Get(g'.up, 0, 0), Get(g'.down, 0, 0));
      }
    }
    forall c | 0 <= c < cfg.N ensures ResultOk(cfg, g'.taken, c, g'.clients[c]) {
      ResultTaken(cfg, g.taken, more, c, g.clients[c]);
    }
  }

  lemma ResultTaken(cfg: Config, taken: seq<nat>, more: seq<nat>, c: nat, cl: ClientRank)
    requires cfg.Valid() && c < cfg.N && ResultOk(cfg, taken, c, cl)
    ensures ResultOk(cfg, taken + more, c, cl)
  {
    hide Delivered;
  }

  lemma KeepRecord(cfg: Config, g: State)
    requires cfg.Valid() && Inv(cfg, g) && CanRecord(cfg, g)
    ensures Inv(cfg, Record(cfg, g))
  {
    hide QuitOk, FollowOk, SimOk, HistOk, ClientOk, VerdictAt, CmdOk, ResultOk, Link, Inv, Config.Valid, Entry;
    InvDesk(cfg, g);
    var d := DeskOf(g);
    RootNotConnected(cfg, g.hist, d);
    CmdRecord(cfg, g.hist, d);
    var g' := Record(cfg, g);
    HistSame(cfg, g.hist, g.taken, g.vsent, g.sims[0], g'.sims[0]);
    assert DeskOf(g') == d.(root := g'.sims[0], newQuery := true, listening := false, inbox := None);
    KeepRoot(cfg, g, g', [], []);
  }

  lemma RootNotConnected(cfg: Config, hist: seq<Event>, d: Desk)
    requires cfg.Valid() && CmdOk(cfg, hist, d) && d.listening
    ensures d.root.intercomm.None?
  {
  }

  lemma KeepRootIdle(cfg: Config, g: State)
    requires cfg.Valid() && Inv(cfg, g) && CanRootIdle(cfg, g)
    ensures Inv(cfg, RootIdle(cfg, g))
  {
    hide QuitOk, FollowOk, SimOk, HistOk, ClientOk, VerdictAt, CmdOk, ResultOk, Link, Inv, Config.Valid;
    InvDesk(cfg, g);
    var d := DeskOf(g);
    HistIdle(cfg, g.hist, g.taken, g.vsent, d.root);
    CmdIdle(cfg, g.hist, d);
    var g' := RootIdle(cfg, g);
    assert DeskOf(g') == d.(root := d.root.(calls := d.root.calls + 1));
    KeepRoot(cfg, g, g', [Idle(d.root.ops)], []);
  }

  lemma KeepRootConnect(cfg: Config, g: State)
    requires cfg.Valid() && Inv(cfg, g) && CanRootConnect(cfg, g)
    ensures Inv(cfg, RootConnect(cfg, g))
  {
    hide QuitOk, FollowOk, SimOk, HistOk, ClientOk, VerdictAt, CmdOk, ResultOk, Link, Inv, Config.Valid;
    InvDesk(cfg, g);
    var d := DeskOf(g);
    CmdRootConnect(cfg, g.hist, g.taken, g.vsent, d);
    HistRun(cfg, g.hist, g.taken, g.vsent, d.root, Dial(d.root), []);
    assert g.vsent + [] == g.vsent;
    var g' := RootConnect(cfg, g);
    assert DeskOf(g') == d.(root := Dial(d.root));
    assert Entry(cfg, Run(d.root.ops)) == [HaveQuery(true), CommandCode(Code(CONNECT)), PortName(d.root.ops)];
    KeepRoot(cfg, g, g', [Run(d.root.ops)], [d.root.calls]);
  }

  lemma KeepRootCommand(cfg: Config, g: State)
    requires cfg.Valid() && Inv(cfg, g) && CanRootCommand(cfg, g)
    ensures Inv(cfg, RootCommand(cfg, g))
  {
    hide QuitOk, FollowOk, SimOk, HistOk, ClientOk, VerdictAt, CmdOk, ResultOk, Link, Inv, Config.Valid;
    InvDesk(cfg, g);
    var d := DeskOf(g);
    CmdRootCommand(cfg, g.hist, g.taken, g.vsent, d);
    var code := Code(cfg.script[d.root.ops]);
    HistRun(cfg, g.hist, g.taken, g.vsent, d.root, Dispatch(d.root, code), [0]);
    var g' := RootCommand(cfg, g);
    assert DeskOf(g') == d.(root := Dispatch(d.root, code), upq := [], downq := d.downq + [Verdict(0)],
                            listening := d.listening || code == Code(DISCONNECT));
    assert Entry(cfg, Run(d.root.ops)) == [HaveQuery(true), CommandCode(code)];
    KeepRoot(cfg, g, g', [Run(d.root.ops)], [d.root.calls]);
  }

  lemma KeepStop(cfg: Config, g: State)
    requires cfg.Valid() && Inv(cfg, g) && CanStop(cfg, g)
    ensures Inv(cfg, Stop(cfg, g))
  {
    hide QuitOk, FollowOk, SimOk, HistOk, ClientOk, VerdictAt, CmdOk, ResultOk, Link, Inv, Config.Valid;
    InvDesk(cfg, g);
    var d := DeskOf(g);
    var g' := Stop(cfg, g);
    HistSame(cfg, g.hist, g.taken, g.vsent, d.root, g'.sims[0]);
    CmdStop(cfg, g.hist, d);
    assert DeskOf(g') == d.(root := d.root.(pc := Finalizing), listening := false);
    KeepRoot(cfg, g, g', [], []);
  }

  lemma KeepFinNone(cfg: Config, g: State)
    requires cfg.Valid() && Inv(cfg, g) && CanFinNone(cfg, g)
    ensures Inv(cfg, FinNone(cfg, g))
  {
    hide QuitOk, FollowOk, SimOk, HistOk, ClientOk, VerdictAt, CmdOk, ResultOk, Link, Inv, Config.Valid;
    InvDesk(cfg, g);
    var d := DeskOf(g);
    var g' := FinNone(cfg, g);
    var e := Fin(d.root.ops, false, d.root.clientCommand);
    CmdFinNone(cfg, g.hist, g.taken, g.vsent, d);
    HistFin(cfg, g.hist, g.taken, g.vsent, d.root, d.root.(pc := Done), e, [], []);
    assert g.taken + [] == g.taken && g.vsent + [] == g.vsent;
    assert DeskOf(g') == d.(root := d.root.(pc := Done));
    assert Entry(cfg, e) == [CommandCode(d.root.clientCommand)];
    KeepRoot(cfg, g, g', [e], []);
  }

  lemma KeepFinConnect(cfg: Config, g: State)
    requires cfg.Valid() && Inv(cfg, g) && CanFinConnect(cfg, g)
    ensures Inv(cfg, FinConnect(cfg, g))
  {
    hide QuitOk, FollowOk, SimOk, HistOk, ClientOk, VerdictAt, CmdOk, ResultOk, Link, Inv, Config.Valid;
    InvDesk(cfg, g);
    var d := DeskOf(g);
    var g' := FinConnect(cfg, g);
    var e := Fin(d.root.ops, true, Code(CONNECT));
    CmdFinConnect(cfg, g.hist, g.taken, g.vsent, d);
    HistFin(cfg, g.hist, g.taken, g.vsent, d.root, Dial(d.root), e, [d.root.calls], []);
    assert g.vsent + [] == g.vsent;
    assert DeskOf(g') == d.(root := Dial(d.root));
    assert Entry(cfg, e) == [CommandCode(Code(CONNECT)), PortName(d.root.ops)];
    KeepRoot(cfg, g, g', [e], [d.root.calls]);
  }

  lemma KeepFinCommand(cfg: Config, g: State)
    requires cfg.Valid() && Inv(cfg, g) && CanFinCommand(cfg, g)
    ensures Inv(cfg, FinCommand(cfg, g))
  {
    hide QuitOk, FollowOk, SimOk, HistOk, ClientOk, VerdictAt, CmdOk, ResultOk, Link, Inv, Config.Valid;
    InvDesk(cfg, g);
    var d := DeskOf(g);
    var g' := FinCommand(cfg, g);
    CmdFinCommand(cfg, g.hist, g.taken, g.vsent, d);
    var code := Code(cfg.script[d.root.ops]);
    var e := Fin(d.root.ops, true, code);
    var more := if code == Code(DISCONNECT) then [d.root.calls] else [];
    HistFin(cfg, g.hist, g.taken, g.vsent, d.root, g'.sims[0], e, more, [1]);
    assert g.taken + [] == g.taken;
    assert DeskOf(g') == d.(root := g'.sims[0], upq := [], downq := d.downq + [Verdict(1)]);
    assert Entry(cfg, e) == [CommandCode(code)];
    KeepRoot(cfg, g, g', [e], more);
  }

  lemma KeepConnectedRoot(cfg: Config, g: State)
    requires cfg.Valid() && Inv(cfg, g) && Shape(cfg, g) && CanConnected(cfg, g, 0)
    ensures Inv(cfg, Connected(cfg, g, 0))
  {
    hide QuitOk, FollowOk, SimOk, HistOk, ClientOk, VerdictAt, CmdOk, ResultOk, Link, Inv, Config.Valid, Entry;
    InvDesk(cfg, g);
    var d := DeskOf(g);
    var g' := Connected(cfg, g, 0);
    CmdConnected(cfg, g.hist, g.taken, g.vsent, d);
    HistConnected(cfg, g.hist, g.taken, g.vsent, d.root, g'.sims[0]);
    var fin := d.root.calls >= |cfg.steps|;
    assert DeskOf(g') == d.(root := g'.sims[0], downq := d.downq + [Verdict(if fin then 1 else 0)], newQuery := fin && d.newQuery);
    KeepRoot(cfg, g, g', [], []);
  }

  // ----- handleQuery ------------------------------------------------------------------------------------

  lemma RootQueryTaken(cfg: Config, g: State, s: nat)
    requires cfg.Valid() && Inv(cfg, g) && s < cfg.M && (g.sims[s].pc.ProbeAll? || g.sims[s].pc.Sending?)
    ensures Shape(cfg, g) && SimOk(cfg, s, g.sims[s]) && OwnLink(cfg, g, s) && ClientOk(cfg, Owner(cfg, s), g.clients[Owner(cfg, s)])
    ensures 1 <= g.sims[s].ops <= |cfg.script| && cfg.script[g.sims[s].ops-1] == QUERY && g.sims[s].intercomm.Some?
    ensures g.sims[s].ops <= |g.taken| && g.taken[g.sims[s].ops-1] == g.sims[s].calls && g.sims[s].calls < |cfg.steps|
    ensures g.sims[s].pc.Sending? ==> g.sims[s].pc.client == Owner(cfg, s) && g.sims[s].pc.sent < |FramesAt(cfg, g.sims[s].calls, s)|
  {
    hide QuitOk, FollowOk, ClientOk, VerdictAt, CmdOk, ResultOk, Link, Frames;
    SessionOpen(cfg, g.sims[s].ops);
    if s == 0 {
      assert EventOk(cfg, g.hist, g.taken, |g.hist| - 1);
    } else {
      InvReplay(cfg, g, s);
      QueryTaken(cfg, g.hist, g.taken, s, g.sims[s], g.bq[s]);
    }
  }

  lemma SessionOpen(cfg: Config, n: nat)
    requires cfg.Valid()
    ensures 1 <= n <= |cfg.script| && cfg.script[n-1] == QUERY ==> Session(cfg.script, n).Some?
  {
    if 1 <= n <= |cfg.script| { assert InTurn(cfg.script, n - 1); }
  }

  /** Only the client that owns a sim can be waiting when it probes. */
  lemma ProbeFindsOwner(cfg: Config, g: State, s: nat, c: nat)
    requires cfg.Valid() && Inv(cfg, g) && Shape(cfg, g) && CanPing(cfg, g, s, c)
    ensures c == Owner(cfg, s) && Talking(g.clients[c], s - cfg.lo[c])
  {
    hide QuitOk, FollowOk, SimOk, HistOk, ClientOk, VerdictAt, CmdOk, ResultOk, FramesAt;
    assert OwnLink(cfg, g, s);
    if s == 0 {
      InvDesk(cfg, g);
      CmdTakePing(cfg, g.hist, g.taken, g.vsent, DeskOf(g), 0);
    }
  }

  /** A step of handleQuery touches one rank and its two queues to the client that owns it. */
  lemma KeepInQuery(cfg: Config, g: State, g': State, s: nat)
    requires cfg.Valid() && Inv(cfg, g) && s < cfg.M && Shape(cfg, g')
    requires g' == g.(sims := g.sims[s := g'.sims[s]], up := g'.up, down := g'.down)
    requires forall i, c :: 0 <= i < cfg.M && 0 <= c < cfg.N && (i != s || c != Owner(cfg, s)) ==>
               Get(g'.up, i, c) == Get(g.up, i, c) && Get(g'.down, i, c) == Get(g.down, i, c)
    requires SimOk(cfg, s, g'.sims[s]) && OwnLink(cfg, g', s)
    requires if s == 0 then HistOk(cfg, g.hist, g.taken, g.vsent, g'.sims[0]) && CmdOk(cfg, g.hist, DeskOf(g'))
             else FollowOk(cfg, g.hist, g'.sims[s], g.bq[s])
    ensures Inv(cfg, g')
  {
    hide QuitOk, FollowOk, SimOk, HistOk, ClientOk, VerdictAt, CmdOk, ResultOk, Link, Config.Valid;
    OwnerZero(cfg);
    assert s != 0 ==> DeskOf(g') == DeskOf(g);
    forall i | 0 <= i < cfg.M ensures OwnLink(cfg, g', i) { assert OwnLink(cfg, g, i); }
  }

  lemma KeepTakePing(cfg: Config, g: State, s: nat, c: nat)
    requires cfg.Valid() && Inv(cfg, g) && Shape(cfg, g) && CanPing(cfg, g, s, c)
    ensures Inv(cfg, TakePing(cfg, g, s, c))
  {
    hide QuitOk, FollowOk, SimOk, HistOk, ClientOk, VerdictAt, CmdOk, ResultOk, Link, FramesAt, ReplayOk, Inv, Config.Valid;
    ProbeFindsOwner(cfg, g, s, c);
    RootQueryTaken(cfg, g, s);
    InvDesk(cfg, g);
    var upq, downq := Get(g.up, s, c), Get(g.down, s, c);
    var sim' := g.sims[s].(pc := Sending(c, 0));
    LinkTakePing(cfg, g.taken, s, g.sims[s], g.clients[c], upq, downq);
    var g' := TakePing(cfg, g, s, c);
    assert g'.sims[s] == sim' && Get(g'.up, s, c) == [];
    PingSimOk(cfg, s, g.sims[s]);
    if s == 0 {
      CmdTakePing(cfg, g.hist, g.taken, g.vsent, DeskOf(g), c);
      assert DeskOf(g') == DeskOf(g).(root := sim', upq := []);
      HistSame(cfg, g.hist, g.taken, g.vsent, g.sims[0], sim');
    } else {
      InvReplay(cfg, g, s);
      ReplayTakePing(cfg, g.hist, g.taken, s, g.sims[s], g.bq[s]);
      ReplayGives(cfg, g.hist, g.taken, s, sim', g.bq[s]);
    }
    KeepInQuery(cfg, g, g', s);
  }

  lemma PingSimOk(cfg: Config, s: nat, sim: SimRank)
    requires cfg.Valid() && s < cfg.M && SimOk(cfg, s, sim) && sim.pc.ProbeAll?
    ensures SimOk(cfg, s, sim.(pc := Sending(Owner(cfg, s), 0)))
  {
  }

  lemma ReplayGives(cfg: Config, hist: seq<Event>, taken: seq<nat>, s: nat, sim: SimRank, q: seq<BMsg>)
    requires cfg.Valid() && s < cfg.M && ReplayOk(cfg, hist, taken, s, sim, q)
    ensures SimOk(cfg, s, sim) && FollowOk(cfg, hist, sim, q)
  {
  }

  lemma KeepSend(cfg: Config, g: State, s: nat)
    requires cfg.Valid() && Inv(cfg, g) && Shape(cfg, g) && CanSend(cfg, g, s)
    ensures Inv(cfg, SendFrame(cfg, g, s))
  {
    hide QuitOk, FollowOk, SimOk, HistOk, ClientOk, VerdictAt, CmdOk, ResultOk, Link, FramesAt, ReplayOk, Inv, Config.Valid;
    RootQueryTaken(cfg, g, s);
    InvDesk(cfg, g);
    var sim := g.sims[s];
    var c := Owner(cfg, s);
    var upq, downq := Get(g.up, s, c), Get(g.down, s, c);
    LinkSend(cfg, g.taken, s, sim, g.clients[c], upq, downq);
    var g' := SendFrame(cfg, g, s);
    SendSimOk(cfg, s, sim);
    if s == 0 {
      SendingTalks(cfg, g.taken, s, sim, g.clients[c], upq, downq);
      CmdSend(cfg, g.hist, DeskOf(g), g'.sims[0], Get(g'.down, 0, 0));
      assert DeskOf(g') == DeskOf(g).(root := g'.sims[0], downq := Get(g'.down, 0, 0));
      HistSame(cfg, g.hist, g.taken, g.vsent, g.sims[0], g'.sims[0]);
    } else {
      InvReplay(cfg, g, s);
      ReplaySend(cfg, g.hist, g.taken, s, sim, g.bq[s]);
      ReplayGives(cfg, g.hist, g.taken, s, g'.sims[s], g.bq[s]);
    }
    KeepInQuery(cfg, g, g', s);
  }

  lemma SendSimOk(cfg: Config, s: nat, sim: SimRank)
    requires cfg.Valid() && s < cfg.M && SimOk(cfg, s, sim) && sim.pc.Sending?
    ensures var i := sim.pc.sent;
            SimOk(cfg, s, if i + 1 == |FramesAt(cfg, sim.calls, s)| then Finish(sim) else sim.(pc := Sending(sim.pc.client, i + 1)))
  {
    hide Frames;
  }

  lemma SendingTalks(cfg: Config, taken: seq<nat>, s: nat, sim: SimRank, cl: ClientRank, upq: seq<Msg>, downq: seq<Msg>)
    requires cfg.Valid() && s < cfg.M && Link(cfg, taken, s, sim, cl, upq, downq) && ClientOk(cfg, Owner(cfg, s), cl)
    requires sim.pc.Sending? && 1 <= sim.ops <= |cfg.script| && cfg.script[sim.ops-1] == QUERY
    ensures Talking(cl, s - cfg.lo[Owner(cfg, s)]) && cl.op == sim.ops - 1
  {
    hide FramesAt;
    var k := s - cfg.lo[Owner(cfg, s)];
    var p: nat := sim.ops - 1;
    assert !Fresh(sim, p) && Comp(sim) == p;
    assert !NotPinged(cl, k, p) && !Served(cl, k, p);
  }
}
