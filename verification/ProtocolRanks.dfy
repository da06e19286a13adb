/** The simulation ranks agree, although only rank 0 sees commands. */
module ProtocolRanks {
  import opened SimStates
  import opened Protocol
  import opened ProtocolFrames
  import opened ProtocolInvariant
  import opened ProtocolCommands
  import opened ProtocolFollowers
  import opened ProtocolSteps
  import opened ProtocolTheorems

  // ----- The port of a connection ------------------------------------------------------------------------

  predicate PortOk(r: SimRank) { r.intercomm.Some? ==> r.clientPort == r.intercomm.value }

  predicate PortsOk(g: State) { forall s :: 0 <= s < |g.sims| ==> PortOk(g.sims[s]) }

  lemma RankPort(cfg: Config, s: nat, r: SimRank)
    requires cfg.Valid() && s < cfg.M && SimOk(cfg, s, r)
    ensures r.pc.AwaitPort? || r.pc.Connecting? ==> r.intercomm.None?
  {
    hide Session;
  }

  lemma RootPort(cfg: Config, g: State, a: Action)
    requires cfg.Valid() && Shape(cfg, g) && Enabled(cfg, g, a) && OnRoot(a) && cfg.M >= 1 && PortOk(g.sims[0])
    ensures |Apply(cfg, g, a).sims| == cfg.M && PortOk(Apply(cfg, g, a).sims[0])
  {
    hide Config.Valid, Bcast, Push, Pop;
  }

  predicate Hears(a: Action) { a.AHave? || a.ACommand? || a.APort? || a.AFollowFin? }

  lemma HearingPort(cfg: Config, g: State, a: Action)
    requires cfg.Valid() && Shape(cfg, g) && Enabled(cfg, g, a) && Hears(a) && a.s < cfg.M && PortOk(g.sims[a.s])
    requires g.sims[a.s].pc.AwaitPort? ==> g.sims[a.s].intercomm.None?
    ensures |Apply(cfg, g, a).sims| == cfg.M && PortOk(Apply(cfg, g, a).sims[a.s])
  {
    hide Config.Valid, LinkUp, FramesAt, Push, Pop;
  }

  lemma OtherPort(cfg: Config, g: State, a: Action)
    requires cfg.Valid() && Shape(cfg, g) && Enabled(cfg, g, a) && IsSimAction(a) && !OnRoot(a) && !Hears(a)
    requires a.s < cfg.M && PortOk(g.sims[a.s])
    ensures |Apply(cfg, g, a).sims| == cfg.M && PortOk(Apply(cfg, g, a).sims[a.s])
  {
    hide Config.Valid, LinkUp, FramesAt, Push, Pop;
  }

  lemma KeepPorts(cfg: Config, g: State, a: Action)
    requires cfg.Valid() && Inv(cfg, g) && Shape(cfg, g) && Enabled(cfg, g, a) && PortsOk(g)
    ensures PortsOk(Apply(cfg, g, a))
  {
    hide Inv, Config.Valid, Enabled, Apply, SimOk, PortOk;
    Sizes(cfg);
    if IsSimAction(a) {
      SimStepFrame(cfg, g, a);
      var s := ActingSim(a);
      RankIs(cfg, g, s);
      RankPort(cfg, s, g.sims[s]);
      if OnRoot(a) { RootPort(cfg, g, a); } else if Hears(a) { HearingPort(cfg, g, a); } else { OtherPort(cfg, g, a); }
    } else {
      ClientStepFrame(cfg, g, a);
    }
  }

  lemma InitPorts(cfg: Config)
    requires cfg.Valid()
    ensures PortsOk(Init(cfg))
  {
    hide Config.Valid;
  }

  lemma {:induction false} RunPorts(cfg: Config, gs: seq<State>, acts: seq<Action>, i: nat)
    requires cfg.Valid() && IsRun(cfg, gs, acts) && i <= |acts|
    ensures PortsOk(gs[i])
  {
    hide Inv, Config.Valid, Enabled, Apply, Init, PortsOk;
    if i == 0 {
      InitPorts(cfg);
    } else {
      RunPorts(cfg, gs, acts, i - 1);
      RunInv(cfg, gs, acts, i - 1);
      KeepPorts(cfg, gs[i-1], acts[i-1]);
    }
  }

  lemma ReachablePorts(cfg: Config, g: State)
    requires cfg.Valid() && Reachable(cfg, g)
    ensures PortsOk(g)
  {
    hide Enabled, Apply, Init;
    var gs, acts :| IsRun(cfg, gs, acts) && gs[|acts|] == g;
    RunPorts(cfg, gs, acts, |acts|);
  }

  lemma RankIs(cfg: Config, g: State, s: nat)
    requires cfg.Valid() && Inv(cfg, g) && Shape(cfg, g) && s < cfg.M
    ensures SimOk(cfg, s, g.sims[s])
  {
    hide QuitOk, FollowOk, HistOk, ClientOk, VerdictAt, CmdOk, ResultOk, OwnLink, Bcs, Bars, Session, SimOk;
  }

  // ----- Commands executed ---------------------------------------------------------------------------------

  /** Process calls, and the destructor, whose command a rank has begun or found missing. */
  function Place(r: SimRank): nat { r.calls + (if Busy(r.pc) || r.pc.Done? then 1 else 0) }

  lemma FollowerPlace(cfg: Config, hist: seq<Event>, taken: seq<nat>, s: nat, sim: SimRank, q: seq<BMsg>)
    requires cfg.Valid() && 0 < s < cfg.M && ReplayOk(cfg, hist, taken, s, sim, q)
    ensures Place(sim) <= |hist| && sim.ops == OpsAt(hist, Place(sim))
  {
    hide Stream, FramesAt;
    if sim.calls < |hist| { assert EventOk(cfg, hist, taken, sim.calls); }
  }

  lemma RootPlace(cfg: Config, hist: seq<Event>, taken: seq<nat>, vsent: seq<int>, root: SimRank)
    requires cfg.Valid() && HistOk(cfg, hist, taken, vsent, root)
    ensures Place(root) == |hist| && root.ops == OpsAt(hist, |hist|)
    ensures forall k :: 0 <= k < |hist| ==> EventOk(cfg, hist, taken, k)
  {
    hide EventOk, TakenOk;
  }

  lemma RankPlace(cfg: Config, g: State, s: nat)
    requires cfg.Valid() && Inv(cfg, g) && Shape(cfg, g) && s < cfg.M && cfg.M >= 1
    ensures Place(g.sims[s]) <= |g.hist| == Place(g.sims[0]) && g.sims[s].ops == OpsAt(g.hist, Place(g.sims[s]))
    ensures forall k :: 0 <= k < |g.hist| ==> EventOk(cfg, g.hist, g.taken, k)
  {
    hide Inv, HistOk, ReplayOk, SimOk, CmdOk, ClientOk, EventOk, Place, OpsAt;
    InvDesk(cfg, g);
    RootPlace(cfg, g.hist, g.taken, g.vsent, g.sims[0]);
    if s > 0 {
      InvReplay(cfg, g, s);
      FollowerPlace(cfg, g.hist, g.taken, s, g.sims[s], g.bq[s]);
    }
  }

  predicate Settled(pc: SimPc) { pc.Ready? || pc.AwaitCommand? || pc.ProbeAll? || pc.Sending? || pc.Finalizing? }

  lemma SettledSession(cfg: Config, s: nat, r: SimRank)
    requires cfg.Valid() && s < cfg.M && SimOk(cfg, s, r)
    ensures Settled(r.pc) ==> r.intercomm == Session(cfg.script, r.ops)
  {
    hide Session, FramesAt;
  }

  /** Every rank has executed a prefix of the client's commands, and of those rank 0 has executed; the longer it is
      the more process calls the rank has made, and equally long for ranks at the same call. Where nothing is being
      connected, the connection is the one that this prefix leaves open, and clientPort is its port. */
  lemma RanksAgree(cfg: Config, g: State, s: nat, t: nat)
    requires cfg.Valid() && Reachable(cfg, g) && Shape(cfg, g) && s < cfg.M && t < cfg.M
    ensures g.sims[s].ops <= g.sims[0].ops <= |cfg.script|
    ensures Place(g.sims[s]) <= Place(g.sims[t]) ==> g.sims[s].ops <= g.sims[t].ops
    ensures Settled(g.sims[s].pc) ==> g.sims[s].intercomm == Session(cfg.script, g.sims[s].ops)
    ensures g.sims[s].intercomm.Some? ==> g.sims[s].clientPort == g.sims[s].intercomm.value
    ensures Place(g.sims[s]) == Place(g.sims[t]) ==> g.sims[s].ops == g.sims[t].ops
    ensures Place(g.sims[s]) == Place(g.sims[t]) && Settled(g.sims[s].pc) && Settled(g.sims[t].pc) ==>
              && g.sims[s].intercomm == g.sims[t].intercomm
              && (g.sims[s].intercomm.Some? ==> g.sims[s].clientPort == g.sims[t].clientPort)
  {
    hide Inv, Reachable, Session, SimOk, EventOk, Place, Settled, OpsAt, Config.Valid;
    Sizes(cfg);
    ReachablePorts(cfg, g);
    ReachableInv(cfg, g);
    RootOps(cfg, g);
    RankIs(cfg, g, s);
    RankIs(cfg, g, t);
    SettledSession(cfg, s, g.sims[s]);
    SettledSession(cfg, t, g.sims[t]);
    RankPlace(cfg, g, s);
    RankPlace(cfg, g, t);
    RankPlace(cfg, g, 0);
    var h := g.hist;
    OpsGrow(cfg, h, g.taken, Place(g.sims[s]), |h|);
    if Place(g.sims[s]) <= Place(g.sims[t]) { OpsGrow(cfg, h, g.taken, Place(g.sims[s]), Place(g.sims[t])); }
  }
}
