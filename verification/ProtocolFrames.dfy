/** What a step leaves alone. */
module ProtocolFrames {
  import opened SimStates
  import opened Protocol

  predicate IsSimAction(a: Action) {
    a.ARecord? || a.ARootIdle? || a.ARootConnect? || a.ARootCommand? || a.AStop? || a.AFinNone? || a.AFinConnect?
    || a.AFinCommand? || a.AHave? || a.ACommand? || a.APort? || a.AConnected? || a.ATakePing? || a.ASend? || a.AFollowFin?
  }

  predicate OnRoot(a: Action) {
    a.ARecord? || a.ARootIdle? || a.ARootConnect? || a.ARootCommand? || a.AStop? || a.AFinNone? || a.AFinConnect? || a.AFinCommand?
  }

  /** The simulation rank, or the client rank, that takes the step. */
  function ActingSim(a: Action): nat requires IsSimAction(a) {
    if OnRoot(a) then 0 else a.s
  }

  function ActingClient(a: Action): nat requires !IsSimAction(a) {
    if a.AVerdict? || a.AConnectVerdict? then 0 else a.c
  }

  /** What sim rank 0 and the listener thread keep between them, and what rank 0 has told the client. */
  datatype Shared = Shared(newQuery: bool, listening: bool, vsent: seq<int>)

  function SharedOf(g: State): Shared { Shared(g.newQuery, g.listening, g.vsent) }

  lemma Sizes(cfg: Config)
    requires cfg.Valid()
    ensures cfg.M >= 1 && cfg.N >= 1 && |cfg.lo| == cfg.N + 1
  {
  }

  ghost predicate ClientStep(cfg: Config, g: State, a: Action)
    requires cfg.Valid() && Shape(cfg, g) && Enabled(cfg, g, a) && !IsSimAction(a)
  {
    var g' := Apply(cfg, g, a);
    && Shape(cfg, g') && g'.sims == g.sims && g'.bq == g.bq && SharedOf(g') == SharedOf(g)
    && ActingClient(a) < cfg.N && g'.clients == g.clients[ActingClient(a) := g'.clients[ActingClient(a)]]
    && (a != AStart(0) ==> g'.inbox == g.inbox)
  }

  lemma StartStep(cfg: Config, g: State, c: nat)
    requires cfg.Valid() && Shape(cfg, g) && Enabled(cfg, g, AStart(c))
    ensures ClientStep(cfg, g, AStart(c))
  {
    hide Config.Valid, Push;
    Sizes(cfg);
  }

  lemma CommandStep(cfg: Config, g: State, a: Action)
    requires cfg.Valid() && Shape(cfg, g) && Enabled(cfg, g, a) && (a.AVerdict? || a.ALeave? || a.AReadBcast? || a.AAccept?)
    ensures ClientStep(cfg, g, a)
  {
    hide Config.Valid, LinkUp, AllArrived, AfterCommand, Pop;
    Sizes(cfg);
  }

  lemma ConnectStep(cfg: Config, g: State, a: Action)
    requires cfg.Valid() && Shape(cfg, g) && Enabled(cfg, g, a) && (a.AConnectVerdict? || a.AConnectBcast?)
    ensures ClientStep(cfg, g, a)
  {
    hide Config.Valid, AfterConnect, Pop;
    Sizes(cfg);
  }

  lemma TalkStep(cfg: Config, g: State, a: Action)
    requires cfg.Valid() && Shape(cfg, g) && Enabled(cfg, g, a) && (a.APing? || a.ARecv?)
    ensures ClientStep(cfg, g, a)
  {
    hide Config.Valid, Assemble, Complete, Expects, Push, Pop;
    Sizes(cfg);
  }

  lemma QueryStep(cfg: Config, g: State, a: Action)
    requires cfg.Valid() && Shape(cfg, g) && Enabled(cfg, g, a) && (a.AEndLoop? || a.AReturn?)
    ensures ClientStep(cfg, g, a)
  {
    hide Config.Valid, AllArrived;
    Sizes(cfg);
  }

  /** A client's step changes one client rank and nothing on the simulation's side but what is in flight. */
  lemma ClientStepFrame(cfg: Config, g: State, a: Action)
    requires cfg.Valid() && Shape(cfg, g) && Enabled(cfg, g, a) && !IsSimAction(a)
    ensures ClientStep(cfg, g, a)
  {
    hide Config.Valid, Enabled, Apply, ClientStep;
    match a {
      case AStart(c) => StartStep(cfg, g, c);
      case AVerdict | ALeave(_) | AReadBcast(_) | AAccept(_) => CommandStep(cfg, g, a);
      case AConnectVerdict | AConnectBcast(_) => ConnectStep(cfg, g, a);
      case APing(_) | ARecv(_) => TalkStep(cfg, g, a);
      case _ => QueryStep(cfg, g, a);
    }
  }

  ghost predicate SimStep(cfg: Config, g: State, a: Action)
    requires cfg.Valid() && Shape(cfg, g) && Enabled(cfg, g, a) && IsSimAction(a)
  {
    var g' := Apply(cfg, g, a);
    var s := ActingSim(a);
    && Shape(cfg, g') && s < cfg.M && g'.sims == g.sims[s := g'.sims[s]] && g'.clients == g.clients
    && (s != 0 ==> SharedOf(g') == SharedOf(g)) && (a != ARecord ==> g'.inbox == g.inbox)
    && forall t :: 0 < t < cfg.M && t != s ==> g.bq[t] <= g'.bq[t]
  }

  lemma RootStep(cfg: Config, g: State, a: Action)
    requires cfg.Valid() && Shape(cfg, g) && Enabled(cfg, g, a) && OnRoot(a)
    ensures SimStep(cfg, g, a)
  {
    hide Config.Valid, Dispatch, Dial;
    Sizes(cfg);
  }

  lemma RankStep(cfg: Config, g: State, a: Action)
    requires cfg.Valid() && Shape(cfg, g) && Enabled(cfg, g, a) && IsSimAction(a) && !OnRoot(a)
    ensures SimStep(cfg, g, a)
  {
    hide Config.Valid, LinkUp, Dispatch, Dial, FramesAt;
    Sizes(cfg);
  }

  /** A simulation rank's step changes that rank; broadcasts only add to the queues of the others, and only rank 0
      changes what it shares with the listener. */
  lemma SimStepFrame(cfg: Config, g: State, a: Action)
    requires cfg.Valid() && Shape(cfg, g) && Enabled(cfg, g, a) && IsSimAction(a)
    ensures SimStep(cfg, g, a)
  {
    hide Config.Valid, Enabled, Apply, SimStep;
    if OnRoot(a) { RootStep(cfg, g, a); } else { RankStep(cfg, g, a); }
  }
}
