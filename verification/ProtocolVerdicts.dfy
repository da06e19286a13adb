/** Every command gets one verdict, and both sides agree on what it was. */
module ProtocolVerdicts {
  import opened SimStates
  import opened Protocol
  import opened ProtocolInvariant
  import opened ProtocolSafety
  import opened ProtocolCommands
  import opened ProtocolSteps
  import opened ProtocolClientSteps
  import opened ProtocolTheorems
  import opened ProtocolWaits

  /** Verdicts sent by the time client rank 0 is where it is. */
  lemma DeskVerdicts(cfg: Config, hist: seq<Event>, taken: seq<nat>, vsent: seq<int>, d: Desk)
    requires cfg.Valid() && DeskOk(cfg, hist, taken, vsent, d)
    ensures d.cl.op <= |vsent| <= d.cl.op + 1
    ensures d.cl.pc.Closed? || InQuery(d.cl.pc) ==> d.cl.op < |vsent|
    ensures d.cl.pc.InBarrier? && cfg.script[d.cl.op] != CONNECT ==> d.cl.op < |vsent|
    ensures d.cl.pc.AwaitConnectVerdict? && d.downq != [] ==> d.cl.op < |vsent|
    ensures forall p :: 0 <= p < |vsent| ==> vsent[p] == Ver(cfg, hist, p)
  {
    if InQuery(d.cl.pc) || (d.cl.pc.InBarrier? && cfg.script[d.cl.op] != CONNECT) { LastReceived(cfg, hist, taken, vsent, d.root, d.cl.op); }
    hide EventOk, TakenOk, Ver, Session;
  }

  /** There is one verdict on every command that client rank 0 is past, at most one on the command it is at, and
      none on any other; and as many as sim rank 0 has received, less the CONNECT whose client it is connecting. */
  lemma VerdictsCounted(cfg: Config, g: State)
    requires cfg.Valid() && Reachable(cfg, g) && Shape(cfg, g) && cfg.M >= 1 && cfg.N >= 1
    ensures g.clients[0].op <= |g.vsent| <= g.clients[0].op + 1
    ensures |g.vsent| == Answered(cfg, g.hist, g.sims[0]) - (if g.sims[0].pc.Connecting? then 1 else 0)
  {
    hide Reachable, Inv, Config.Valid, CmdOk, SimOk, ClientOk, Answered;
    ReachableInv(cfg, g);
    InvDesk(cfg, g);
    DeskVerdicts(cfg, g.hist, g.taken, g.vsent, DeskOf(g));
  }

  /** A client closed by a verdict has rank 0 closed beside it. */
  lemma ClosedTogether(cfg: Config, g: State, c: nat)
    requires cfg.Valid() && Inv(cfg, g) && Shape(cfg, g) && c < cfg.N && cfg.N >= 1 && g.clients[c].pc.Closed?
    ensures g.clients[0].pc.Closed? && g.clients[0].op == g.clients[c].op
  {
    hide Inv, Config.Valid, ClientOk, QuitOk, ResultOk, Ver, CmdOk, HistOk, SimOk;
    var cl0, cl := g.clients[0], g.clients[c];
    QuitOf(cfg, g, 0);
    QuitOf(cfg, g, c);
    ClosedOnQuit(cfg, g.hist, cl);
    ClosedPlaces(cfg, g.hist, c, cl0, cl);
    Barriers(cfg, g, c);
    if cl.op > cl0.op { Ahead(cfg, g.hist, c, cl0, cl); }
    InvDesk(cfg, g);
    if InQuery(cl0.pc) {
      QueryDesk(cfg, g.hist, DeskOf(g));
      NotTookNotQuit(cfg, g.hist, cl.op);
    }
  }

  lemma NotTookNotQuit(cfg: Config, hist: seq<Event>, p: nat)
    requires !Took(cfg, hist)
    ensures Ver(cfg, hist, p) == 0
  {
  }

  lemma ClosedPlaces(cfg: Config, hist: seq<Event>, c: nat, cl0: ClientRank, cl: ClientRank)
    requires cfg.Valid() && c < cfg.N && ClientOk(cfg, 0, cl0) && ClientOk(cfg, c, cl) && QuitOk(cfg, hist, cl0) && cl.pc.Closed?
    requires Ver(cfg, hist, cl.op) == 1 && cl.nb <= cl0.nb
    ensures cl0.op <= cl.op
    ensures cl0.op == cl.op ==> cl0.pc.Closed? || InQuery(cl0.pc)
  {
    hide Ver;
  }

  /** What the simulation answered and what the clients did about it: a client that is past a command has been
      sent 0 for it, unless it was a DISCONNECT, and a client that has closed at a command has been sent 1. */
  lemma VerdictsAreObeyed(cfg: Config, g: State, c: nat, p: nat)
    requires cfg.Valid() && Reachable(cfg, g) && Shape(cfg, g) && c < cfg.N && p < |cfg.script|
    ensures g.clients[c].op > p ==> p < |g.vsent| && (cfg.script[p] != DISCONNECT ==> g.vsent[p] == 0)
    ensures g.clients[c].op == p && g.clients[c].pc.Closed? ==> p < |g.vsent| && g.vsent[p] == 1
  {
    hide Reachable, Inv, Config.Valid, ClientOk, QuitOk, ResultOk, Ver, CmdOk, HistOk, SimOk, DeskOk;
    ReachableInv(cfg, g);
    InvDesk(cfg, g);
    DeskVerdicts(cfg, g.hist, g.taken, g.vsent, DeskOf(g));
    QuitOf(cfg, g, 0);
    QuitOf(cfg, g, c);
    Barriers(cfg, g, c);
    var cl0, cl := g.clients[0], g.clients[c];
    if cl.pc.Closed? { ClosedTogether(cfg, g, c); }
    if cl.op > cl0.op { Ahead(cfg, g.hist, c, cl0, cl); OneAhead(cfg, c, cl0, cl); }
    PassedVerdicts(cfg, g.hist, cl, p);
  }

  /** A client ahead of rank 0 is only one command ahead. */
  lemma OneAhead(cfg: Config, c: nat, cl0: ClientRank, cl: ClientRank)
    requires cfg.Valid() && c < cfg.N && ClientOk(cfg, 0, cl0) && ClientOk(cfg, c, cl)
    requires cl.op > cl0.op && cl0.pc.InEndBarrier? && Left(cl) <= cl0.arrived && cl.nb <= cl0.nb
    ensures cl.op == cl0.op + 1
  {
    BarsMonotone(cfg.script, cl0.op, cl.op);
    if cl.op > cl0.op + 1 { BarsMonotone(cfg.script, cl0.op + 1, cl.op); }
  }

  lemma PassedVerdicts(cfg: Config, hist: seq<Event>, cl: ClientRank, p: nat)
    requires QuitOk(cfg, hist, cl)
    ensures cl.op > p && p < |cfg.script| && cfg.script[p] != DISCONNECT ==> Ver(cfg, hist, p) == 0
    ensures cl.pc.Closed? ==> Ver(cfg, hist, cl.op) == 1
  {
  }
}
