/** The inductive invariant of the protocol. Each part speaks about a few components of the
    state, so that a step leaves most parts untouched. */
module ProtocolInvariant {
  import opened SimStates
  import opened Protocol

  // ----- Counters along the client script ------------------------------------------------

  /** Barriers a client rank has entered before command p, and broadcasts it has read. */
  ghost function Bars(script: seq<Command>, p: nat): nat requires p <= |script| {
    if p == 0 then 0 else Bars(script, p - 1) + (if script[p-1] == QUERY then 2 else 1)
  }

  ghost function Bcs(script: seq<Command>, p: nat): nat requires p <= |script| {
    if p == 0 then 0 else Bcs(script, p - 1) + (if script[p-1] == CONNECT then 2 else 1)
  }

  lemma {:induction false} BarsMonotone(script: seq<Command>, p: nat, q: nat)
    requires p < q <= |script|
    ensures Bars(script, p) + (if script[p] == QUERY then 2 else 1) <= Bars(script, q)
    decreases q
  {
    if p < q - 1 { BarsMonotone(script, p, q - 1); }
  }

  lemma {:induction false} BcsMonotone(script: seq<Command>, p: nat, q: nat)
    requires p < q <= |script|
    ensures Bcs(script, p) + (if script[p] == CONNECT then 2 else 1) <= Bcs(script, q)
    decreases q
  {
    if p < q - 1 { BcsMonotone(script, p, q - 1); }
  }

  function BarOff(pc: ClientPc): nat {
    if pc.Start? || pc.AwaitVerdict? then 0 else if pc.InEndBarrier? then 2 else 1
  }

  function BcOff(pc: ClientPc, cmd: Command): nat {
    if pc.Start? || pc.AwaitVerdict? || pc.InBarrier? || pc.AwaitBcast? then 0
    else if pc.Closed? && cmd == CONNECT then 2 else 1
  }

  predicate InQuery(pc: ClientPc) { pc.Loop? || pc.AwaitFrames? || pc.InEndBarrier? }

  /** Barriers this rank has left. */
  function Left(cl: ClientRank): int {
    cl.arrived - (if cl.pc.InBarrier? || cl.pc.InEndBarrier? then 1 else 0)
  }

  // ----- One rank at a time ----------------------------------------------------------------

  /** A client rank is somewhere in the program text of script[op]. */
  ghost predicate ClientOk(cfg: Config, c: nat, cl: ClientRank)
    requires cfg.Valid() && c < cfg.N
  {
    && cl.op <= |cfg.script|
    && (!cl.pc.Start? ==> cl.op < |cfg.script|)
    && cl.arrived == Bars(cfg.script, cl.op) + BarOff(cl.pc)
    && cl.nb == Bcs(cfg.script, cl.op) + (if cl.pc.Start? then 0 else BcOff(cl.pc, cfg.script[cl.op]))
    && !cl.pc.Failed?
    && (cl.pc.AwaitVerdict? ==> c == 0 && cfg.script[cl.op] != CONNECT)
    && (cl.pc.AwaitBcast? ==> c != 0)
    && (cl.pc.AwaitConnectVerdict? ==> c == 0)
    && (cl.pc.AwaitConnectBcast? ==> c != 0)
    && (cl.pc.Accepting? || cl.pc.AwaitConnectVerdict? || cl.pc.AwaitConnectBcast? ==> cfg.script[cl.op] == CONNECT)
    && (InQuery(cl.pc) ==> cfg.script[cl.op] == QUERY && Target(cfg, cl, c) <= cfg.lo[c+1])
    && (cl.pc.AwaitFrames? ==> Target(cfg, cl, c) < cfg.lo[c+1])
    && (cl.pc.InEndBarrier? ==> Target(cfg, cl, c) == cfg.lo[c+1])
    && (cl.pc.Closed? ==> cfg.script[cl.op] != DISCONNECT)
  }

  /** A sim rank's connection is the one its executed prefix of the script leaves open. */
  ghost predicate SimOk(cfg: Config, s: nat, sim: SimRank)
    requires cfg.Valid() && s < cfg.M
  {
    && sim.calls <= |cfg.steps|
    && sim.ops <= |cfg.script|
    && (forall p :: p in sim.dialed <==> 0 <= p < sim.ops && cfg.script[p] == CONNECT)
    && match sim.pc
       case Ready => sim.intercomm == Session(cfg.script, sim.ops)
       case AwaitCommand => s != 0 && sim.calls < |cfg.steps| && sim.intercomm == Session(cfg.script, sim.ops)
       case AwaitPort => s != 0 && sim.intercomm == None && sim.ops < |cfg.script| && cfg.script[sim.ops] == CONNECT
       case Connecting => && sim.intercomm == None && sim.ops >= 1 && cfg.script[sim.ops-1] == CONNECT
                          && sim.clientPort == sim.ops - 1
       case ProbeAll => && sim.calls < |cfg.steps| && sim.ops >= 1 && cfg.script[sim.ops-1] == QUERY
                        && sim.intercomm == Session(cfg.script, sim.ops)
       case Sending(c, i) => && sim.calls < |cfg.steps| && sim.ops >= 1 && cfg.script[sim.ops-1] == QUERY
                             && sim.intercomm == Session(cfg.script, sim.ops)
                             && c == Owner(cfg, s) && i < |FramesAt(cfg, sim.calls, s)|
       case Finalizing => s == 0 && sim.calls == |cfg.steps| && sim.intercomm == Session(cfg.script, sim.ops)
       case Done => sim.calls == |cfg.steps|
       case Failed => false
  }

  // ----- Rank 0's history and the broadcasts ------------------------------------------------

  function AfterOps(e: Event): nat {
    match e
    case Idle(n) => n
    case Run(n) => n + 1
    case Fin(n, took, code) => if took && code != Code(QUERY) then n + 1 else n
  }

  function OpsAt(hist: seq<Event>, k: nat): nat requires k <= |hist| {
    if k == 0 then 0 else AfterOps(hist[k-1])
  }

  predicate Busy(pc: SimPc) { pc.Connecting? || pc.ProbeAll? || pc.Sending? }

  /** The destructor's event, when it answered a command. */
  predicate Took(cfg: Config, hist: seq<Event>) {
    |hist| == |cfg.steps| + 1 && hist[|cfg.steps|].Fin? && hist[|cfg.steps|].took
  }

  /** The verdict on command p: 1 exactly when the destructor answered it. */
  function Ver(cfg: Config, hist: seq<Event>, p: nat): int {
    if Took(cfg, hist) && hist[|cfg.steps|].ops == p then 1 else 0
  }

  /** Commands that rank 0 has received: ops, plus a QUERY answered by the destructor. */
  function Answered(cfg: Config, hist: seq<Event>, root: SimRank): nat {
    root.ops + (if Took(cfg, hist) && hist[|cfg.steps|].code == Code(QUERY) then 1 else 0)
  }

  ghost predicate EventOk(cfg: Config, hist: seq<Event>, taken: seq<nat>, i: nat)
    requires i < |hist|
  {
    && hist[i].ops == OpsAt(hist, i)
    && (hist[i].Fin? <==> i == |cfg.steps|)
    && (hist[i].Run? ==> hist[i].ops < |taken| && taken[hist[i].ops] == i && hist[i].ops < |cfg.script|)
    && (hist[i].Fin? && hist[i].took ==>
          && hist[i].ops < |cfg.script| && hist[i].code == Code(cfg.script[hist[i].ops])
          && (hist[i].code != Code(QUERY) ==> hist[i].ops < |taken| && taken[hist[i].ops] == i))
    && (hist[i].Fin? && !hist[i].took ==> hist[i].code <= 0)
  }

  ghost predicate TakenOk(hist: seq<Event>, taken: seq<nat>, p: nat)
    requires p < |taken|
  {
    taken[p] < |hist| && !hist[taken[p]].Idle? && hist[taken[p]].ops == p
    && (hist[taken[p]].Fin? ==> hist[taken[p]].took && hist[taken[p]].code != Code(QUERY))
  }

  ghost predicate HistOk(cfg: Config, hist: seq<Event>, taken: seq<nat>, vsent: seq<int>, root: SimRank) {
    && |hist| == root.calls + (if Busy(root.pc) || root.pc.Done? then 1 else 0)
    && |taken| == root.ops
    && root.ops == OpsAt(hist, |hist|)
    && (Busy(root.pc) ==> !hist[|hist|-1].Idle?)
    && (root.pc.Connecting? && root.calls == |cfg.steps| ==> hist[|hist|-1].Fin? && hist[|hist|-1].took && hist[|hist|-1].code == Code(CONNECT))
    && (forall i :: 0 <= i < |hist| ==> EventOk(cfg, hist, taken, i))
    && (forall p :: 0 <= p < |taken| ==> TakenOk(hist, taken, p))
    && |vsent| == Answered(cfg, hist, root) - (if root.pc.Connecting? then 1 else 0)
    && (forall p :: 0 <= p < |vsent| ==> vsent[p] == Ver(cfg, hist, p))
  }

  /** What rank 0 broadcasts for one command after haveQuery. */
  function Orders(cfg: Config, n: nat): seq<BMsg> {
    if n >= |cfg.script| then []
    else [CommandCode(Code(cfg.script[n]))] + (if cfg.script[n] == CONNECT then [PortName(n)] else [])
  }

  /** ... and for one event. */
  function Entry(cfg: Config, e: Event): seq<BMsg> {
    match e
    case Idle(_) => [HaveQuery(false)]
    case Run(n) => [HaveQuery(true)] + Orders(cfg, n)
    case Fin(n, took, code) =>
      [CommandCode(code)] + (if took && code == Code(CONNECT) then [PortName(n)] else [])
  }

  function Stream(cfg: Config, hist: seq<Event>): seq<BMsg> {
    if hist == [] then [] else Entry(cfg, hist[0]) + Stream(cfg, hist[1..])
  }

  lemma {:induction false} StreamSnoc(cfg: Config, hist: seq<Event>, e: Event)
    ensures Stream(cfg, hist + [e]) == Stream(cfg, hist) + Entry(cfg, e)
  {
    if hist == [] {
      assert [e][1..] == [];
    } else {
      assert (hist + [e])[1..] == hist[1..] + [e];
      StreamSnoc(cfg, hist[1..], e);
    }
  }

  /** The event a rank reads after the one it is executing. */
  function Next(sim: SimRank): nat { if sim.pc.Ready? then sim.calls else sim.calls + 1 }

  /** Rank s != 0 is replaying rank 0's history ... */
  ghost predicate FollowAt(hist: seq<Event>, sim: SimRank) {
    var k := sim.calls;
    if sim.pc.Ready? then
      k <= |hist| && sim.ops == OpsAt(hist, k)
    else
      && k < |hist| && !hist[k].Idle?
      && (hist[k].Fin? && !sim.pc.Done? ==> hist[k].took && hist[k].code == Code(CONNECT))
      && match sim.pc
         case AwaitCommand => hist[k].Run? && sim.ops == hist[k].ops
         case AwaitPort => sim.ops == hist[k].ops
         case Done => hist[k].Fin? && sim.ops == AfterOps(hist[k])
         case _ => sim.ops == hist[k].ops + 1
  }

  function Pending(cfg: Config, sim: SimRank): seq<BMsg> {
    if sim.pc.AwaitCommand? then Orders(cfg, sim.ops)
    else if sim.pc.AwaitPort? then [PortName(sim.ops)]
    else []
  }

  /** ... and its queue holds exactly the rest. */
  ghost predicate FollowOk(cfg: Config, hist: seq<Event>, sim: SimRank, q: seq<BMsg>) {
    FollowAt(hist, sim) && Next(sim) <= |hist| && q == Pending(cfg, sim) + Stream(cfg, hist[Next(sim)..])
  }

  // ----- The clients among themselves ------------------------------------------------------

  /** Rank 0's broadcasts: a 0 before each accept, and the verdict on each command. */
  ghost predicate VerdictAt(cfg: Config, hist: seq<Event>, verdicts: seq<int>, p: nat)
    requires p < |cfg.script|
  {
    var b := Bcs(cfg.script, p);
    if cfg.script[p] == CONNECT then
      (b < |verdicts| ==> verdicts[b] == 0) && (b + 1 < |verdicts| ==> verdicts[b+1] == Ver(cfg, hist, p))
    else
      b < |verdicts| ==> verdicts[b] == Ver(cfg, hist, p)
  }

  /** A rank closes exactly on a verdict of 1, and only a DISCONNECT is passed with one. */
  ghost predicate QuitOk(cfg: Config, hist: seq<Event>, cl: ClientRank) {
    && (cl.pc.Closed? ==> Ver(cfg, hist, cl.op) == 1)
    && (forall p :: 0 <= p < cl.op && p < |cfg.script| && cfg.script[p] != DISCONNECT ==> Ver(cfg, hist, p) == 0)
  }

  // ----- Client rank 0 and sim rank 0 -------------------------------------------------------

  predicate RootResting(pc: SimPc) { pc.Ready? || pc.Finalizing? || pc.Done? }

  /** Command p has been received by rank 0. */
  predicate Received(cfg: Config, hist: seq<Event>, root: SimRank, p: nat) {
    Answered(cfg, hist, root) == p + 1
  }

  /** Where the CONNECT of client rank 0 is while that rank waits to be connected. */
  ghost predicate ConnectOk(cfg: Config, hist: seq<Event>, root: SimRank, p: nat,
                            newQuery: bool, inbox: Option<nat>, downq: seq<Msg>)
  {
    var n := Answered(cfg, hist, root);
    || (n == p && inbox == Some(p) && !newQuery && RootResting(root.pc) && downq == [])
    || (n == p && inbox == None && newQuery && (root.pc.Ready? || root.pc.Finalizing?)
        && root.clientCommand == Code(CONNECT) && root.clientPort == p && downq == [])
    || (n == p + 1 && inbox == None && root.pc.Connecting? && downq == [])
    || (n == p + 1 && inbox == None && RootResting(root.pc) && (newQuery ==> root.pc.Done?) && downq == [Verdict(Ver(cfg, hist, p))])
  }

  /** What the two rank 0s and the listener share. */
  datatype Desk = Desk(root: SimRank, cl: ClientRank, newQuery: bool, listening: bool, inbox: Option<nat>,
                       upq: seq<Msg>, downq: seq<Msg>)

  function DeskOf(g: State): Desk requires |g.sims| > 0 && |g.clients| > 0 {
    Desk(g.sims[0], g.clients[0], g.newQuery, g.listening, g.inbox, Get(g.up, 0, 0), Get(g.down, 0, 0))
  }

  ghost predicate CmdOk(cfg: Config, hist: seq<Event>, d: Desk)
    requires cfg.Valid()
  {
    var Desk(root, cl, newQuery, listening, inbox, upq, downq) := d;
    var n := Answered(cfg, hist, root);
    var p := cl.op;
    && (listening <==> root.pc.Ready? && root.intercomm.None? && !newQuery)
    && (newQuery && root.pc.Ready? ==> root.intercomm.None?)
    && ((root.pc.Ready? || root.pc.Finalizing?) && !newQuery ==> root.clientCommand <= 0)
    && (Took(cfg, hist) ==> root.pc.Done? || root.pc.Connecting?)
    && root.ops <= |cfg.script|
    && (root.pc.Done? && !Took(cfg, hist) ==> Session(cfg.script, root.ops) == None)
    && p <= |cfg.script| && (!cl.pc.Start? ==> p < |cfg.script|)
    && match cl.pc
       case Start => && n == p && inbox == None && !newQuery && upq == [] && downq == [] && RootResting(root.pc)
                     && (Took(cfg, hist) ==> Session(cfg.script, p) == None)
       case AwaitVerdict =>
         && inbox == None && !newQuery
         && ((n == p && !Took(cfg, hist) && (root.pc.Ready? || root.pc.Finalizing?) && upq == [CommandMsg(Code(cfg.script[p]))] && downq == [])
             || (Received(cfg, hist, root, p) && upq == [] && downq == [Verdict(Ver(cfg, hist, p))]))
       case InBarrier =>
         if cfg.script[p] == CONNECT then
           upq == [] && cl.quit == 0 && ConnectOk(cfg, hist, root, p, newQuery, inbox, downq)
         else
           && inbox == None && !newQuery && upq == [] && downq == []
           && Received(cfg, hist, root, p) && cl.quit == Ver(cfg, hist, p)
       case Accepting => upq == [] && ConnectOk(cfg, hist, root, p, newQuery, inbox, downq)
       case AwaitConnectVerdict => upq == [] && n == p + 1 && ConnectOk(cfg, hist, root, p, newQuery, inbox, downq)
       case AwaitFrames => inbox == None && !newQuery && n == p + 1 && !Took(cfg, hist)
                           && (|cl.regions| != 0 ==> upq == [] && downq == [])
       case Loop => inbox == None && !newQuery && upq == [] && downq == [] && n == p + 1 && !Took(cfg, hist)
       case InEndBarrier => inbox == None && !newQuery && upq == [] && downq == [] && n == p + 1 && !Took(cfg, hist)
       case Closed => inbox == None && n == p + 1 && upq == [] && downq == [] && Ver(cfg, hist, p) == 1 && root.pc.Done?
       case _ => false
  }

  // ----- One sim and the client that reads from it -----------------------------------------

  /** Client `cl` has not yet pinged its k-th sim for query p (and, once closed, never will). */
  predicate NotPinged(cl: ClientRank, k: nat, p: nat) {
    || cl.op < p
    || (cl.op == p && (cl.pc.Start? || cl.pc.AwaitVerdict? || cl.pc.InBarrier? || cl.pc.AwaitBcast? || cl.pc.Closed?
                       || (cl.pc.Loop? && |cl.regions| <= k) || (cl.pc.AwaitFrames? && |cl.regions| < k)))
  }

  /** ... and has everything it wanted from that sim. */
  predicate Served(cl: ClientRank, k: nat, p: nat) {
    || cl.op > p
    || (cl.op == p && ((cl.pc.Loop? && k < |cl.regions|) || (cl.pc.AwaitFrames? && k < |cl.regions|) || cl.pc.InEndBarrier?))
  }

  predicate Fresh(sim: SimRank, p: nat) {
    sim.ops <= p || (sim.ops == p + 1 && sim.pc.ProbeAll?)
  }

  /** Commands this sim has completed. */
  function Comp(sim: SimRank): int { sim.ops - (if Busy(sim.pc) then 1 else 0) }

  function Wrap(fs: seq<Frame>): seq<Msg> {
    seq(|fs|, i requires 0 <= i < |fs| => FrameMsg(fs[i]))
  }

  /** The conversation about one region, between the ping and the last frame. */
  ghost predicate Talk(cfg: Config, sim: SimRank, c: nat, cl: ClientRank, fs: seq<Frame>, t: nat, upq: seq<Msg>, downq: seq<Msg>)
  {
    var j := |cl.got|;
    || (upq == [Ping(c)] && downq == [] && j == 0 && Fresh(sim, cl.op))
    || (upq == [] && sim.ops == cl.op + 1 && sim.pc.Sending? && sim.calls == t
        && j <= sim.pc.sent < |fs| && cl.got == fs[..j] && downq == Wrap(fs[j..sim.pc.sent]))
    || (upq == [] && Comp(sim) > cl.op && j < |fs| && cl.got == fs[..j] && downq == Wrap(fs[j..]))
  }

  ghost predicate Link(cfg: Config, taken: seq<nat>, s: nat, sim: SimRank, cl: ClientRank, upq: seq<Msg>, downq: seq<Msg>)
    requires cfg.Valid() && s < cfg.M
  {
    var c := Owner(cfg, s);
    var k := s - cfg.lo[c];
    && (forall p :: 0 <= p < |cfg.script| && cfg.script[p] == QUERY && NotPinged(cl, k, p) ==> Fresh(sim, p))
    && (forall p :: 0 <= p < |cfg.script| && cfg.script[p] == QUERY && Served(cl, k, p) ==> Comp(sim) > p)
    && if cl.pc.AwaitFrames? && |cl.regions| == k then
         && cl.op < |taken| && taken[cl.op] < |cfg.steps|
         && Talk(cfg, sim, c, cl, FramesAt(cfg, taken[cl.op], s), taken[cl.op], upq, downq)
       else
         s != 0 ==> upq == [] && downq == []
  }

  ghost predicate OwnLink(cfg: Config, g: State, s: nat)
    requires cfg.Valid() && Shape(cfg, g) && s < cfg.M
  {
    var c := Owner(cfg, s);
    Link(cfg, g.taken, s, g.sims[s], g.clients[c], Get(g.up, s, c), Get(g.down, s, c))
  }

  // ----- Results ------------------------------------------------------------------------------

  /** The regions of query p that client c is owed first, up to n of them. */
  ghost predicate RegionsOf(cfg: Config, taken: seq<nat>, c: nat, p: nat, regions: seq<SimState>)
    requires cfg.Valid() && c < cfg.N
  {
    && p < |taken| && taken[p] < |cfg.steps| && cfg.lo[c] + |regions| <= cfg.M
    && forall k :: 0 <= k < |regions| ==>
         regions[k] == Delivered(cfg.steps[taken[p]][cfg.lo[c] + k].state)
  }

  ghost predicate ResultOk(cfg: Config, taken: seq<nat>, c: nat, cl: ClientRank)
    requires cfg.Valid() && c < cfg.N
  {
    && (InQuery(cl.pc) ==> RegionsOf(cfg, taken, c, cl.op, cl.regions))
    && (forall p :: p in cl.results ==> RegionsOf(cfg, taken, c, p, cl.results[p]) && cfg.lo[c] + |cl.results[p]| == cfg.lo[c+1])
    && (forall p :: p in cl.results <==> 0 <= p < cl.op && p < |cfg.script| && cfg.script[p] == QUERY)
  }

  // ----- All together --------------------------------------------------------------------------

  ghost predicate Inv(cfg: Config, g: State)
    requires cfg.Valid()
  {
    && Shape(cfg, g)
    && (forall s :: 0 <= s < cfg.M ==> SimOk(cfg, s, g.sims[s]))
    && HistOk(cfg, g.hist, g.taken, g.vsent, g.sims[0])
    && (forall s :: 1 <= s < cfg.M ==> FollowOk(cfg, g.hist, g.sims[s], g.bq[s]))
    && (forall c :: 0 <= c < cfg.N ==> ClientOk(cfg, c, g.clients[c]))
    && (forall c :: 0 <= c < cfg.N ==> g.clients[c].nb <= |g.verdicts|)
    && g.clients[0].nb == |g.verdicts|
    && (forall p :: 0 <= p < |cfg.script| ==> VerdictAt(cfg, g.hist, g.verdicts, p))
    && (forall c :: 0 <= c < cfg.N ==> QuitOk(cfg, g.hist, g.clients[c]))
    && (forall c, d :: 0 <= c < cfg.N && 0 <= d < cfg.N ==> Left(g.clients[c]) <= g.clients[d].arrived)
    && CmdOk(cfg, g.hist, DeskOf(g))
    && (forall s :: 0 <= s < cfg.M ==> OwnLink(cfg, g, s))
    && (forall s, c :: 0 <= s < cfg.M && 0 <= c < cfg.N && c != Owner(cfg, s) ==> Get(g.up, s, c) == [] && Get(g.down, s, c) == [])
    && (forall c :: 0 <= c < cfg.N ==> ResultOk(cfg, g.taken, c, g.clients[c]))
  }

  lemma InitRanks(cfg: Config)
    requires cfg.Valid()
    ensures forall s :: 0 <= s < cfg.M ==> SimOk(cfg, s, NEW_SIM)
    ensures forall c :: 0 <= c < cfg.N ==> ClientOk(cfg, c, NEW_CLIENT) && ResultOk(cfg, [], c, NEW_CLIENT)
    ensures HistOk(cfg, [], [], [], NEW_SIM) && FollowOk(cfg, [], NEW_SIM, []) && QuitOk(cfg, [], NEW_CLIENT)
  {
  }

  lemma InitDesk(cfg: Config, d: Desk)
    requires cfg.Valid() && d == Desk(NEW_SIM, NEW_CLIENT, false, true, None, [], [])
    ensures CmdOk(cfg, [], d)
  {
  }

  lemma InitLink(cfg: Config, s: nat)
    requires cfg.Valid() && s < cfg.M
    ensures Link(cfg, [], s, NEW_SIM, NEW_CLIENT, [], [])
  {
  }

  lemma InitInv(cfg: Config)
    requires cfg.Valid()
    ensures Inv(cfg, Init(cfg))
  {
    hide SimOk, ClientOk, ResultOk, HistOk, FollowOk, QuitOk, CmdOk, Link, Bcs, Session;
    var g := Init(cfg);
    InitRanks(cfg);
    InitDesk(cfg, DeskOf(g));
    forall s | 0 <= s < cfg.M ensures OwnLink(cfg, g, s) { InitLink(cfg, s); }
  }
}
