/** The client's steps keep the invariant. */
module ProtocolClientSteps {
  import opened SimStates
  import opened Protocol
  import opened ProtocolInvariant
  import opened ProtocolSafety
  import opened ProtocolCommands
  import opened ProtocolSteps

  /** A client step that neither pings a sim nor receives a frame. */
  lemma KeepClient(cfg: Config, g: State, g': State, c: nat)
    requires cfg.Valid() && Inv(cfg, g) && c < cfg.N && Shape(cfg, g')
    requires g' == g.(clients := g.clients[c := g'.clients[c]], up := g'.up, down := g'.down, inbox := g'.inbox, verdicts := g'.verdicts)
    requires c != 0 ==> g' == g.(clients := g.clients[c := g'.clients[c]])
    requires forall s, d :: 0 <= s < cfg.M && 0 <= d < cfg.N && (s != 0 || d != 0) ==>
               Get(g'.up, s, d) == Get(g.up, s, d) && Get(g'.down, s, d) == Get(g.down, s, d)
    requires ClientOk(cfg, c, g'.clients[c]) && ResultOk(cfg, g.taken, c, g'.clients[c])
    requires QuitOk(cfg, g.hist, g'.clients[c])
    requires |g'.verdicts| >= |g.verdicts| && g'.clients[c].nb <= |g'.verdicts|
    requires forall p :: 0 <= p < |cfg.script| ==> VerdictAt(cfg, g.hist, g'.verdicts, p)
    requires g'.clients[c].arrived >= g.clients[c].arrived
    requires forall d :: 0 <= d < cfg.N ==> Left(g'.clients[c]) <= g'.clients[d].arrived
    requires c == 0 ==> g'.clients[0].nb == |g'.verdicts| && CmdOk(cfg, g.hist, DeskOf(g'))
    requires !g.clients[c].pc.AwaitFrames? && !g'.clients[c].pc.AwaitFrames?
    requires forall k: nat :: cfg.lo[c] + k < cfg.lo[c+1] ==> Behind(cfg, k, g.clients[c], g'.clients[c])
    ensures Inv(cfg, g')
  {
    hide QuitOk, FollowOk, SimOk, HistOk, ClientOk, VerdictAt, CmdOk, ResultOk, Link, Config.Valid, Behind;
    OwnerZero(cfg);
    assert c != 0 ==> DeskOf(g') == DeskOf(g);
    forall s | 0 <= s < cfg.M ensures OwnLink(cfg, g', s) {
      assert OwnLink(cfg, g, s);
      var o := Owner(cfg, s);
      if o == c {
        LinkClient(cfg, g.taken, s, g.sims[s], g.clients[c], g'.clients[c], Get(g.up, s, c), Get(g.down, s, c), Get(g'.up, s, c), Get(g'.down, s, c));
      }
    }
  }

  // ----- Verdicts -------------------------------------------------------------------------------

  /** Client rank 0 adds the next broadcast. */
  lemma VerdictsSnoc(cfg: Config, hist: seq<Event>, verdicts: seq<int>, cl: ClientRank, v: int, p: nat)
    requires cfg.Valid() && ClientOk(cfg, 0, cl) && cl.nb == |verdicts| && cl.op < |cfg.script|
    requires (cl.pc.InBarrier? && v == if cfg.script[cl.op] == CONNECT then 0 else Ver(cfg, hist, cl.op))
             || (cl.pc.AwaitConnectVerdict? && v == Ver(cfg, hist, cl.op))
    requires p < |cfg.script| && VerdictAt(cfg, hist, verdicts, p)
    ensures VerdictAt(cfg, hist, verdicts + [v], p)
  {
    hide Ver;
    if p < cl.op { BcsMonotone(cfg.script, p, cl.op); }
    if cl.op < p { BcsMonotone(cfg.script, cl.op, p); }
  }

  /** What the other client ranks read is what rank 0 read. */
  lemma ReadsVerdict(cfg: Config, g: State, c: nat)
    requires cfg.Valid() && Inv(cfg, g) && c < cfg.N && g.clients[c].nb < |g.verdicts| && g.clients[c].op < |cfg.script|
    ensures g.clients[c].pc.AwaitBcast? ==>
              g.verdicts[g.clients[c].nb] == if cfg.script[g.clients[c].op] == CONNECT then 0 else Ver(cfg, g.hist, g.clients[c].op)
    ensures g.clients[c].pc.AwaitConnectBcast? ==> g.verdicts[g.clients[c].nb] == Ver(cfg, g.hist, g.clients[c].op)
  {
    hide QuitOk, FollowOk, SimOk, HistOk, CmdOk, ResultOk, Link, Config.Valid, Ver;
    assert ClientOk(cfg, c, g.clients[c]);
    assert VerdictAt(cfg, g.hist, g.verdicts, g.clients[c].op);
  }

  /** A query whose verdict was 0 has been taken by a process call. */
  lemma QueryTakenInProcess(cfg: Config, hist: seq<Event>, taken: seq<nat>, vsent: seq<int>, root: SimRank, p: nat)
    requires cfg.Valid() && HistOk(cfg, hist, taken, vsent, root) && SimOk(cfg, 0, root)
    requires Answered(cfg, hist, root) > p && Ver(cfg, hist, p) == 0
    ensures p < |taken| && taken[p] < |cfg.steps|
  {
    if Took(cfg, hist) { assert EventOk(cfg, hist, taken, |cfg.steps|); }
    assert p < |taken|;
    assert TakenOk(hist, taken, p) && EventOk(cfg, hist, taken, taken[p]);
  }

  /** If a broadcast verdict on query p exists, rank 0 has received p. */
  lemma BroadcastMeansReceived(cfg: Config, g: State, p: nat)
    requires cfg.Valid() && Inv(cfg, g) && p < |cfg.script| && cfg.script[p] != CONNECT && Bcs(cfg.script, p) < |g.verdicts|
    ensures Answered(cfg, g.hist, g.sims[0]) > p
  {
    hide QuitOk, FollowOk, SimOk, HistOk, ResultOk, Link, VerdictAt, Ver, Took, Answered, Session;
    var cl := g.clients[0];
    assert ClientOk(cfg, 0, cl);
    if cl.op < p { BcsMonotone(cfg.script, cl.op, p); }
    hide Bcs, Bars;
    assert CmdOk(cfg, g.hist, DeskOf(g));
  }

  lemma NoRegionsYet(cfg: Config, taken: seq<nat>, c: nat, cl: ClientRank, quit: int)
    requires cfg.Valid() && c < cfg.N && ResultOk(cfg, taken, c, cl) && cl.op < |cfg.script| && !InQuery(cl.pc)
    requires cfg.script[cl.op] == QUERY && quit == 0 ==> cl.op < |taken| && taken[cl.op] < |cfg.steps|
    ensures ResultOk(cfg, taken, c, AfterCommand(cfg.script[cl.op], cl.(nb := cl.nb + 1, quit := quit)))
  {
    hide Delivered;
  }

  lemma SameResults(cfg: Config, taken: seq<nat>, c: nat, cl: ClientRank, cl': ClientRank)
    requires cfg.Valid() && c < cfg.N && ResultOk(cfg, taken, c, cl) && cl'.results == cl.results && !InQuery(cl'.pc)
    requires cl'.op == cl.op || (cl'.op == cl.op + 1 && cl.op < |cfg.script| && cfg.script[cl.op] != QUERY)
    ensures ResultOk(cfg, taken, c, cl')
  {
    hide Delivered;
  }

  // ----- One rank's own text ---------------------------------------------------------------------

  ghost predicate Local(cfg: Config, c: nat, cl: ClientRank, cl': ClientRank)
    requires cfg.Valid() && c < cfg.N
  {
    && ClientOk(cfg, c, cl')
    && (forall k: nat :: cfg.lo[c] + k < cfg.lo[c+1] ==> Behind(cfg, k, cl, cl'))
  }

  lemma LocalStart(cfg: Config, c: nat, cl: ClientRank, quit: int)
    requires cfg.Valid() && c < cfg.N && ClientOk(cfg, c, cl) && cl.pc.Start? && cl.op < |cfg.script|
    ensures Local(cfg, c, cl, cl.(pc := InBarrier, arrived := cl.arrived + 1, quit := quit))
    ensures c == 0 && cfg.script[cl.op] != CONNECT ==> Local(cfg, c, cl, cl.(pc := AwaitVerdict))
  {
  }

  lemma LocalVerdict(cfg: Config, c: nat, cl: ClientRank, quit: int)
    requires cfg.Valid() && c < cfg.N && ClientOk(cfg, c, cl) && cl.pc.AwaitVerdict?
    ensures Local(cfg, c, cl, cl.(pc := InBarrier, arrived := cl.arrived + 1, quit := quit))
  {
  }

  lemma LocalWait(cfg: Config, c: nat, cl: ClientRank)
    requires cfg.Valid() && c < cfg.N && ClientOk(cfg, c, cl)
    ensures c != 0 && cl.pc.InBarrier? ==> Local(cfg, c, cl, cl.(pc := AwaitBcast))
    ensures cl.pc.Accepting? ==> Local(cfg, c, cl, cl.(pc := if c == 0 then AwaitConnectVerdict else AwaitConnectBcast))
    ensures cl.pc.Loop? && Target(cfg, cl, c) >= cfg.lo[c+1] ==> Local(cfg, c, cl, cl.(pc := InEndBarrier, arrived := cl.arrived + 1))
  {
  }

  lemma LocalAfter(cfg: Config, c: nat, cl: ClientRank, quit: int)
    requires cfg.Valid() && c < cfg.N && ClientOk(cfg, c, cl) && (if c == 0 then cl.pc.InBarrier? else cl.pc.AwaitBcast?)
    ensures cl.op < |cfg.script| && Local(cfg, c, cl, AfterCommand(cfg.script[cl.op], cl.(nb := cl.nb + 1, quit := quit)))
  {
  }

  lemma LocalConnected(cfg: Config, c: nat, cl: ClientRank, quit: int)
    requires cfg.Valid() && c < cfg.N && ClientOk(cfg, c, cl) && (cl.pc.AwaitConnectVerdict? || cl.pc.AwaitConnectBcast?)
    ensures cl.op < |cfg.script| && Local(cfg, c, cl, AfterConnect(cl.(nb := cl.nb + 1, quit := quit)))
  {
  }

  lemma LocalReturn(cfg: Config, taken: seq<nat>, c: nat, cl: ClientRank)
    requires cfg.Valid() && c < cfg.N && ClientOk(cfg, c, cl) && ResultOk(cfg, taken, c, cl) && cl.pc.InEndBarrier?
    ensures cl.op < |cfg.script| && Local(cfg, c, cl, cl.(pc := Start, op := cl.op + 1, results := cl.results[cl.op := cl.regions]))
    ensures ResultOk(cfg, taken, c, cl.(pc := Start, op := cl.op + 1, results := cl.results[cl.op := cl.regions]))
  {
    hide Delivered;
  }

  lemma VerBinary(cfg: Config, hist: seq<Event>, p: nat)
    ensures Ver(cfg, hist, p) == 0 || Ver(cfg, hist, p) == 1
  {
  }

  /** A command taken by a process call was told not to quit. */
  lemma TakenInProcess(cfg: Config, hist: seq<Event>, taken: seq<nat>, vsent: seq<int>, root: SimRank, p: nat)
    requires HistOk(cfg, hist, taken, vsent, root) && p < |taken| && taken[p] < |cfg.steps|
    ensures Ver(cfg, hist, p) == 0
  {
    if Took(cfg, hist) { assert EventOk(cfg, hist, taken, |cfg.steps|); }
  }

  lemma QuitMoves(cfg: Config, hist: seq<Event>, cl: ClientRank, cl': ClientRank)
    requires QuitOk(cfg, hist, cl) && (cl'.pc.Closed? ==> Ver(cfg, hist, cl'.op) == 1)
    requires cl'.op == cl.op || (cl'.op == cl.op + 1 && cl.op < |cfg.script|
                                 && (cfg.script[cl.op] == DISCONNECT || Ver(cfg, hist, cl.op) == 0))
    ensures QuitOk(cfg, hist, cl')
  {
    hide Ver;
  }

  // ----- The steps -----------------------------------------------------------------------------------

  lemma KeepStart(cfg: Config, g: State, c: nat)
    requires cfg.Valid() && Inv(cfg, g) && Shape(cfg, g) && CanStart(cfg, g, c)
    ensures Inv(cfg, StartOp(cfg, g, c))
  {
    hide QuitOk, FollowOk, SimOk, HistOk, ClientOk, VerdictAt, CmdOk, ResultOk, OwnLink, Behind, Config.Valid;
    InvDesk(cfg, g);
    var cl := g.clients[c];
    var g' := StartOp(cfg, g, c);
    LocalStart(cfg, c, cl, g'.clients[c].quit);
    SameResults(cfg, g.taken, c, cl, g'.clients[c]);
    if c == 0 { StartDesk(cfg, g); }
    QuitMoves(cfg, g.hist, cl, g'.clients[c]);
    KeepClient(cfg, g, g', c);
  }

  lemma StartDesk(cfg: Config, g: State)
    requires cfg.Valid() && Inv(cfg, g) && Shape(cfg, g) && CanStart(cfg, g, 0)
    ensures CmdOk(cfg, g.hist, DeskOf(StartOp(cfg, g, 0)))
  {
    hide Inv, SimOk, HistOk, ClientOk, CmdOk, Config.Valid;
    InvDesk(cfg, g);
    var d := DeskOf(g);
    var cl := d.cl;
    CmdStart(cfg, g.hist, g.taken, g.vsent, d);
    if cfg.script[cl.op] == CONNECT {
      assert DeskOf(StartOp(cfg, g, 0)) == d.(cl := cl.(pc := InBarrier, arrived := cl.arrived + 1, quit := 0), inbox := Some(cl.op));
    } else {
      assert DeskOf(StartOp(cfg, g, 0)) == d.(cl := cl.(pc := AwaitVerdict), upq := [CommandMsg(Code(cfg.script[cl.op]))]);
    }
  }

  lemma KeepVerdict(cfg: Config, g: State)
    requires cfg.Valid() && Inv(cfg, g) && Shape(cfg, g) && CanVerdict(cfg, g)
    ensures Inv(cfg, TakeVerdict(cfg, g))
  {
    hide QuitOk, FollowOk, SimOk, HistOk, VerdictAt, CmdOk, ResultOk, OwnLink, Behind, Config.Valid;
    InvDesk(cfg, g);
    var cl := g.clients[0];
    var d := DeskOf(g);
    CmdVerdict(cfg, g.hist, d);
    hide ClientOk;
    var g' := TakeVerdict(cfg, g);
    LocalVerdict(cfg, 0, cl, g'.clients[0].quit);
    SameResults(cfg, g.taken, 0, cl, g'.clients[0]);
    assert DeskOf(g') == d.(cl := g'.clients[0], downq := []);
    QuitMoves(cfg, g.hist, cl, g'.clients[0]);
    KeepClient(cfg, g, g', 0);
  }

  lemma KeepLeave(cfg: Config, g: State, c: nat)
    requires cfg.Valid() && Inv(cfg, g) && Shape(cfg, g) && CanLeave(cfg, g, c)
    ensures Inv(cfg, Leave(cfg, g, c))
  {
    hide QuitOk, FollowOk, SimOk, HistOk, ClientOk, VerdictAt, CmdOk, ResultOk, OwnLink, Behind, Config.Valid, Ver, Answered, Took;
    InvDesk(cfg, g);
    var cl := g.clients[c];
    var g' := Leave(cfg, g, c);
    if c != 0 {
      LocalWait(cfg, c, cl);
      SameResults(cfg, g.taken, c, cl, g'.clients[c]);
    } else {
      var d := DeskOf(g);
      CmdLeave(cfg, g.hist, g.taken, g.vsent, d);
      LocalAfter(cfg, 0, cl, cl.quit);
      if cfg.script[cl.op] == QUERY && cl.quit == 0 {
        QueryTakenInProcess(cfg, g.hist, g.taken, g.vsent, g.sims[0], cl.op);
      }
      NoRegionsYet(cfg, g.taken, 0, cl, cl.quit);
      assert cl.(nb := cl.nb + 1, quit := cl.quit) == cl.(nb := cl.nb + 1);
      forall p | 0 <= p < |cfg.script| ensures VerdictAt(cfg, g.hist, g'.verdicts, p) {
        VerdictsSnoc(cfg, g.hist, g.verdicts, cl, cl.quit, p);
      }
      assert DeskOf(g') == d.(cl := g'.clients[0]);
    }
    VerBinary(cfg, g.hist, cl.op);
    QuitMoves(cfg, g.hist, cl, g'.clients[c]);
    KeepClient(cfg, g, g', c);
  }

  lemma KeepReadBcast(cfg: Config, g: State, c: nat)
    requires cfg.Valid() && Inv(cfg, g) && Shape(cfg, g) && CanReadBcast(cfg, g, c)
    ensures Inv(cfg, ReadBcast(cfg, g, c))
  {
    hide QuitOk, FollowOk, SimOk, HistOk, VerdictAt, CmdOk, ResultOk, OwnLink, Behind, Config.Valid, Ver, Answered, Took, Bcs, Bars;
    InvDesk(cfg, g);
    var cl := g.clients[c];
    var g' := ReadBcast(cfg, g, c);
    var quit := g.verdicts[cl.nb];
    ReadsVerdict(cfg, g, c);
    assert ClientOk(cfg, c, cl);
    if cfg.script[cl.op] == QUERY && quit == 0 {
      BroadcastMeansReceived(cfg, g, cl.op);
      QueryTakenInProcess(cfg, g.hist, g.taken, g.vsent, g.sims[0], cl.op);
    }
    hide ClientOk;
    NoRegionsYet(cfg, g.taken, c, cl, quit);
    LocalAfter(cfg, c, cl, quit);
    VerBinary(cfg, g.hist, cl.op);
    QuitMoves(cfg, g.hist, cl, g'.clients[c]);
    KeepClient(cfg, g, g', c);
  }

  lemma KeepAccept(cfg: Config, g: State, c: nat)
    requires cfg.Valid() && Inv(cfg, g) && Shape(cfg, g) && CanAccept(cfg, g, c)
    ensures Inv(cfg, Accept(cfg, g, c))
  {
    hide QuitOk, FollowOk, SimOk, HistOk, ClientOk, VerdictAt, CmdOk, ResultOk, OwnLink, Behind, Config.Valid;
    InvDesk(cfg, g);
    var cl := g.clients[c];
    var g' := Accept(cfg, g, c);
    LocalWait(cfg, c, cl);
    SameResults(cfg, g.taken, c, cl, g'.clients[c]);
    if c == 0 {
      CmdAccept(cfg, g.hist, g.taken, g.vsent, DeskOf(g));
      assert DeskOf(g') == DeskOf(g).(cl := g'.clients[0]);
    }
    QuitMoves(cfg, g.hist, cl, g'.clients[c]);
    KeepClient(cfg, g, g', c);
  }

  lemma KeepConnectVerdict(cfg: Config, g: State)
    requires cfg.Valid() && Inv(cfg, g) && Shape(cfg, g) && CanConnectVerdict(cfg, g)
    ensures Inv(cfg, ConnectVerdict(cfg, g))
  {
    hide QuitOk, FollowOk, SimOk, HistOk, VerdictAt, CmdOk, ResultOk, OwnLink, Behind, Config.Valid, Ver, Bcs, Bars;
    InvDesk(cfg, g);
    var cl := g.clients[0];
    assert ClientOk(cfg, 0, cl);
    hide ClientOk;
    var d := DeskOf(g);
    CmdConnectVerdict(cfg, g.hist, g.taken, g.vsent, d);
    var g' := ConnectVerdict(cfg, g);
    var v := Ver(cfg, g.hist, cl.op);
    LocalConnected(cfg, 0, cl, v);
    SameResults(cfg, g.taken, 0, cl, g'.clients[0]);
    forall p | 0 <= p < |cfg.script| ensures VerdictAt(cfg, g.hist, g'.verdicts, p) {
      VerdictsSnoc(cfg, g.hist, g.verdicts, cl, v, p);
    }
    assert DeskOf(g') == d.(cl := g'.clients[0], downq := []);
    VerBinary(cfg, g.hist, cl.op);
    QuitMoves(cfg, g.hist, cl, g'.clients[0]);
    KeepClient(cfg, g, g', 0);
  }

  lemma KeepConnectBcast(cfg: Config, g: State, c: nat)
    requires cfg.Valid() && Inv(cfg, g) && Shape(cfg, g) && CanConnectBcast(cfg, g, c)
    ensures Inv(cfg, ConnectBcast(cfg, g, c))
  {
    hide QuitOk, FollowOk, SimOk, HistOk, VerdictAt, CmdOk, ResultOk, OwnLink, Behind, Config.Valid, Ver, Bcs, Bars;
    var cl := g.clients[c];
    assert ClientOk(cfg, c, cl);
    hide ClientOk;
    var g' := ConnectBcast(cfg, g, c);
    ReadsVerdict(cfg, g, c);
    LocalConnected(cfg, c, cl, g.verdicts[cl.nb]);
    SameResults(cfg, g.taken, c, cl, g'.clients[c]);
    VerBinary(cfg, g.hist, cl.op);
    QuitMoves(cfg, g.hist, cl, g'.clients[c]);
    KeepClient(cfg, g, g', c);
  }

  lemma KeepEndLoop(cfg: Config, g: State, c: nat)
    requires cfg.Valid() && Inv(cfg, g) && Shape(cfg, g) && CanEndLoop(cfg, g, c)
    ensures Inv(cfg, EndLoop(cfg, g, c))
  {
    hide QuitOk, FollowOk, SimOk, HistOk, ClientOk, VerdictAt, CmdOk, OwnLink, Behind, Config.Valid, RegionsOf;
    InvDesk(cfg, g);
    var cl := g.clients[c];
    var g' := EndLoop(cfg, g, c);
    LocalWait(cfg, c, cl);
    assert ResultOk(cfg, g.taken, c, cl);
    assert ResultOk(cfg, g.taken, c, g'.clients[c]);
    if c == 0 {
      assert DeskOf(g') == DeskOf(g).(cl := g'.clients[0]);
      CmdEndLoop(cfg, g.hist, DeskOf(g), cl.arrived + 1);
    }
    QuitMoves(cfg, g.hist, cl, g'.clients[c]);
    KeepClient(cfg, g, g', c);
  }

  lemma CmdEndLoop(cfg: Config, hist: seq<Event>, d: Desk, arrived: nat)
    requires cfg.Valid() && CmdOk(cfg, hist, d) && d.cl.pc.Loop?
    ensures CmdOk(cfg, hist, d.(cl := d.cl.(pc := InEndBarrier, arrived := arrived)))
  {
  }

  lemma KeepReturn(cfg: Config, g: State, c: nat)
    requires cfg.Valid() && Inv(cfg, g) && Shape(cfg, g) && CanReturn(cfg, g, c)
    ensures Inv(cfg, Return(cfg, g, c))
  {
    hide QuitOk, FollowOk, SimOk, HistOk, ClientOk, VerdictAt, CmdOk, ResultOk, OwnLink, Behind, Config.Valid;
    InvDesk(cfg, g);
    var cl := g.clients[c];
    var g' := Return(cfg, g, c);
    LocalReturn(cfg, g.taken, c, cl);
    if c == 0 {
      ServedRoot(cfg, g);
      CmdReturn(cfg, g.hist, g.taken, g.vsent, DeskOf(g), g'.clients[0].results);
      assert DeskOf(g') == DeskOf(g).(cl := g'.clients[0]);
    }
    StillOwed(cfg, g.taken, c, cl, cl);
    TakenInProcess(cfg, g.hist, g.taken, g.vsent, g.sims[0], cl.op);
    QuitMoves(cfg, g.hist, cl, g'.clients[c]);
    KeepClient(cfg, g, g', c);
  }

  lemma ServedRoot(cfg: Config, g: State)
    requires cfg.Valid() && Inv(cfg, g) && g.clients[0].pc.InEndBarrier?
    ensures Comp(g.sims[0]) > g.clients[0].op
  {
    hide QuitOk, FollowOk, SimOk, HistOk, VerdictAt, CmdOk, ResultOk, Bcs, Bars;
    InvDesk(cfg, g);
    assert ClientOk(cfg, 0, g.clients[0]);
    assert OwnLink(cfg, g, 0);
    assert Served(g.clients[0], 0, g.clients[0].op);
  }

  // ----- The region loop -----------------------------------------------------------------------------

  /** Client c pings or hears from the sim its next region comes from. */
  lemma KeepTalk(cfg: Config, g: State, g': State, c: nat, s: nat)
    requires cfg.Valid() && Inv(cfg, g) && c < cfg.N && s < cfg.M && Shape(cfg, g')
    requires g' == g.(clients := g.clients[c := g'.clients[c]], up := g'.up, down := g'.down)
    requires cfg.lo[c] <= s < cfg.lo[c+1] && s == Target(cfg, g.clients[c], c)
    requires forall i, d :: 0 <= i < cfg.M && 0 <= d < cfg.N && (i != s || d != c) ==>
               Get(g'.up, i, d) == Get(g.up, i, d) && Get(g'.down, i, d) == Get(g.down, i, d)
    requires ClientOk(cfg, c, g'.clients[c]) && ResultOk(cfg, g.taken, c, g'.clients[c]) && OwnLink(cfg, g', s)
    requires QuitOk(cfg, g.hist, g'.clients[c])
    requires g'.clients[c].nb == g.clients[c].nb && g'.clients[c].arrived == g.clients[c].arrived
    requires Left(g'.clients[c]) == Left(g.clients[c])
    requires c == 0 ==> CmdOk(cfg, g.hist, DeskOf(g'))
    requires forall k: nat :: cfg.lo[c] + k < cfg.lo[c+1] && cfg.lo[c] + k != s ==>
               Behind(cfg, k, g.clients[c], g'.clients[c]) && !Talking(g.clients[c], k) && !Talking(g'.clients[c], k)
    ensures Inv(cfg, g')
  {
    hide QuitOk, FollowOk, SimOk, HistOk, ClientOk, VerdictAt, CmdOk, ResultOk, Link, Config.Valid, Behind, Talking;
    OwnerZero(cfg);
    OwnerUnique(cfg, s, c);
    assert c != 0 ==> DeskOf(g') == DeskOf(g);
    forall i | 0 <= i < cfg.M ensures OwnLink(cfg, g', i) {
      assert OwnLink(cfg, g, i);
      if Owner(cfg, i) == c && i != s {
        LinkClient(cfg, g.taken, i, g.sims[i], g.clients[c], g'.clients[c], Get(g.up, i, c), Get(g.down, i, c), Get(g.up, i, c), Get(g.down, i, c));
      }
    }
  }

  lemma LocalTalk(cfg: Config, c: nat, cl: ClientRank, cl': ClientRank)
    requires cfg.Valid() && c < cfg.N && ClientOk(cfg, c, cl) && Target(cfg, cl, c) < cfg.lo[c+1]
    requires || (cl.pc.Loop? && cl' == cl.(pc := AwaitFrames, got := []))
             || (cl.pc.AwaitFrames? && cl' == cl.(got := cl'.got))
             || (cl.pc.AwaitFrames? && cl' == cl.(pc := Loop, got := [], regions := cl'.regions) && |cl'.regions| == |cl.regions| + 1)
    ensures ClientOk(cfg, c, cl')
    ensures forall k: nat :: cfg.lo[c] + k < cfg.lo[c+1] && cfg.lo[c] + k != Target(cfg, cl, c) ==>
               Behind(cfg, k, cl, cl') && !Talking(cl, k) && !Talking(cl', k)
  {
  }

  /** The queues between sim and client are empty when the client is about to ping. */
  lemma QuietBeforePing(cfg: Config, g: State, c: nat)
    requires cfg.Valid() && Inv(cfg, g) && Shape(cfg, g) && CanPingSim(cfg, g, c)
    ensures var s := Target(cfg, g.clients[c], c);
            && s < cfg.M && Owner(cfg, s) == c && Get(g.up, s, c) == [] && Get(g.down, s, c) == []
            && Link(cfg, g.taken, s, g.sims[s], g.clients[c], [], [])
  {
    hide QuitOk, FollowOk, SimOk, HistOk, ClientOk, VerdictAt, ResultOk, FramesAt, Bcs, Bars;
    var s := Target(cfg, g.clients[c], c);
    assert cfg.lo[c+1] <= cfg.lo[cfg.N];
    OwnerUnique(cfg, s, c);
    assert OwnLink(cfg, g, s);
    if s == 0 { assert CmdOk(cfg, g.hist, DeskOf(g)) && c == 0; }
  }

  lemma KeepPing(cfg: Config, g: State, c: nat)
    requires cfg.Valid() && Inv(cfg, g) && Shape(cfg, g) && CanPingSim(cfg, g, c)
    ensures Inv(cfg, PingSim(cfg, g, c))
  {
    hide QuitOk, FollowOk, SimOk, HistOk, ClientOk, VerdictAt, CmdOk, Link, Behind, RegionsOf, Talking;
    var cl := g.clients[c];
    var s := Target(cfg, cl, c);
    QuietBeforePing(cfg, g, c);
    var g' := PingSim(cfg, g, c);
    LocalTalk(cfg, c, cl, g'.clients[c]);
    assert ResultOk(cfg, g.taken, c, cl);
    StillOwed(cfg, g.taken, c, cl, g'.clients[c]);
    assert ClientOk(cfg, c, cl);
    LinkPing(cfg, g.taken, s, g.sims[s], cl);
    assert Get(g'.up, s, c) == [Ping(c)] && Get(g'.down, s, c) == [];
    if c == 0 {
      CmdPing(cfg, g.hist, DeskOf(g));
      assert DeskOf(g') == DeskOf(g).(cl := g'.clients[0], upq := if s == 0 then [Ping(0)] else []);
    }
    hide Config.Valid, ResultOk;
    QuitMoves(cfg, g.hist, cl, g'.clients[c]);
    KeepTalk(cfg, g, g', c, s);
  }

  lemma StillOwed(cfg: Config, taken: seq<nat>, c: nat, cl: ClientRank, cl': ClientRank)
    requires cfg.Valid() && c < cfg.N && ResultOk(cfg, taken, c, cl) && InQuery(cl.pc)
    requires cl'.op == cl.op && cl'.regions == cl.regions && cl'.results == cl.results
    ensures ResultOk(cfg, taken, c, cl') && cl.op < |taken| && taken[cl.op] < |cfg.steps|
  {
    hide Delivered;
  }

  lemma CmdPing(cfg: Config, hist: seq<Event>, d: Desk)
    requires cfg.Valid() && CmdOk(cfg, hist, d) && d.cl.pc.Loop?
    ensures d.upq == [] && d.downq == []
    ensures CmdOk(cfg, hist, d.(cl := d.cl.(pc := AwaitFrames, got := []), upq := if |d.cl.regions| == 0 then [Ping(0)] else []))
  {
  }

  lemma CmdRecv(cfg: Config, hist: seq<Event>, d: Desk, upq: seq<Msg>, downq: seq<Msg>, regions: seq<SimState>, got: seq<Frame>)
    requires cfg.Valid() && CmdOk(cfg, hist, d) && d.cl.pc.AwaitFrames?
    requires if |d.cl.regions| == 0 then upq == [] else upq == d.upq && downq == d.downq
    ensures CmdOk(cfg, hist, d.(cl := d.cl.(got := got), upq := upq, downq := downq))
    ensures downq == [] ==> CmdOk(cfg, hist, d.(cl := d.cl.(pc := Loop, got := [], regions := regions), upq := upq, downq := downq))
  {
  }

  /** A region is complete: it is the state the sim passed to the call that took the query. */
  lemma OneMoreRegion(cfg: Config, taken: seq<nat>, c: nat, cl: ClientRank)
    requires cfg.Valid() && c < cfg.N && ResultOk(cfg, taken, c, cl) && InQuery(cl.pc)
    requires Target(cfg, cl, c) < cfg.lo[c+1] && cfg.lo[c+1] <= cfg.M
    requires cl.op < |taken| && taken[cl.op] < |cfg.steps|
    ensures ResultOk(cfg, taken, c, cl.(pc := Loop, got := [],
              regions := cl.regions + [Assemble(FramesAt(cfg, taken[cl.op], Target(cfg, cl, c)))]))
  {
    hide Delivered, Assemble, Frames;
    AssembleFrames(cfg.steps[taken[cl.op]][Target(cfg, cl, c)]);
  }

  /** What one receive does, seen from the pair of ranks involved. */
  lemma RecvEffect(cfg: Config, g: State, c: nat)
    requires cfg.Valid() && Inv(cfg, g) && Shape(cfg, g) && CanRecv(cfg, g, c)
    ensures var cl := g.clients[c];
            var cl' := RecvFrame(cfg, g, c).clients[c];
            && (cl' == cl.(got := cl'.got) || (cl' == cl.(pc := Loop, got := [], regions := cl'.regions) && |cl'.regions| == |cl.regions| + 1
                                               && Get(g.down, Target(cfg, cl, c), c)[1..] == []))
            && ResultOk(cfg, g.taken, c, cl')
    ensures OwnLink(cfg, RecvFrame(cfg, g, c), Target(cfg, g.clients[c], c))
  {
    hide QuitOk, FollowOk, SimOk, HistOk, ClientOk, VerdictAt, CmdOk, Link, Behind, RegionsOf, Complete, Expects, Assemble, FramesAt, ResultOk;
    var cl := g.clients[c];
    var s := Target(cfg, cl, c);
    WaitsForOwn(cfg, g, c);
    var upq, downq := Get(g.up, s, c), Get(g.down, s, c);
    assert OwnLink(cfg, g, s);
    LinkRecv(cfg, g.taken, s, g.sims[s], cl, upq, downq);
    var g' := RecvFrame(cfg, g, c);
    assert ResultOk(cfg, g.taken, c, cl);
    if Complete(cl.got + [downq[0].frame]) { OneMoreRegion(cfg, g.taken, c, cl); } else { StillOwed(cfg, g.taken, c, cl, g'.clients[c]); }
    assert Get(g'.up, s, c) == upq && Get(g'.down, s, c) == downq[1..];
  }

  lemma KeepRecv(cfg: Config, g: State, c: nat)
    requires cfg.Valid() && Inv(cfg, g) && Shape(cfg, g) && CanRecv(cfg, g, c)
    ensures Inv(cfg, RecvFrame(cfg, g, c))
  {
    hide QuitOk, FollowOk, SimOk, HistOk, ClientOk, VerdictAt, CmdOk, OwnLink, Behind, Complete, Expects, Assemble, ResultOk;
    var cl := g.clients[c];
    var s := Target(cfg, cl, c);
    WaitsForOwn(cfg, g, c);
    RecvEffect(cfg, g, c);
    var g' := RecvFrame(cfg, g, c);
    LocalTalk(cfg, c, cl, g'.clients[c]);
    hide Config.Valid, Talking;
    if c == 0 { RecvDesk(cfg, g); }
    QuitMoves(cfg, g.hist, cl, g'.clients[c]);
    KeepTalk(cfg, g, g', c, s);
  }

  lemma RecvDesk(cfg: Config, g: State)
    requires cfg.Valid() && Inv(cfg, g) && Shape(cfg, g) && CanRecv(cfg, g, 0)
    ensures CmdOk(cfg, g.hist, DeskOf(RecvFrame(cfg, g, 0)))
  {
    hide QuitOk, FollowOk, SimOk, HistOk, ClientOk, VerdictAt, CmdOk, OwnLink, Complete, Expects, Assemble, ResultOk;
    var d := DeskOf(g);
    RecvEffect(cfg, g, 0);
    WaitsForOwn(cfg, g, 0);
    var g' := RecvFrame(cfg, g, 0);
    if |g.clients[0].regions| != 0 { QuietElsewhere(cfg, g); } else { TalkingUp(cfg, g); }
    CmdRecv(cfg, g.hist, d, Get(g'.up, 0, 0), Get(g'.down, 0, 0), g'.clients[0].regions, g'.clients[0].got);
    assert DeskOf(g') == d.(cl := g'.clients[0], upq := Get(g'.up, 0, 0), downq := Get(g'.down, 0, 0));
  }

  /** Once an answer is arriving, the ping has been read. */
  lemma TalkingUp(cfg: Config, g: State)
    requires cfg.Valid() && Inv(cfg, g) && Shape(cfg, g) && CanRecv(cfg, g, 0) && |g.clients[0].regions| == 0
    ensures Get(g.up, 0, 0) == []
  {
    hide QuitOk, FollowOk, SimOk, HistOk, ClientOk, VerdictAt, CmdOk, ResultOk, FramesAt;
    OwnerZero(cfg);
    assert OwnLink(cfg, g, 0);
  }

  lemma WaitsForOwn(cfg: Config, g: State, c: nat)
    requires cfg.Valid() && Inv(cfg, g) && c < cfg.N && g.clients[c].pc.AwaitFrames?
    ensures ClientOk(cfg, c, g.clients[c])
    ensures var s := Target(cfg, g.clients[c], c);
            s < cfg.lo[c+1] && s < cfg.M && cfg.lo[c+1] <= cfg.M && Owner(cfg, s) == c && Talking(g.clients[c], s - cfg.lo[c])
  {
    hide QuitOk, FollowOk, SimOk, HistOk, VerdictAt, CmdOk, ResultOk, Link, Bcs, Bars;
    assert ClientOk(cfg, c, g.clients[c]);
    assert cfg.lo[c+1] <= cfg.lo[cfg.N];
    OwnerUnique(cfg, Target(cfg, g.clients[c], c), c);
  }

  lemma QuietElsewhere(cfg: Config, g: State)
    requires cfg.Valid() && Inv(cfg, g) && g.clients[0].pc.AwaitFrames? && |g.clients[0].regions| != 0
    ensures Get(g.up, 0, 0) == [] && Get(g.down, 0, 0) == []
  {
    hide QuitOk, FollowOk, SimOk, HistOk, ClientOk, VerdictAt, ResultOk, Link;
  }
}
