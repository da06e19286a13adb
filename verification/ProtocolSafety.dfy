/** Every step keeps the invariant. */
module ProtocolSafety {
  import opened SimStates
  import opened Protocol
  import opened ProtocolInvariant

  // ----- Histories --------------------------------------------------------------------------

  /** A rank that replays a history can replay a longer one. */
  lemma FollowSnoc(cfg: Config, hist: seq<Event>, e: Event, sim: SimRank, q: seq<BMsg>)
    requires FollowOk(cfg, hist, sim, q)
    ensures FollowOk(cfg, hist + [e], sim, q + Entry(cfg, e))
  {
    hide Entry, Pending;
    var k := Next(sim);
    assert (hist + [e])[k..] == hist[k..] + [e];
    StreamSnoc(cfg, hist[k..], e);
    assert FollowAt(hist + [e], sim);
  }

  /** Appending an event keeps what is known about the earlier ones. */
  lemma EventsSnoc(cfg: Config, hist: seq<Event>, taken: seq<nat>, e: Event, more: seq<nat>)
    requires forall i :: 0 <= i < |hist| ==> EventOk(cfg, hist, taken, i)
    requires forall p :: 0 <= p < |taken| ==> TakenOk(hist, taken, p)
    ensures forall i :: 0 <= i < |hist| ==> EventOk(cfg, hist + [e], taken + more, i)
    ensures forall p :: 0 <= p < |taken| ==> TakenOk(hist + [e], taken + more, p)
  {
    var h' := hist + [e];
    forall i | 0 <= i < |hist| ensures EventOk(cfg, h', taken + more, i) {
      assert EventOk(cfg, hist, taken, i) && h'[i] == hist[i] && OpsAt(h', i) == OpsAt(hist, i);
    }
    forall p | 0 <= p < |taken| ensures TakenOk(h', taken + more, p) {
      assert TakenOk(hist, taken, p);
    }
  }

  lemma HistIdle(cfg: Config, hist: seq<Event>, taken: seq<nat>, vsent: seq<int>, root: SimRank)
    requires HistOk(cfg, hist, taken, vsent, root) && root.pc.Ready? && root.calls < |cfg.steps|
    ensures HistOk(cfg, hist + [Idle(root.ops)], taken, vsent, root.(calls := root.calls + 1))
  {
    EventsSnoc(cfg, hist, taken, Idle(root.ops), []);
    assert taken + [] == taken;
  }

  /** Rank 0 begins a command in process, and with a verdict 0 if it came on the intercomm. */
  lemma HistRun(cfg: Config, hist: seq<Event>, taken: seq<nat>, vsent: seq<int>, root: SimRank, root': SimRank, v: seq<int>)
    requires HistOk(cfg, hist, taken, vsent, root) && root.pc.Ready? && root.calls < |cfg.steps|
    requires root.ops < |cfg.script| && root'.ops == root.ops + 1
    requires if root'.pc.Connecting? then root'.calls == root.calls && v == []
             else v == [0] && ((root'.pc.ProbeAll? && root'.calls == root.calls) || (root'.pc.Ready? && root'.calls == root.calls + 1))
    ensures HistOk(cfg, hist + [Run(root.ops)], taken + [root.calls], vsent + v, root')
  {
    EventsSnoc(cfg, hist, taken, Run(root.ops), [root.calls]);
  }

  /** The destructor's event. */
  lemma HistFin(cfg: Config, hist: seq<Event>, taken: seq<nat>, vsent: seq<int>, root: SimRank, root': SimRank,
                e: Event, more: seq<nat>, v: seq<int>)
    requires HistOk(cfg, hist, taken, vsent, root) && root.pc.Finalizing? && root.calls == |cfg.steps|
    requires root'.calls == root.calls && e.Fin? && e.ops == root.ops && root'.ops == AfterOps(e)
    requires more == if root'.ops == root.ops then [] else [root.calls]
    requires if e.took then root.ops < |cfg.script| && e.code == Code(cfg.script[root.ops]) else e.code <= 0
    requires if root'.pc.Connecting? then e.took && e.code == Code(CONNECT) && v == []
             else root'.pc.Done? && v == if e.took then [1] else []
    ensures HistOk(cfg, hist + [e], taken + more, vsent + v, root')
  {
    EventsSnoc(cfg, hist, taken, e, more);
    forall p | 0 <= p < |vsent + v| ensures (vsent + v)[p] == Ver(cfg, hist + [e], p) {
      if p < |vsent| { assert vsent[p] == Ver(cfg, hist, p); }
    }
  }

  lemma HistSame(cfg: Config, hist: seq<Event>, taken: seq<nat>, vsent: seq<int>, root: SimRank, root': SimRank)
    requires HistOk(cfg, hist, taken, vsent, root) && root'.ops == root.ops
    requires || (root'.calls == root.calls && Busy(root'.pc) == Busy(root.pc) && root'.pc.Done? == root.pc.Done? && !root.pc.Connecting? && !root'.pc.Connecting?)
             || (root'.calls == root.calls + 1 && root.pc.Sending? && root'.pc.Ready?)
    ensures HistOk(cfg, hist, taken, vsent, root')
  {
  }

  lemma HistConnected(cfg: Config, hist: seq<Event>, taken: seq<nat>, vsent: seq<int>, root: SimRank, root': SimRank)
    requires HistOk(cfg, hist, taken, vsent, root) && root.pc.Connecting? && root'.ops == root.ops && root.calls <= |cfg.steps|
    requires if root.calls == |cfg.steps| then root'.pc.Done? && root'.calls == root.calls
             else root'.pc.Ready? && root'.calls == root.calls + 1
    ensures HistOk(cfg, hist, taken, vsent + [if root.calls == |cfg.steps| then 1 else 0], root')
  {
    var k := |hist| - 1;
    assert EventOk(cfg, hist, taken, k);
  }

  // ----- The conversation between a sim and its client ----------------------------------------

  lemma OwnerUnique(cfg: Config, s: nat, c: nat)
    requires cfg.Valid() && s < cfg.M && c < cfg.N && cfg.lo[c] <= s < cfg.lo[c+1]
    ensures Owner(cfg, s) == c
  {

  }

  ghost predicate Talking(cl: ClientRank, k: nat) { cl.pc.AwaitFrames? && |cl.regions| == k }

  /** Begun commands are remembered for ever. */
  lemma LinkTaken(cfg: Config, taken: seq<nat>, more: seq<nat>, s: nat, sim: SimRank, cl: ClientRank, upq: seq<Msg>, downq: seq<Msg>)
    requires cfg.Valid() && s < cfg.M && Link(cfg, taken, s, sim, cl, upq, downq)
    ensures Link(cfg, taken + more, s, sim, cl, upq, downq)
  {
  }

  /** A sim step that neither answers a ping nor sends a frame. */
  lemma LinkSim(cfg: Config, taken: seq<nat>, s: nat, sim: SimRank, sim': SimRank, cl: ClientRank,
                upq: seq<Msg>, downq: seq<Msg>, upq': seq<Msg>, downq': seq<Msg>)
    requires cfg.Valid() && s < cfg.M && Link(cfg, taken, s, sim, cl, upq, downq)
    requires !sim.pc.Sending? && !sim'.pc.Sending? && !sim.pc.ProbeAll?
    requires sim'.ops == sim.ops
             || (sim'.ops == sim.ops + 1 && sim.ops < |cfg.script| && (cfg.script[sim.ops] == QUERY ==> sim'.pc.ProbeAll?))
    requires Comp(sim') >= Comp(sim)
    requires ClientOk(cfg, Owner(cfg, s), cl)
    requires (upq' == upq && downq' == downq) || (s == 0 && !cl.pc.AwaitFrames?)
    ensures Link(cfg, taken, s, sim', cl, upq', downq')
  {
    forall p | 0 <= p < |cfg.script| && cfg.script[p] == QUERY && Fresh(sim, p) ensures Fresh(sim', p) {}
  }

  /** handleQuery reads the ping of the client that owns it. */
  lemma LinkTakePing(cfg: Config, taken: seq<nat>, s: nat, sim: SimRank, cl: ClientRank, upq: seq<Msg>, downq: seq<Msg>)
    requires cfg.Valid() && s < cfg.M && Link(cfg, taken, s, sim, cl, upq, downq)
    requires sim.pc.ProbeAll? && sim.ops >= 1 && sim.ops <= |cfg.script| && cfg.script[sim.ops-1] == QUERY
    requires sim.ops <= |taken| && taken[sim.ops-1] == sim.calls
    requires Talking(cl, s - cfg.lo[Owner(cfg, s)]) && upq != []
    requires ClientOk(cfg, Owner(cfg, s), cl)
    ensures upq == [Ping(Owner(cfg, s))] && cl.op + 1 == sim.ops
    ensures Link(cfg, taken, s, sim.(pc := Sending(Owner(cfg, s), 0)), cl, [], downq)
  {
    hide FramesAt;
    var c := Owner(cfg, s);
    var k := s - cfg.lo[c];
    var fs := FramesAt(cfg, taken[cl.op], s);
    assert upq == [Ping(c)] && downq == [] && Fresh(sim, cl.op);
    var q: nat := sim.ops - 1;
    assert Served(cl, k, q) ==> Comp(sim) > q;
    assert fs[0..0] == [] && Wrap(fs[0..0]) == [];
    var sim' := sim.(pc := Sending(c, 0));
    assert Talk(cfg, sim', c, cl, fs, taken[cl.op], [], downq);
    forall p | 0 <= p < |cfg.script| && cfg.script[p] == QUERY && NotPinged(cl, k, p) ensures Fresh(sim', p) {
      assert Fresh(sim, p) && p != sim.ops - 1;
    }
  }

  lemma WrapSnoc(fs: seq<Frame>, j: nat, i: nat)
    requires j <= i < |fs|
    ensures Wrap(fs[j..i]) + [FrameMsg(fs[i])] == Wrap(fs[j..i+1])
  {
  }

  /** A frame joins the queue. */
  lemma LinkSend(cfg: Config, taken: seq<nat>, s: nat, sim: SimRank, cl: ClientRank, upq: seq<Msg>, downq: seq<Msg>)
    requires cfg.Valid() && s < cfg.M && Link(cfg, taken, s, sim, cl, upq, downq)
    requires sim.pc.Sending? && sim.ops >= 1 && sim.ops <= |cfg.script| && cfg.script[sim.ops-1] == QUERY
    requires sim.calls < |cfg.steps| && sim.pc.sent < |FramesAt(cfg, sim.calls, s)|
    requires ClientOk(cfg, Owner(cfg, s), cl)
    ensures var fs := FramesAt(cfg, sim.calls, s);
            var i := sim.pc.sent;
            var sim' := if i + 1 == |fs| then Finish(sim) else sim.(pc := Sending(sim.pc.client, i + 1));
            Link(cfg, taken, s, sim', cl, upq, downq + [FrameMsg(fs[i])])
  {
    hide FramesAt;
    var c := Owner(cfg, s);
    var k := s - cfg.lo[c];
    var p := sim.ops - 1;
    assert !Fresh(sim, p) && Comp(sim) == p;
    assert !NotPinged(cl, k, p) && !Served(cl, k, p);
    assert cl.op == p && Talking(cl, k);
    SendTalks(cfg, taken, s, sim, cl, upq, downq);
    var fs := FramesAt(cfg, sim.calls, s);
    var i := sim.pc.sent;
    var j := |cl.got|;
    WrapSnoc(fs, j, i);
    assert fs[j..|fs|] == fs[j..];
  }

  /** A sim that is sending is talking to its client. */
  lemma SendTalks(cfg: Config, taken: seq<nat>, s: nat, sim: SimRank, cl: ClientRank, upq: seq<Msg>, downq: seq<Msg>)
    requires cfg.Valid() && s < cfg.M && Link(cfg, taken, s, sim, cl, upq, downq)
    requires sim.pc.Sending? && sim.ops == cl.op + 1
    requires Talking(cl, s - cfg.lo[Owner(cfg, s)])
    ensures upq == [] && sim.calls == taken[cl.op] && sim.calls < |cfg.steps|
    ensures var fs := FramesAt(cfg, sim.calls, s);
            |cl.got| <= sim.pc.sent < |fs| && cl.got == fs[..|cl.got|] && downq == Wrap(fs[|cl.got|..sim.pc.sent])
  {
    hide FramesAt;
  }

  // A client step that neither pings this sim nor receives from it.

  ghost predicate Behind(cfg: Config, k: nat, cl: ClientRank, cl': ClientRank) {
    forall p :: 0 <= p < |cfg.script| && cfg.script[p] == QUERY ==>
      (NotPinged(cl', k, p) ==> NotPinged(cl, k, p)) && (Served(cl', k, p) ==> Served(cl, k, p))
  }

  lemma LinkClient(cfg: Config, taken: seq<nat>, s: nat, sim: SimRank, cl: ClientRank, cl': ClientRank, upq: seq<Msg>, downq: seq<Msg>,
                   upq': seq<Msg>, downq': seq<Msg>)
    requires cfg.Valid() && s < cfg.M && Link(cfg, taken, s, sim, cl, upq, downq)
    requires !Talking(cl, s - cfg.lo[Owner(cfg, s)]) && !Talking(cl', s - cfg.lo[Owner(cfg, s)])
    requires Behind(cfg, s - cfg.lo[Owner(cfg, s)], cl, cl')
    requires (upq' == upq && downq' == downq) || s == 0
    ensures Link(cfg, taken, s, sim, cl', upq', downq')
  {
  }

  lemma LinkPing(cfg: Config, taken: seq<nat>, s: nat, sim: SimRank, cl: ClientRank)
    requires cfg.Valid() && s < cfg.M && Link(cfg, taken, s, sim, cl, [], [])
    requires ClientOk(cfg, Owner(cfg, s), cl) && cl.pc.Loop? && |cl.regions| == s - cfg.lo[Owner(cfg, s)]
    requires cl.op < |taken| && taken[cl.op] < |cfg.steps|
    ensures Link(cfg, taken, s, sim, cl.(pc := AwaitFrames, got := []), [Ping(Owner(cfg, s))], [])
  {
    hide FramesAt;
    var k := s - cfg.lo[Owner(cfg, s)];
    assert NotPinged(cl, k, cl.op);
    assert Behind(cfg, k, cl, cl.(pc := AwaitFrames, got := []));
  }

  /** What the client finds at the head of the queue while it waits for frames. */
  lemma TalkHead(cfg: Config, taken: seq<nat>, s: nat, sim: SimRank, cl: ClientRank, upq: seq<Msg>, downq: seq<Msg>)
    requires cfg.Valid() && s < cfg.M && Link(cfg, taken, s, sim, cl, upq, downq)
    requires Talking(cl, s - cfg.lo[Owner(cfg, s)]) && downq != []
    ensures cl.op < |taken| && taken[cl.op] < |cfg.steps| && upq == []
    ensures var fs := FramesAt(cfg, taken[cl.op], s);
            var j := |cl.got|;
            && j < |fs| && cl.got == fs[..j] && downq[0] == FrameMsg(fs[j])
            && (j + 1 == |fs| ==> Comp(sim) > cl.op && downq[1..] == [])
            && (j + 1 < |fs| ==> Talk(cfg, sim, Owner(cfg, s), cl.(got := fs[..j+1]), fs, taken[cl.op], upq, downq[1..]))
  {
    hide FramesAt;
    var fs := FramesAt(cfg, taken[cl.op], s);
    var j := |cl.got|;
    if sim.pc.Sending? && sim.ops == cl.op + 1 {
      var i := sim.pc.sent;
      assert downq == Wrap(fs[j..i]) && j < i;
      assert fs[j..i][1..] == fs[j+1..i];
      assert downq[1..] == Wrap(fs[j+1..i]);
    } else {
      assert downq == Wrap(fs[j..]);
      assert fs[j..][1..] == fs[j+1..];
      assert downq[1..] == Wrap(fs[j+1..]);
    }
  }

  lemma LinkRecv(cfg: Config, taken: seq<nat>, s: nat, sim: SimRank, cl: ClientRank, upq: seq<Msg>, downq: seq<Msg>)
    requires cfg.Valid() && s < cfg.M && Link(cfg, taken, s, sim, cl, upq, downq)
    requires ClientOk(cfg, Owner(cfg, s), cl) && Talking(cl, s - cfg.lo[Owner(cfg, s)]) && downq != []
    ensures cl.op < |taken| && taken[cl.op] < |cfg.steps| && upq == []
    ensures downq[0].FrameMsg? && Expects(cl.got, downq[0].frame)
    ensures Complete(cl.got + [downq[0].frame]) ==>
              && cl.got + [downq[0].frame] == FramesAt(cfg, taken[cl.op], s) && downq[1..] == []
              && Link(cfg, taken, s, sim,
                      cl.(pc := Loop, got := [], regions := cl.regions + [Assemble(cl.got + [downq[0].frame])]), upq, downq[1..])
    ensures !Complete(cl.got + [downq[0].frame]) ==>
              Link(cfg, taken, s, sim, cl.(got := cl.got + [downq[0].frame]), upq, downq[1..])
  {
    hide Expects, Complete, Frames, Talk, Assemble;
    TalkHead(cfg, taken, s, sim, cl, upq, downq);
    var k := s - cfg.lo[Owner(cfg, s)];
    var fs := FramesAt(cfg, taken[cl.op], s);
    var j := |cl.got|;
    assert cl.got + [fs[j]] == fs[..j+1];
    assert fs[..|fs|] == fs;
    FramesGuideReceiver(cfg.steps[taken[cl.op]][s], j);
    FramesGuideReceiver(cfg.steps[taken[cl.op]][s], j + 1);
    assert Behind(cfg, k, cl, cl.(got := fs[..j+1]));
    if j + 1 == |fs| {
      var cl' := cl.(pc := Loop, got := [], regions := cl.regions + [Assemble(fs)]);
      forall p | 0 <= p < |cfg.script| && cfg.script[p] == QUERY && Served(cl', k, p) ensures Comp(sim) > p {
        assert p != cl.op ==> Served(cl, k, p);
      }
      forall p | 0 <= p < |cfg.script| && cfg.script[p] == QUERY && NotPinged(cl', k, p) ensures Fresh(sim, p) {
        assert NotPinged(cl, k, p);
      }
    }
  }
}
