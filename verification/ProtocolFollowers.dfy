/** The other simulation ranks replay rank 0's history from the broadcasts. */
module ProtocolFollowers {
  import opened SimStates
  import opened Protocol
  import opened ProtocolInvariant

  /** Everything that replaying relies on. */
  ghost predicate ReplayOk(cfg: Config, hist: seq<Event>, taken: seq<nat>, s: nat, sim: SimRank, q: seq<BMsg>)
    requires cfg.Valid() && s < cfg.M
  {
    && SimOk(cfg, s, sim) && FollowOk(cfg, hist, sim, q)
    && (forall i :: 0 <= i < |hist| ==> EventOk(cfg, hist, taken, i))
  }

  lemma StreamHead(cfg: Config, hist: seq<Event>, k: nat)
    requires k <= |hist|
    ensures k < |hist| ==> Stream(cfg, hist[k..]) == Entry(cfg, hist[k]) + Stream(cfg, hist[k+1..])
    ensures Stream(cfg, hist[|hist|..]) == []
  {
    if k < |hist| { assert hist[k..][1..] == hist[k+1..]; }
  }

  lemma Replay(cfg: Config, hist: seq<Event>, taken: seq<nat>, s: nat, sim: SimRank, q: seq<BMsg>)
    requires cfg.Valid() && s < cfg.M && ReplayOk(cfg, hist, taken, s, sim, q)
    requires sim.pc.Ready? && q != []
    ensures sim.calls < |hist| && sim.ops == hist[sim.calls].ops
    ensures q == Entry(cfg, hist[sim.calls]) + Stream(cfg, hist[sim.calls+1..])
    ensures EventOk(cfg, hist, taken, sim.calls)
  {
    hide Stream, Frames;
    StreamHead(cfg, hist, sim.calls);
    assert sim.calls < |hist| ==> EventOk(cfg, hist, taken, sim.calls);
  }

  lemma ReplayHave(cfg: Config, hist: seq<Event>, taken: seq<nat>, s: nat, sim: SimRank, q: seq<BMsg>)
    requires cfg.Valid() && 0 < s < cfg.M && ReplayOk(cfg, hist, taken, s, sim, q)
    requires sim.pc.Ready? && sim.calls < |cfg.steps| && q != []
    ensures q[0].HaveQuery?
    ensures var sim' := if q[0].have then sim.(pc := AwaitCommand) else sim.(calls := sim.calls + 1);
            ReplayOk(cfg, hist, taken, s, sim', q[1..])
  {
    hide Stream, Frames;
    Replay(cfg, hist, taken, s, sim, q);
  }

  lemma ReplayCommand(cfg: Config, hist: seq<Event>, taken: seq<nat>, s: nat, sim: SimRank, q: seq<BMsg>)
    requires cfg.Valid() && 0 < s < cfg.M && ReplayOk(cfg, hist, taken, s, sim, q)
    requires sim.pc.AwaitCommand? && q != []
    ensures sim.ops < |cfg.script| && q[0] == CommandCode(Code(cfg.script[sim.ops]))
    ensures cfg.script[sim.ops] == CONNECT ==>
              && sim.intercomm.None?
              && ReplayOk(cfg, hist, taken, s, sim.(pc := AwaitPort, clientCommand := Code(CONNECT)), q[1..])
    ensures cfg.script[sim.ops] != CONNECT ==>
              ReplayOk(cfg, hist, taken, s, Dispatch(sim, Code(cfg.script[sim.ops])), q[1..])
  {
    hide Stream, Frames;
    assert EventOk(cfg, hist, taken, sim.calls) && InTurn(cfg.script, sim.ops);
    assert OpsAt(hist, sim.calls + 1) == sim.ops + 1;
  }

  lemma ReplayPort(cfg: Config, hist: seq<Event>, taken: seq<nat>, s: nat, sim: SimRank, q: seq<BMsg>)
    requires cfg.Valid() && 0 < s < cfg.M && ReplayOk(cfg, hist, taken, s, sim, q)
    requires sim.pc.AwaitPort? && q != []
    ensures q[0] == PortName(sim.ops) && sim.intercomm.None?
    ensures ReplayOk(cfg, hist, taken, s, Dial(sim.(clientPort := sim.ops)), q[1..])
  {
    hide Stream, Frames;
    assert EventOk(cfg, hist, taken, sim.calls);
  }

  lemma ReplayConnected(cfg: Config, hist: seq<Event>, taken: seq<nat>, s: nat, sim: SimRank, q: seq<BMsg>)
    requires cfg.Valid() && 0 < s < cfg.M && ReplayOk(cfg, hist, taken, s, sim, q) && sim.pc.Connecting?
    ensures var r := sim.(intercomm := Some(sim.clientPort));
            ReplayOk(cfg, hist, taken, s, if r.calls >= |cfg.steps| then r.(pc := Done) else Finish(r), q)
  {
    hide Stream, Frames;
    assert EventOk(cfg, hist, taken, sim.calls);
    assert sim.calls < |cfg.steps| ==> OpsAt(hist, sim.calls + 1) == sim.ops;
  }

  /** In a query, the command being executed was taken in the current process call. */
  lemma QueryTaken(cfg: Config, hist: seq<Event>, taken: seq<nat>, s: nat, sim: SimRank, q: seq<BMsg>)
    requires cfg.Valid() && 0 < s < cfg.M && ReplayOk(cfg, hist, taken, s, sim, q)
    requires sim.pc.ProbeAll? || sim.pc.Sending?
    ensures 1 <= sim.ops <= |taken| && taken[sim.ops-1] == sim.calls
  {
    hide Stream, Frames;
    assert EventOk(cfg, hist, taken, sim.calls);
  }

  lemma ReplayTakePing(cfg: Config, hist: seq<Event>, taken: seq<nat>, s: nat, sim: SimRank, q: seq<BMsg>)
    requires cfg.Valid() && 0 < s < cfg.M && ReplayOk(cfg, hist, taken, s, sim, q) && sim.pc.ProbeAll?
    ensures ReplayOk(cfg, hist, taken, s, sim.(pc := Sending(Owner(cfg, s), 0)), q)
  {
    hide Stream, Frames;
  }

  lemma ReplaySend(cfg: Config, hist: seq<Event>, taken: seq<nat>, s: nat, sim: SimRank, q: seq<BMsg>)
    requires cfg.Valid() && 0 < s < cfg.M && ReplayOk(cfg, hist, taken, s, sim, q) && sim.pc.Sending?
    requires sim.pc.sent < |FramesAt(cfg, sim.calls, s)|
    ensures var fs := FramesAt(cfg, sim.calls, s);
            var i := sim.pc.sent;
            ReplayOk(cfg, hist, taken, s, if i + 1 == |fs| then Finish(sim) else sim.(pc := Sending(sim.pc.client, i + 1)), q)
  {
    hide Stream, Frames;
    assert EventOk(cfg, hist, taken, sim.calls);
    assert OpsAt(hist, sim.calls + 1) == sim.ops;
  }

  lemma ReplayFin(cfg: Config, hist: seq<Event>, taken: seq<nat>, s: nat, sim: SimRank, q: seq<BMsg>)
    requires cfg.Valid() && 0 < s < cfg.M && ReplayOk(cfg, hist, taken, s, sim, q)
    requires sim.pc.Ready? && sim.calls >= |cfg.steps| && q != []
    ensures sim.calls < |hist| && hist[sim.calls].Fin? && q[0] == CommandCode(hist[sim.calls].code)
    ensures var code := hist[sim.calls].code;
            && (code == Code(DISCONNECT) || code == Code(CONNECT) ==> sim.ops < |cfg.script| && Code(cfg.script[sim.ops]) == code)
            && if code == Code(CONNECT) then
                 && sim.intercomm.None?
                 && ReplayOk(cfg, hist, taken, s, sim.(pc := AwaitPort, clientCommand := code), q[1..])
               else
                 ReplayOk(cfg, hist, taken, s, sim.(pc := Done, clientCommand := code,
                   ops := if code == Code(DISCONNECT) then sim.ops + 1 else sim.ops), q[1..])
  {
    hide Stream, Frames;
    Replay(cfg, hist, taken, s, sim, q);
    assert sim.ops < |cfg.script| ==> InTurn(cfg.script, sim.ops);
  }
}
