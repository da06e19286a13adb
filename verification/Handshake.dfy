/** The connection handshake of SocketInterComm (intercomm.cpp): M dialers call connect while N
    acceptors call accept, and a mesh of M by N sockets comes about.

    A step is one blocking operation of one rank together with the non-blocking calls that
    follow it; connections waiting at a listening socket are accepted in any order. */
module Handshake {
  import opened SimStates

  /** SOCKET_MAX_SIMULTANEOUS_CONNECTIONS. */
  const MAX_CONNECTIONS := 32

  type HostName = string

  /** M dialing ranks, and the names under which the N accepting ranks listen. Each dialer was
      given the name of acceptor 0. */
  datatype Config = Config(M: nat, names: seq<HostName>)
  {
    predicate Valid() {
      M >= 1 && |names| >= 1 && forall i, j :: 0 <= i < j < |names| ==> names[i] != names[j]
    }

    function N(): nat { |names| }

    /** Iterations of each of connect's two rate-limited loops. */
    function Batches(): nat { (M + MAX_CONNECTIONS - 1) / MAX_CONNECTIONS }
  }

  predicate InBatch(s: nat, b: nat) {
    MAX_CONNECTIONS * b <= s < MAX_CONNECTIONS * b + MAX_CONNECTIONS
  }

  /** One end of each connection ever made: who dialed, and which name. The ids are handed out in
      order of connecting. The dialer's rank is the first thing sent over the connection, and
      dialer 0 sends the number of dialers after it. */
  datatype Conn = Conn(dialer: nat, name: HostName)

  /** `turn` counts barriers passed: below Batches() the dialer is in the loop over rank 0's
      connections, from there on in the loop over the other hosts. */
  datatype Dialer = Dialer(turn: nat, waiting: bool, sockets: seq<nat>, hosts: Option<seq<HostName>>)

  /** `ready`: the rank has sent its name to acceptor 0, or, on acceptor 0, has collected them all. */
  datatype Acceptor = Acceptor(ready: bool, hosts: seq<HostName>, nconnected: nat, nexpected: int, remotes: map<nat, nat>)

  /** `accepted` are the connections taken off a listening socket, `replies` the host lists that
      acceptor 0 has sent over them, `bcast` its broadcast of nexpected. */
  datatype State = State(dialers: seq<Dialer>, acceptors: seq<Acceptor>, made: seq<Conn>, accepted: set<nat>,
                         replies: map<nat, seq<HostName>>, bcast: Option<int>)

  predicate Shape(cfg: Config, g: State) {
    |g.dialers| == cfg.M && |g.acceptors| == cfg.N() && cfg.N() >= 1
  }

  function Init(cfg: Config): State {
    State(seq(cfg.M, _ => Dialer(0, false, [], None)),
          seq(cfg.N(), c => Acceptor(c == 0 && cfg.N() == 1, [], 0, -1, map[])),
          [], {}, map[], None)
  }

  function SetDialer(g: State, s: nat, d: Dialer): State requires s < |g.dialers| {
    g.(dialers := g.dialers[s := d])
  }

  function SetAcceptor(g: State, c: nat, a: Acceptor): State requires c < |g.acceptors| {
    g.(acceptors := g.acceptors[c := a])
  }

  // ----- connect ----------------------------------------------------------------------------------

  predicate Running(cfg: Config, g: State, s: nat) requires Shape(cfg, g) {
    s < cfg.M && g.dialers[s].turn < 2 * cfg.Batches() && !g.dialers[s].waiting
  }

  predicate CanDialRoot(cfg: Config, g: State, s: nat) requires Shape(cfg, g) {
    Running(cfg, g, s) && InBatch(s, g.dialers[s].turn) && g.dialers[s].sockets == []
  }

  function Dial(g: State, s: nat, name: HostName): State requires s < |g.dialers| {
    var d := g.dialers[s];
    SetDialer(g, s, d.(sockets := d.sockets + [|g.made|])).(made := g.made + [Conn(s, name)])
  }

  /** The host list arrives from acceptor 0. */
  predicate CanReadHosts(cfg: Config, g: State, s: nat) requires Shape(cfg, g) {
    && Running(cfg, g, s) && g.dialers[s].turn < cfg.Batches()
    && g.dialers[s].sockets != [] && g.dialers[s].hosts.None? && g.dialers[s].sockets[0] in g.replies
  }

  function ReadHosts(cfg: Config, g: State, s: nat): State requires Shape(cfg, g) && CanReadHosts(cfg, g, s) {
    var d := g.dialers[s];
    SetDialer(g, s, d.(hosts := Some(g.replies[d.sockets[0]])))
  }

  predicate CanDialNext(cfg: Config, g: State, s: nat) requires Shape(cfg, g) {
    && Running(cfg, g, s) && g.dialers[s].turn >= cfg.Batches() && InBatch(s, g.dialers[s].turn - cfg.Batches())
    && g.dialers[s].hosts.Some? && 1 <= |g.dialers[s].sockets| <= |g.dialers[s].hosts.value|
  }

  function DialNext(cfg: Config, g: State, s: nat): State requires Shape(cfg, g) && CanDialNext(cfg, g, s) {
    Dial(g, s, g.dialers[s].hosts.value[|g.dialers[s].sockets| - 1])
  }

  /** Nothing is left to do in the current iteration ... */
  predicate IterationDone(cfg: Config, s: nat, d: Dialer) {
    if d.turn < cfg.Batches() then InBatch(s, d.turn) ==> d.hosts.Some?
    else InBatch(s, d.turn - cfg.Batches()) ==> d.hosts.Some? && |d.sockets| > |d.hosts.value|
  }

  /** ... so enter its barrier. */
  predicate CanEnter(cfg: Config, g: State, s: nat) requires Shape(cfg, g) {
    Running(cfg, g, s) && IterationDone(cfg, s, g.dialers[s])
  }

  function Enter(cfg: Config, g: State, s: nat): State requires Shape(cfg, g) && CanEnter(cfg, g, s) {
    SetDialer(g, s, g.dialers[s].(waiting := true))
  }

  /** Barriers entered. */
  function Arrived(d: Dialer): nat { d.turn + (if d.waiting then 1 else 0) }

  predicate CanLeave(cfg: Config, g: State, s: nat) requires Shape(cfg, g) {
    s < cfg.M && g.dialers[s].waiting && forall t :: 0 <= t < cfg.M ==> Arrived(g.dialers[t]) >= Arrived(g.dialers[s])
  }

  function Leave(cfg: Config, g: State, s: nat): State requires Shape(cfg, g) && CanLeave(cfg, g, s) {
    SetDialer(g, s, g.dialers[s].(turn := g.dialers[s].turn + 1, waiting := false))
  }

  // ----- accept -----------------------------------------------------------------------------------

  /** Rank c > 0 sends its name to acceptor 0 ... */
  predicate CanSendName(cfg: Config, g: State, c: nat) requires Shape(cfg, g) {
    0 < c < cfg.N() && !g.acceptors[c].ready
  }

  function SendName(cfg: Config, g: State, c: nat): State requires Shape(cfg, g) && CanSendName(cfg, g, c) {
    SetAcceptor(g, c, g.acceptors[c].(ready := true))
  }

  /** ... which receives the names in rank order. */
  predicate CanGather(cfg: Config, g: State) requires Shape(cfg, g) {
    var a := g.acceptors[0];
    !a.ready && |a.hosts| + 1 < cfg.N() && g.acceptors[|a.hosts| + 1].ready
  }

  function Gather(cfg: Config, g: State): State requires Shape(cfg, g) && CanGather(cfg, g) {
    var a := g.acceptors[0];
    var hosts := a.hosts + [cfg.names[|a.hosts| + 1]];
    SetAcceptor(g, 0, a.(hosts := hosts, ready := |hosts| == cfg.N() - 1))
  }

  /** Rank c > 0 learns how many connections to expect. */
  predicate CanReadExpected(cfg: Config, g: State, c: nat) requires Shape(cfg, g) {
    0 < c < cfg.N() && g.acceptors[c].ready && g.acceptors[c].nexpected == -1 && g.bcast.Some?
  }

  function ReadExpected(cfg: Config, g: State, c: nat): State requires Shape(cfg, g) && CanReadExpected(cfg, g, c) {
    SetAcceptor(g, c, g.acceptors[c].(nexpected := g.bcast.value))
  }

  predicate Accepting(c: nat, a: Acceptor) {
    a.ready && (c > 0 ==> a.nexpected != -1) && a.nconnected != a.nexpected
  }

  /** Connection `id` waits at acceptor c's listening socket. */
  predicate Waits(cfg: Config, g: State, c: nat, id: nat) requires Shape(cfg, g) && c < cfg.N() {
    id < |g.made| && g.made[id].name == cfg.names[c] && id !in g.accepted
  }

  predicate CanAccept(cfg: Config, g: State, c: nat, id: nat) requires Shape(cfg, g) {
    c < cfg.N() && Accepting(c, g.acceptors[c]) && Waits(cfg, g, c, id)
  }

  function Accept(cfg: Config, g: State, c: nat, id: nat): State requires Shape(cfg, g) && CanAccept(cfg, g, c, id) {
    var a := g.acceptors[c];
    var r := g.made[id].dialer;
    var a' := a.(nconnected := a.nconnected + 1, remotes := a.remotes[r := id]);
    var g' := SetAcceptor(g, c, if c == 0 && r == 0 then a'.(nexpected := cfg.M) else a').(accepted := g.accepted + {id});
    if c > 0 then g'
    else g'.(replies := g.replies[id := a.hosts], bcast := if r == 0 then Some(cfg.M) else g.bcast)
  }

  /** The end of accept, once the loop has stopped. */
  function Sockets(remotes: map<nat, nat>): (sockets: seq<nat>)
    requires forall r :: r in remotes ==> r < |remotes|
    requires forall r :: 0 <= r < |remotes| ==> r in remotes
  {
    seq(|remotes|, r requires 0 <= r < |remotes| => remotes[r])
  }

  // ----- The step relation ------------------------------------------------------------------------

  datatype Action =
    | ADialRoot(s: nat) | AReadHosts(s: nat) | ADialNext(s: nat) | AEnter(s: nat) | ALeave(s: nat)
    | ASendName(c: nat) | AGather | AReadExpected(c: nat) | AAccept(c: nat, id: nat)

  predicate Enabled(cfg: Config, g: State, a: Action) requires Shape(cfg, g) {
    match a
    case ADialRoot(s) => CanDialRoot(cfg, g, s)
    case AReadHosts(s) => CanReadHosts(cfg, g, s)
    case ADialNext(s) => CanDialNext(cfg, g, s)
    case AEnter(s) => CanEnter(cfg, g, s)
    case ALeave(s) => CanLeave(cfg, g, s)
    case ASendName(c) => CanSendName(cfg, g, c)
    case AGather => CanGather(cfg, g)
    case AReadExpected(c) => CanReadExpected(cfg, g, c)
    case AAccept(c, id) => CanAccept(cfg, g, c, id)
  }

  function Apply(cfg: Config, g: State, a: Action): State requires Shape(cfg, g) && Enabled(cfg, g, a) {
    match a
    case ADialRoot(s) => Dial(g, s, cfg.names[0])
    case AReadHosts(s) => ReadHosts(cfg, g, s)
    case ADialNext(s) => DialNext(cfg, g, s)
    case AEnter(s) => Enter(cfg, g, s)
    case ALeave(s) => Leave(cfg, g, s)
    case ASendName(c) => SendName(cfg, g, c)
    case AGather => Gather(cfg, g)
    case AReadExpected(c) => ReadExpected(cfg, g, c)
    case AAccept(c, id) => Accept(cfg, g, c, id)
  }

  ghost predicate IsRun(cfg: Config, gs: seq<State>, acts: seq<Action>) {
    && |gs| == |acts| + 1 && gs[0] == Init(cfg)
    && forall i :: 0 <= i < |acts| ==>
         Shape(cfg, gs[i]) && Enabled(cfg, gs[i], acts[i]) && gs[i+1] == Apply(cfg, gs[i], acts[i])
  }

  ghost predicate Reachable(cfg: Config, g: State) {
    exists gs, acts :: IsRun(cfg, gs, acts) && gs[|acts|] == g
  }

  /** connect has returned on dialer s, and accept has left its loop on acceptor c. */
  predicate Connected(cfg: Config, g: State, s: nat) requires Shape(cfg, g) && s < cfg.M {
    g.dialers[s].turn == 2 * cfg.Batches()
  }

  predicate Joined(cfg: Config, g: State, c: nat) requires Shape(cfg, g) && c < cfg.N() {
    var a := g.acceptors[c];
    a.ready && (c > 0 ==> a.nexpected != -1) && a.nconnected == a.nexpected
  }

  predicate AllDone(cfg: Config, g: State) requires Shape(cfg, g) {
    && (forall s :: 0 <= s < cfg.M ==> Connected(cfg, g, s))
    && (forall c :: 0 <= c < cfg.N() ==> Joined(cfg, g, c))
  }
}
