/** The M:N protocol between a simulation (is_sim.cpp, class ConnectionManager) and a client
    (is_client.cpp, class SimulationConnection), as a step relation.

    Every rank has a program counter. Each (sim, client) pair has one untagged FIFO in each
    direction, each sim rank has a queue of broadcasts from sim rank 0, client rank 0 has a
    log of its broadcasts that every other client reads in order, and client barriers
    compare arrival counts. A step is one blocking operation of one rank (or of the
    listener thread) together with the non-blocking sends that follow it; all
    interleavings of steps are considered. A rank that reads something it does not
    understand, or that would throw, goes to the program counter Failed. */
module Protocol {
  import opened SimStates

  /** The commands of is_command.h, and their integer codes on the wire. */
  datatype Command = CONNECT | QUERY | DISCONNECT

  function Code(cmd: Command): int {
    match cmd case CONNECT => 1 case QUERY => 2 case DISCONNECT => 3
  }

  /** Point-to-point messages. The tag is for the proof: no receiver selects on it. */
  datatype Msg =
    | CommandMsg(code: int)
    | Ping(rank: nat)
    | Verdict(quit: int)
    | FrameMsg(frame: Frame)

  /** Broadcasts among the simulation ranks. */
  datatype BMsg = HaveQuery(have: bool) | CommandCode(code: int) | PortName(port: nat)

  type Fifos = map<(nat, nat), seq<Msg>>

  function Get(m: Fifos, s: nat, c: nat): seq<Msg> {
    if (s, c) in m then m[(s, c)] else []
  }

  function Push(m: Fifos, s: nat, c: nat, msg: Msg): Fifos {
    m[(s, c) := Get(m, s, c) + [msg]]
  }

  function Pop(m: Fifos, s: nat, c: nat): Fifos
    requires Get(m, s, c) != []
  {
    m[(s, c) := Get(m, s, c)[1..]]
  }

  /** M sim ranks each call libISProcess once per entry of `steps` and then libISFinalize;
      N client ranks execute `script`; client c reads sims lo[c] .. lo[c+1]-1. The port a
      session listens on is named by the script index of its CONNECT. `allAccept` says whether
      connect and accept wait until every client rank has called accept, as both kinds of
      InterComm do (MPI's are collective, and in the socket one client rank 0 first collects the
      host names of all others), or only until client rank 0 has, which allows more runs. */
  datatype Config = Config(M: nat, N: nat, lo: seq<nat>, script: seq<Command>,
                           steps: seq<seq<Snapshot>>, allAccept: bool)
  {
    ghost predicate Valid() {
      && M >= 1 && N >= 1
      && |lo| == N + 1 && lo[0] == 0 && lo[1] >= 1 && lo[N] == M
      && (forall i, j :: 0 <= i <= j <= N ==> lo[i] <= lo[j])
      && WellFormed(script)
      && (forall t :: 0 <= t < |steps| ==> |steps[t]| == M)
      && (forall t, s :: 0 <= t < |steps| && 0 <= s < M ==> steps[t][s].Valid())
    }
  }

  /** The port of the session that is open after the first n commands, if one is. */
  function Session(script: seq<Command>, n: nat): Option<nat>
    requires n <= |script|
  {
    if n == 0 then None
    else match script[n-1]
      case CONNECT => Some(n - 1)
      case QUERY => Session(script, n - 1)
      case DISCONNECT => None
  }

  /** A client connects exactly when it is not connected. */
  predicate InTurn(script: seq<Command>, i: nat) requires i < |script| {
    script[i] == CONNECT <==> Session(script, i) == None
  }

  predicate WellFormed(script: seq<Command>) {
    forall i :: 0 <= i < |script| ==> InTurn(script, i)
  }

  /** The client that reads from sim s. */
  ghost function OwnerFrom(cfg: Config, s: nat, c: nat): (o: nat)
    requires cfg.Valid() && s < cfg.M && c < cfg.N && cfg.lo[c] <= s
    ensures o < cfg.N && cfg.lo[o] <= s < cfg.lo[o+1]
    decreases cfg.N - c
  {
    if s < cfg.lo[c+1] then c else OwnerFrom(cfg, s, c + 1)
  }

  ghost function Owner(cfg: Config, s: nat): (o: nat)
    requires cfg.Valid() && s < cfg.M
    ensures o < cfg.N && cfg.lo[o] <= s < cfg.lo[o+1]
  {
    OwnerFrom(cfg, s, 0)
  }

  ghost function FramesAt(cfg: Config, t: nat, s: nat): (fs: seq<Frame>)
    requires cfg.Valid() && t < |cfg.steps| && s < cfg.M
    ensures |fs| >= 1
  {
    Frames(cfg.steps[t][s])
  }

  // ----- State ---------------------------------------------------------------------------

  datatype SimPc =
    | Ready                          // between calls, mutex free
    | AwaitCommand                   // haveQuery was 1
    | AwaitPort                      // in connectClient
    | Connecting                     // in InterComm::connect
    | ProbeAll                       // in handleQuery's probe loop
    | Sending(client: nat, sent: nat)
    | Finalizing                     // in the destructor, listener joined, mutex held
    | Done
    | Failed

  /** `calls` counts completed process calls. History: `ops` counts the commands this rank
      has begun to execute, `dialed` the ports it has called InterComm::connect on. */
  datatype SimRank = SimRank(calls: nat, pc: SimPc, intercomm: Option<nat>, clientCommand: int,
                             clientPort: nat, dialed: set<nat>, ops: nat)

  datatype ClientPc =
    | Start                          // about to execute script[op]
    | AwaitVerdict                   // rank 0, command sent on the intercomm
    | InBarrier                      // sendCommand's barrier
    | AwaitBcast                     // sendCommand's broadcast
    | Accepting                      // in intercomm->accept
    | AwaitConnectVerdict            // rank 0, in connectSim
    | AwaitConnectBcast
    | Loop                           // top of query's region loop
    | AwaitFrames
    | InEndBarrier                   // barrier at the end of query
    | Closed                         // saw simQuit
    | Failed

  /** `arrived` counts barriers entered, `nb` broadcasts read (sent, on rank 0). */
  datatype ClientRank = ClientRank(op: nat, pc: ClientPc, quit: int, arrived: nat, nb: nat,
                                   got: seq<Frame>, regions: seq<SimState>,
                                   results: map<nat, seq<SimState>>)

  /** What sim rank 0 decided in each process call and in the destructor, with the number
      of commands begun before it. */
  datatype Event = Idle(ops: nat) | Run(ops: nat) | Fin(ops: nat, took: bool, code: int)

  /** `listening`: the listener thread runs and its socket is open. `inbox`: the port in a
      CONNECT the socket has accepted but the thread not yet recorded. History: `hist`,
      `taken` (the call in which each command was begun) and `vsent` (verdicts sent). */
  datatype State = State(sims: seq<SimRank>, clients: seq<ClientRank>, up: Fifos, down: Fifos,
                         bq: seq<seq<BMsg>>, newQuery: bool, listening: bool, inbox: Option<nat>,
                         verdicts: seq<int>, hist: seq<Event>, taken: seq<nat>, vsent: seq<int>)

  predicate Shape(cfg: Config, g: State) {
    |g.sims| == cfg.M && |g.clients| == cfg.N && |g.bq| == cfg.M
  }

  const NEW_SIM := SimRank(0, Ready, None, 0, 0, {}, 0)
  const NEW_CLIENT := ClientRank(0, Start, 0, 0, 0, [], [], map[])

  function Init(cfg: Config): State {
    State(seq(cfg.M, _ => NEW_SIM), seq(cfg.N, _ => NEW_CLIENT), map[], map[],
          seq(cfg.M, _ => []), false, true, None, [], [], [], [])
  }

  function SetSim(g: State, s: nat, sim: SimRank): State requires s < |g.sims| {
    g.(sims := g.sims[s := sim])
  }

  function SetClient(g: State, c: nat, cl: ClientRank): State requires c < |g.clients| {
    g.(clients := g.clients[c := cl])
  }

  /** MPI_Bcast by sim rank 0: every other rank will read these in order. */
  function Bcast(bq: seq<seq<BMsg>>, ms: seq<BMsg>): seq<seq<BMsg>> {
    seq(|bq|, i requires 0 <= i < |bq| => bq[i] + ms)
  }

  // ----- Simulation side ------------------------------------------------------------------

  /** The end of a process call. */
  function Finish(sim: SimRank): SimRank {
    sim.(calls := sim.calls + 1, pc := Ready, clientCommand := -1)
  }

  /** The listener thread records a CONNECT under the mutex and stops. */
  predicate CanRecord(cfg: Config, g: State) requires Shape(cfg, g) && cfg.M >= 1 {
    g.listening && g.inbox.Some? && g.sims[0].pc.Ready?
  }

  function Record(cfg: Config, g: State): State requires Shape(cfg, g) && cfg.M >= 1 && CanRecord(cfg, g) {
    var r := g.sims[0];
    var r' := r.(clientCommand := Code(CONNECT), clientPort := if r.intercomm.None? then g.inbox.value else r.clientPort);
    SetSim(g, 0, r').(newQuery := true, listening := false, inbox := None)
  }

  /** process on rank 0 with nothing to do, or with a command not yet visible to probe. */
  predicate CanRootIdle(cfg: Config, g: State) requires Shape(cfg, g) && cfg.M >= 1 {
    g.sims[0].pc.Ready? && g.sims[0].calls < |cfg.steps| && !g.newQuery
  }

  function RootIdle(cfg: Config, g: State): State requires Shape(cfg, g) && cfg.M >= 1 {
    var r := g.sims[0];
    SetSim(g, 0, r.(calls := r.calls + 1)).(
      bq := Bcast(g.bq, [HaveQuery(false)]), hist := g.hist + [Idle(r.ops)])
  }

  /** Rank 0's part of connectClient up to the blocking connect. */
  function Dial(r: SimRank): SimRank {
    if r.intercomm.Some? then r.(pc := SimPc.Failed)
    else r.(pc := Connecting, dialed := r.dialed + {r.clientPort}, ops := r.ops + 1)
  }

  /** process on rank 0 with a recorded CONNECT. */
  predicate CanRootConnect(cfg: Config, g: State) requires Shape(cfg, g) && cfg.M >= 1 {
    g.sims[0].pc.Ready? && g.sims[0].calls < |cfg.steps| && g.newQuery
  }

  function RootConnect(cfg: Config, g: State): State requires Shape(cfg, g) && cfg.M >= 1 {
    var r := g.sims[0];
    var r' := if r.clientCommand == Code(CONNECT) then Dial(r) else r.(pc := SimPc.Failed);
    SetSim(g, 0, r').(
      bq := Bcast(g.bq, [HaveQuery(true), CommandCode(r.clientCommand), PortName(r.clientPort)]),
      hist := g.hist + [Run(r.ops)], taken := g.taken + [r.calls])
  }

  /** process on rank 0 when probe(0) sees something from the connected client. Its integer
      is the command; the client is told not to quit. */
  predicate CanRootCommand(cfg: Config, g: State) requires Shape(cfg, g) && cfg.M >= 1 {
    && g.sims[0].pc.Ready? && g.sims[0].calls < |cfg.steps| && !g.newQuery
    && g.sims[0].intercomm.Some? && Get(g.up, 0, 0) != []
  }

  /** The switch in process, for a rank that is not rank 0's CONNECT case. */
  function Dispatch(r: SimRank, code: int): SimRank {
    if code == Code(QUERY) then r.(pc := ProbeAll, clientCommand := code, ops := r.ops + 1)
    else if code == Code(DISCONNECT) then Finish(r.(intercomm := None, ops := r.ops + 1))
    else r.(pc := SimPc.Failed)
  }

  function RootCommand(cfg: Config, g: State): State
    requires Shape(cfg, g) && cfg.M >= 1 && CanRootCommand(cfg, g)
  {
    var r := g.sims[0];
    var m := Get(g.up, 0, 0)[0];
    var r' := if m.CommandMsg? then Dispatch(r, m.code) else r.(pc := SimPc.Failed);
    var code := if m.CommandMsg? then m.code else 0;
    SetSim(g, 0, r').(
      up := Pop(g.up, 0, 0), down := Push(g.down, 0, 0, Verdict(0)),
      bq := Bcast(g.bq, [HaveQuery(true), CommandCode(code)]),
      listening := g.listening || code == Code(DISCONNECT),
      hist := g.hist + [Run(r.ops)], taken := g.taken + [r.calls], vsent := g.vsent + [0])
  }

  /** The other ranks take each decision from the broadcasts. */
  predicate CanHave(cfg: Config, g: State, s: nat) requires Shape(cfg, g) {
    0 < s < cfg.M && g.sims[s].pc.Ready? && g.sims[s].calls < |cfg.steps| && g.bq[s] != []
  }

  function Have(cfg: Config, g: State, s: nat): State requires Shape(cfg, g) && CanHave(cfg, g, s) {
    var r := g.sims[s];
    var m := g.bq[s][0];
    var r' := if !m.HaveQuery? then r.(pc := SimPc.Failed)
              else if m.have then r.(pc := AwaitCommand)
              else r.(calls := r.calls + 1);
    SetSim(g, s, r').(bq := g.bq[s := g.bq[s][1..]])
  }

  predicate CanCommand(cfg: Config, g: State, s: nat) requires Shape(cfg, g) {
    0 < s < cfg.M && g.sims[s].pc.AwaitCommand? && g.bq[s] != []
  }

  function FollowCommand(cfg: Config, g: State, s: nat): State requires Shape(cfg, g) && CanCommand(cfg, g, s) {
    var r := g.sims[s];
    var m := g.bq[s][0];
    var r' := if !m.CommandCode? then r.(pc := SimPc.Failed)
              else if m.code != Code(CONNECT) then Dispatch(r, m.code)
              else if r.intercomm.Some? then r.(pc := SimPc.Failed)
              else r.(pc := AwaitPort, clientCommand := m.code);
    SetSim(g, s, r').(bq := g.bq[s := g.bq[s][1..]])
  }

  predicate CanPort(cfg: Config, g: State, s: nat) requires Shape(cfg, g) {
    0 < s < cfg.M && g.sims[s].pc.AwaitPort? && g.bq[s] != []
  }

  function FollowPort(cfg: Config, g: State, s: nat): State requires Shape(cfg, g) && CanPort(cfg, g, s) {
    var m := g.bq[s][0];
    var r' := if !m.PortName? then g.sims[s].(pc := SimPc.Failed) else Dial(g.sims[s].(clientPort := m.port));
    SetSim(g, s, r').(bq := g.bq[s := g.bq[s][1..]])
  }

  /** Client rank d has called accept on port p. */
  predicate Reached(cl: ClientRank, p: nat) {
    || cl.op > p
    || (cl.op == p && (cl.pc.Accepting? || cl.pc.AwaitConnectVerdict? || cl.pc.AwaitConnectBcast? || cl.pc.Closed?))
  }

  /** The intercommunicator on port p can be established. */
  predicate LinkUp(cfg: Config, g: State, p: nat) requires Shape(cfg, g) {
    && (forall s :: 0 <= s < cfg.M ==> p in g.sims[s].dialed)
    && (forall d :: 0 <= d < cfg.N && (cfg.allAccept || d == 0) ==> Reached(g.clients[d], p))
  }

  predicate CanConnected(cfg: Config, g: State, s: nat) requires Shape(cfg, g) {
    s < cfg.M && g.sims[s].pc.Connecting? && LinkUp(cfg, g, g.sims[s].clientPort)
  }

  /** InterComm::connect returns. Rank 0 then sends the verdict: 0 from process, 1 from the
      destructor. */
  function Connected(cfg: Config, g: State, s: nat): State requires Shape(cfg, g) && CanConnected(cfg, g, s) {
    var r := g.sims[s].(intercomm := Some(g.sims[s].clientPort));
    var fin := r.calls >= |cfg.steps|;
    var g' := SetSim(g, s, if fin then r.(pc := Done) else Finish(r));
    var v := if fin then 1 else 0;
    if s != 0 then g'
    else g'.(down := Push(g.down, 0, 0, Verdict(v)), newQuery := fin && g.newQuery, vsent := g.vsent + [v])
  }

  /** probeAll reports client c: its integer should be a ping. */
  predicate CanPing(cfg: Config, g: State, s: nat, c: nat) requires Shape(cfg, g) {
    s < cfg.M && c < cfg.N && g.sims[s].pc.ProbeAll? && Get(g.up, s, c) != []
  }

  function TakePing(cfg: Config, g: State, s: nat, c: nat): State requires Shape(cfg, g) && CanPing(cfg, g, s, c) {
    var m := Get(g.up, s, c)[0];
    var pc' := if m == Ping(c) then Sending(c, 0) else SimPc.Failed;
    SetSim(g, s, g.sims[s].(pc := pc')).(up := Pop(g.up, s, c))
  }

  ghost predicate CanSend(cfg: Config, g: State, s: nat) requires Shape(cfg, g) && cfg.Valid() {
    && s < cfg.M && g.sims[s].pc.Sending? && g.sims[s].calls < |cfg.steps|
    && g.sims[s].pc.sent < |FramesAt(cfg, g.sims[s].calls, s)|
  }

  /** handleQuery sends the next frame of the state passed to this process call. */
  ghost function SendFrame(cfg: Config, g: State, s: nat): State
    requires Shape(cfg, g) && cfg.Valid() && CanSend(cfg, g, s)
  {
    var r := g.sims[s];
    var fs := FramesAt(cfg, r.calls, s);
    var i := r.pc.sent;
    var r' := if i + 1 == |fs| then Finish(r) else r.(pc := Sending(r.pc.client, i + 1));
    SetSim(g, s, r').(down := Push(g.down, s, r.pc.client, FrameMsg(fs[i])))
  }

  /** The destructor on rank 0: stop and join the listener, lock the mutex. */
  predicate CanStop(cfg: Config, g: State) requires Shape(cfg, g) && cfg.M >= 1 {
    g.sims[0].pc.Ready? && g.sims[0].calls >= |cfg.steps|
  }

  function Stop(cfg: Config, g: State): State requires Shape(cfg, g) && cfg.M >= 1 {
    SetSim(g, 0, g.sims[0].(pc := Finalizing)).(listening := false)
  }

  /** ... with no client: broadcast whatever clientCommand holds. */
  predicate CanFinNone(cfg: Config, g: State) requires Shape(cfg, g) && cfg.M >= 1 {
    g.sims[0].pc.Finalizing? && !g.newQuery && g.sims[0].intercomm.None?
  }

  function FinNone(cfg: Config, g: State): State requires Shape(cfg, g) && cfg.M >= 1 {
    var r := g.sims[0];
    SetSim(g, 0, r.(pc := if r.clientCommand == Code(CONNECT) then SimPc.Failed else Done)).(
      bq := Bcast(g.bq, [CommandCode(r.clientCommand)]), hist := g.hist + [Fin(r.ops, false, r.clientCommand)])
  }

  /** ... with a recorded CONNECT: connect, so that the client can be told to quit. */
  predicate CanFinConnect(cfg: Config, g: State) requires Shape(cfg, g) && cfg.M >= 1 {
    g.sims[0].pc.Finalizing? && g.newQuery
  }

  function FinConnect(cfg: Config, g: State): State requires Shape(cfg, g) && cfg.M >= 1 {
    var r := g.sims[0];
    var r' := if r.clientCommand == Code(CONNECT) then Dial(r) else r.(pc := SimPc.Failed);
    SetSim(g, 0, r').(
      bq := Bcast(g.bq, [CommandCode(r.clientCommand), PortName(r.clientPort)]),
      hist := g.hist + [Fin(r.ops, true, r.clientCommand)], taken := g.taken + [r.calls])
  }

  /** ... with a connected client: wait for its next command and answer it with 1. */
  predicate CanFinCommand(cfg: Config, g: State) requires Shape(cfg, g) && cfg.M >= 1 {
    g.sims[0].pc.Finalizing? && !g.newQuery && g.sims[0].intercomm.Some? && Get(g.up, 0, 0) != []
  }

  function FinCommand(cfg: Config, g: State): State
    requires Shape(cfg, g) && cfg.M >= 1 && CanFinCommand(cfg, g)
  {
    var r := g.sims[0];
    var m := Get(g.up, 0, 0)[0];
    var code := if m.CommandMsg? then m.code else 0;
    var ok := m.CommandMsg? && code != Code(CONNECT);
    var r' := r.(pc := if ok then Done else SimPc.Failed, clientCommand := code,
                 ops := if code == Code(DISCONNECT) then r.ops + 1 else r.ops);
    SetSim(g, 0, r').(
      up := Pop(g.up, 0, 0), down := Push(g.down, 0, 0, Verdict(1)),
      bq := Bcast(g.bq, [CommandCode(code)]),
      hist := g.hist + [Fin(r.ops, true, code)],
      taken := if code == Code(DISCONNECT) then g.taken + [r.calls] else g.taken,
      vsent := g.vsent + [1])
  }

  /** The destructor on the other ranks. */
  predicate CanFollowFin(cfg: Config, g: State, s: nat) requires Shape(cfg, g) {
    0 < s < cfg.M && g.sims[s].pc.Ready? && g.sims[s].calls >= |cfg.steps| && g.bq[s] != []
  }

  function FollowFin(cfg: Config, g: State, s: nat): State requires Shape(cfg, g) && CanFollowFin(cfg, g, s) {
    var r := g.sims[s];
    var m := g.bq[s][0];
    var r' := if !m.CommandCode? then r.(pc := SimPc.Failed)
              else if m.code == Code(CONNECT) then
                if r.intercomm.Some? then r.(pc := SimPc.Failed) else r.(pc := AwaitPort, clientCommand := m.code)
              else r.(pc := Done, clientCommand := m.code,
                      ops := if m.code == Code(DISCONNECT) then r.ops + 1 else r.ops);
    SetSim(g, s, r').(bq := g.bq[s := g.bq[s][1..]])
  }

  // ----- Client side ----------------------------------------------------------------------

  predicate CanStart(cfg: Config, g: State, c: nat) requires Shape(cfg, g) {
    && c < cfg.N && g.clients[c].pc.Start? && g.clients[c].op < |cfg.script|
    && (c == 0 && cfg.script[g.clients[c].op] == CONNECT ==> g.listening && g.inbox.None?)
  }

  /** sendCommand up to its first wait. Rank 0's CONNECT goes to the listening socket. */
  function StartOp(cfg: Config, g: State, c: nat): State requires Shape(cfg, g) && CanStart(cfg, g, c) {
    var cl := g.clients[c];
    var cmd := cfg.script[cl.op];
    var entered := cl.(pc := InBarrier, arrived := cl.arrived + 1, quit := if cmd == CONNECT then 0 else cl.quit);
    if c != 0 then SetClient(g, c, entered)
    else if cmd == CONNECT then SetClient(g, 0, entered).(inbox := Some(cl.op))
    else SetClient(g, 0, cl.(pc := AwaitVerdict)).(up := Push(g.up, 0, 0, CommandMsg(Code(cmd))))
  }

  predicate CanVerdict(cfg: Config, g: State) requires Shape(cfg, g) && cfg.N >= 1 {
    g.clients[0].pc.AwaitVerdict? && Get(g.down, 0, 0) != []
  }

  function TakeVerdict(cfg: Config, g: State): State requires Shape(cfg, g) && cfg.N >= 1 && CanVerdict(cfg, g) {
    var cl := g.clients[0];
    var m := Get(g.down, 0, 0)[0];
    var cl' := if m.Verdict? then cl.(pc := InBarrier, arrived := cl.arrived + 1, quit := m.quit)
               else cl.(pc := ClientPc.Failed);
    SetClient(g, 0, cl').(down := Pop(g.down, 0, 0))
  }

  /** Every rank has entered as many barriers as rank c has. */
  predicate AllArrived(cfg: Config, g: State, c: nat) requires Shape(cfg, g) && c < cfg.N {
    forall d :: 0 <= d < cfg.N ==> g.clients[d].arrived >= g.clients[c].arrived
  }

  /** What follows sendCommand's broadcast of simQuit. */
  function AfterCommand(cmd: Command, cl: ClientRank): ClientRank {
    match cmd
    case CONNECT => cl.(pc := Accepting)
    case QUERY => if cl.quit != 0 then cl.(pc := Closed) else cl.(pc := Loop, regions := [])
    case DISCONNECT => cl.(pc := Start, op := cl.op + 1)
  }

  predicate CanLeave(cfg: Config, g: State, c: nat) requires Shape(cfg, g) {
    c < cfg.N && g.clients[c].pc.InBarrier? && g.clients[c].op < |cfg.script| && AllArrived(cfg, g, c)
  }

  function Leave(cfg: Config, g: State, c: nat): State requires Shape(cfg, g) && CanLeave(cfg, g, c) {
    var cl := g.clients[c];
    if c != 0 then SetClient(g, c, cl.(pc := AwaitBcast))
    else SetClient(g, 0, AfterCommand(cfg.script[cl.op], cl.(nb := cl.nb + 1))).(verdicts := g.verdicts + [cl.quit])
  }

  predicate CanReadBcast(cfg: Config, g: State, c: nat) requires Shape(cfg, g) {
    0 < c < cfg.N && g.clients[c].pc.AwaitBcast? && g.clients[c].op < |cfg.script| && g.clients[c].nb < |g.verdicts|
  }

  function ReadBcast(cfg: Config, g: State, c: nat): State requires Shape(cfg, g) && CanReadBcast(cfg, g, c) {
    var cl := g.clients[c];
    SetClient(g, c, AfterCommand(cfg.script[cl.op], cl.(nb := cl.nb + 1, quit := g.verdicts[cl.nb])))
  }

  predicate CanAccept(cfg: Config, g: State, c: nat) requires Shape(cfg, g) {
    c < cfg.N && g.clients[c].pc.Accepting? && LinkUp(cfg, g, g.clients[c].op)
  }

  function Accept(cfg: Config, g: State, c: nat): State requires Shape(cfg, g) && CanAccept(cfg, g, c) {
    SetClient(g, c, g.clients[c].(pc := if c == 0 then AwaitConnectVerdict else AwaitConnectBcast))
  }

  /** The end of connectSim: stop if the simulation is quitting. */
  function AfterConnect(cl: ClientRank): ClientRank {
    if cl.quit != 0 then cl.(pc := Closed) else cl.(pc := Start, op := cl.op + 1)
  }

  predicate CanConnectVerdict(cfg: Config, g: State) requires Shape(cfg, g) && cfg.N >= 1 {
    g.clients[0].pc.AwaitConnectVerdict? && Get(g.down, 0, 0) != []
  }

  function ConnectVerdict(cfg: Config, g: State): State requires Shape(cfg, g) && cfg.N >= 1 && CanConnectVerdict(cfg, g) {
    var cl := g.clients[0];
    var m := Get(g.down, 0, 0)[0];
    if !m.Verdict? then SetClient(g, 0, cl.(pc := ClientPc.Failed)).(down := Pop(g.down, 0, 0))
    else SetClient(g, 0, AfterConnect(cl.(nb := cl.nb + 1, quit := m.quit))).(
           down := Pop(g.down, 0, 0), verdicts := g.verdicts + [m.quit])
  }

  predicate CanConnectBcast(cfg: Config, g: State, c: nat) requires Shape(cfg, g) {
    0 < c < cfg.N && g.clients[c].pc.AwaitConnectBcast? && g.clients[c].nb < |g.verdicts|
  }

  function ConnectBcast(cfg: Config, g: State, c: nat): State requires Shape(cfg, g) && CanConnectBcast(cfg, g, c) {
    var cl := g.clients[c];
    SetClient(g, c, AfterConnect(cl.(nb := cl.nb + 1, quit := g.verdicts[cl.nb])))
  }

  /** The sim that client c's next region comes from. */
  function Target(cfg: Config, cl: ClientRank, c: nat): nat requires c < |cfg.lo| {
    cfg.lo[c] + |cl.regions|
  }

  predicate CanPingSim(cfg: Config, g: State, c: nat) requires Shape(cfg, g) && |cfg.lo| == cfg.N + 1 {
    c < cfg.N && g.clients[c].pc.Loop? && Target(cfg, g.clients[c], c) < cfg.lo[c+1]
  }

  function PingSim(cfg: Config, g: State, c: nat): State
    requires Shape(cfg, g) && |cfg.lo| == cfg.N + 1 && CanPingSim(cfg, g, c)
  {
    var cl := g.clients[c];
    SetClient(g, c, cl.(pc := AwaitFrames, got := [])).(up := Push(g.up, Target(cfg, cl, c), c, Ping(c)))
  }

  predicate CanRecv(cfg: Config, g: State, c: nat) requires Shape(cfg, g) && |cfg.lo| == cfg.N + 1 {
    c < cfg.N && g.clients[c].pc.AwaitFrames? && Get(g.down, Target(cfg, g.clients[c], c), c) != []
  }

  /** query's receives: the header, then as many buffers as it announces, then the particles
      if it announces any. */
  function RecvFrame(cfg: Config, g: State, c: nat): State
    requires Shape(cfg, g) && |cfg.lo| == cfg.N + 1 && CanRecv(cfg, g, c)
  {
    var cl := g.clients[c];
    var s := Target(cfg, cl, c);
    var m := Get(g.down, s, c)[0];
    var cl' := if !m.FrameMsg? || !Expects(cl.got, m.frame) then cl.(pc := ClientPc.Failed)
               else if Complete(cl.got + [m.frame]) then
                 cl.(pc := Loop, got := [], regions := cl.regions + [Assemble(cl.got + [m.frame])])
               else cl.(got := cl.got + [m.frame]);
    SetClient(g, c, cl').(down := Pop(g.down, s, c))
  }

  predicate CanEndLoop(cfg: Config, g: State, c: nat) requires Shape(cfg, g) && |cfg.lo| == cfg.N + 1 {
    c < cfg.N && g.clients[c].pc.Loop? && Target(cfg, g.clients[c], c) >= cfg.lo[c+1]
  }

  function EndLoop(cfg: Config, g: State, c: nat): State
    requires Shape(cfg, g) && |cfg.lo| == cfg.N + 1 && CanEndLoop(cfg, g, c)
  {
    SetClient(g, c, g.clients[c].(pc := InEndBarrier, arrived := g.clients[c].arrived + 1))
  }

  predicate CanReturn(cfg: Config, g: State, c: nat) requires Shape(cfg, g) {
    c < cfg.N && g.clients[c].pc.InEndBarrier? && AllArrived(cfg, g, c)
  }

  /** query returns its regions. */
  function Return(cfg: Config, g: State, c: nat): State requires Shape(cfg, g) && CanReturn(cfg, g, c) {
    var cl := g.clients[c];
    SetClient(g, c, cl.(pc := Start, op := cl.op + 1, results := cl.results[cl.op := cl.regions]))
  }

  // ----- The step relation ----------------------------------------------------------------

  datatype Action =
    | ARecord | ARootIdle | ARootConnect | ARootCommand | AStop | AFinNone | AFinConnect | AFinCommand
    | AHave(s: nat) | ACommand(s: nat) | APort(s: nat) | AConnected(s: nat)
    | ATakePing(s: nat, c: nat) | ASend(s: nat) | AFollowFin(s: nat)
    | AStart(c: nat) | AVerdict | ALeave(c: nat) | AReadBcast(c: nat) | AAccept(c: nat)
    | AConnectVerdict | AConnectBcast(c: nat) | APing(c: nat) | ARecv(c: nat) | AEndLoop(c: nat) | AReturn(c: nat)

  ghost predicate Enabled(cfg: Config, g: State, a: Action)
    requires cfg.Valid() && Shape(cfg, g)
  {
    match a
    case ARecord => CanRecord(cfg, g)
    case ARootIdle => CanRootIdle(cfg, g)
    case ARootConnect => CanRootConnect(cfg, g)
    case ARootCommand => CanRootCommand(cfg, g)
    case AStop => CanStop(cfg, g)
    case AFinNone => CanFinNone(cfg, g)
    case AFinConnect => CanFinConnect(cfg, g)
    case AFinCommand => CanFinCommand(cfg, g)
    case AHave(s) => CanHave(cfg, g, s)
    case ACommand(s) => CanCommand(cfg, g, s)
    case APort(s) => CanPort(cfg, g, s)
    case AConnected(s) => CanConnected(cfg, g, s)
    case ATakePing(s, c) => CanPing(cfg, g, s, c)
    case ASend(s) => CanSend(cfg, g, s)
    case AFollowFin(s) => CanFollowFin(cfg, g, s)
    case AStart(c) => CanStart(cfg, g, c)
    case AVerdict => CanVerdict(cfg, g)
    case ALeave(c) => CanLeave(cfg, g, c)
    case AReadBcast(c) => CanReadBcast(cfg, g, c)
    case AAccept(c) => CanAccept(cfg, g, c)
    case AConnectVerdict => CanConnectVerdict(cfg, g)
    case AConnectBcast(c) => CanConnectBcast(cfg, g, c)
    case APing(c) => CanPingSim(cfg, g, c)
    case ARecv(c) => CanRecv(cfg, g, c)
    case AEndLoop(c) => CanEndLoop(cfg, g, c)
    case AReturn(c) => CanReturn(cfg, g, c)
  }

  ghost function Apply(cfg: Config, g: State, a: Action): State
    requires cfg.Valid() && Shape(cfg, g) && Enabled(cfg, g, a)
  {
    match a
    case ARecord => Record(cfg, g)
    case ARootIdle => RootIdle(cfg, g)
    case ARootConnect => RootConnect(cfg, g)
    case ARootCommand => RootCommand(cfg, g)
    case AStop => Stop(cfg, g)
    case AFinNone => FinNone(cfg, g)
    case AFinConnect => FinConnect(cfg, g)
    case AFinCommand => FinCommand(cfg, g)
    case AHave(s) => Have(cfg, g, s)
    case ACommand(s) => FollowCommand(cfg, g, s)
    case APort(s) => FollowPort(cfg, g, s)
    case AConnected(s) => Connected(cfg, g, s)
    case ATakePing(s, c) => TakePing(cfg, g, s, c)
    case ASend(s) => SendFrame(cfg, g, s)
    case AFollowFin(s) => FollowFin(cfg, g, s)
    case AStart(c) => StartOp(cfg, g, c)
    case AVerdict => TakeVerdict(cfg, g)
    case ALeave(c) => Leave(cfg, g, c)
    case AReadBcast(c) => ReadBcast(cfg, g, c)
    case AAccept(c) => Accept(cfg, g, c)
    case AConnectVerdict => ConnectVerdict(cfg, g)
    case AConnectBcast(c) => ConnectBcast(cfg, g, c)
    case APing(c) => PingSim(cfg, g, c)
    case ARecv(c) => RecvFrame(cfg, g, c)
    case AEndLoop(c) => EndLoop(cfg, g, c)
    case AReturn(c) => Return(cfg, g, c)
  }

  /** A finite run from the initial state. */
  ghost predicate IsRun(cfg: Config, gs: seq<State>, acts: seq<Action>)
    requires cfg.Valid()
  {
    && |gs| == |acts| + 1 && gs[0] == Init(cfg)
    && forall i :: 0 <= i < |acts| ==>
         Shape(cfg, gs[i]) && Enabled(cfg, gs[i], acts[i]) && gs[i+1] == Apply(cfg, gs[i], acts[i])
  }

  ghost predicate Reachable(cfg: Config, g: State)
    requires cfg.Valid()
  {
    exists gs, acts :: IsRun(cfg, gs, acts) && gs[|acts|] == g
  }
}
