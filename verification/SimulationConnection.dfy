/** class SimulationConnection and the functions around the one static instance of it (is_client.cpp), on
    one client rank. What arrives is passed in: `verdict` is what rank 0 receives from the simulation, and
    what another rank is told by rank 0's broadcast; ProtocolClientCalls shows that it is the verdict the
    simulation sent on the command. A connection remembers the commands sent over it, to show that any
    program using the functions sends them in an order that the protocol expects. */
module SimulationConnection {
  import opened SimStates
  import opened Protocol

  /** Commands sent so far are in order, and leave a session open exactly if `open`. */
  predicate InOrder(sent: seq<Command>, open: bool) {
    WellFormed(sent) && (open <==> Session(sent, |sent|).Some?)
  }

  lemma {:induction false} SessionOfPrefix(sent: seq<Command>, more: seq<Command>, n: nat)
    requires n <= |sent|
    ensures Session(sent + more, n) == Session(sent, n)
  {
    if n > 0 { SessionOfPrefix(sent, more, n - 1); }
  }

  /** One more command keeps the order exactly when it is CONNECT without a session, or another one with a session. */
  lemma OneMore(sent: seq<Command>, open: bool, cmd: Command)
    requires InOrder(sent, open)
    ensures InOrder(sent + [cmd], cmd != DISCONNECT) <==> (cmd == CONNECT <==> !open)
  {
    var all := sent + [cmd];
    forall i: nat | i < |sent| ensures InTurn(all, i) {
      SessionOfPrefix(sent, [cmd], i);
      assert InTurn(sent, i);
    }
    SessionOfPrefix(sent, [cmd], |sent|);
    assert InTurn(all, |sent|) <==> (cmd == CONNECT <==> !open);
  }

  /** Sessions with the same simulation, one after the other, make up one script. */
  lemma {:induction false} SessionsJoin(past: seq<Command>, next: seq<Command>, open: bool)
    requires InOrder(past, false) && InOrder(next, open)
    ensures InOrder(past + next, open)
    decreases |next|
  {
    if next == [] {
      assert past + next == past;
    } else {
      var front, last := next[..|next|-1], next[|next|-1];
      assert front + [last] == next;
      FrontInOrder(front, last);
      var was := Session(front, |front|).Some?;
      SessionsJoin(past, front, was);
      OneMore(past + front, was, last);
      OneMore(front, was, last);
      SessionOfLast(front, last, open);
      assert (past + front) + [last] == past + next;
    }
  }

  lemma FrontInOrder(front: seq<Command>, last: Command)
    requires WellFormed(front + [last])
    ensures WellFormed(front)
  {
    forall i: nat | i < |front| ensures InTurn(front, i) {
      SessionOfPrefix(front, [last], i);
      assert InTurn(front + [last], i);
    }
  }

  lemma SessionOfLast(front: seq<Command>, last: Command, open: bool)
    requires InOrder(front + [last], open)
    ensures open == (last != DISCONNECT)
  {
    SessionOfPrefix(front, [last], |front|);
    assert InTurn(front + [last], |front|);
  }

  /** simQuit after sendCommand: the verdict, but rank 0 receives none on CONNECT. */
  function Sent(rank: nat, cmd: Command, simQuit: int, verdict: int): int {
    if rank == 0 && cmd == CONNECT then simQuit else verdict
  }

  class SimulationConnection {
    const rank: nat
    var simQuit: int
    ghost var sent: seq<Command>

    /** Not told to quit: the session is open. */
    ghost predicate Valid() reads this {
      WellFormed(sent) && (simQuit == 0 ==> InOrder(sent, true))
    }

    constructor (rank: nat)
      ensures this.rank == rank && simQuit == 0 && sent == []
    {
      this.rank, simQuit, sent := rank, 0, [];
    }

    /** sendCommand: rank 0 sends the command and, unless it is CONNECT, receives the verdict; then rank 0's
        simQuit is everybody's. */
    method SendCommand(cmd: Command, verdict: int) returns (quit: int)
      modifies this
      ensures quit == simQuit == Sent(rank, cmd, old(simQuit), verdict) && sent == old(sent) + [cmd]
    {
      if rank == 0 {
        if cmd != CONNECT {
          simQuit := verdict;
        }
      } else {
        simQuit := verdict;
      }
      quit := simQuit;
      sent := sent + [cmd];
    }

    /** connectSim: the verdict on CONNECT comes after the accept; sendCommand's broadcast is rank 0's initial 0. */
    method ConnectSim(verdict: int)
      requires simQuit == 0 && sent == []
      modifies this
      ensures simQuit == verdict && sent == [CONNECT] && Valid()
    {
      OneMore([], false, CONNECT);
      var _ := SendCommand(CONNECT, 0);
      simQuit := verdict;
    }

    /** The destructor sends DISCONNECT unless the simulation has said to quit. */
    method Destroy(verdict: int)
      requires Valid()
      modifies this
      ensures sent == old(sent) + (if old(simQuit) == 0 then [DISCONNECT] else []) && WellFormed(sent)
      ensures old(simQuit) == 0 ==> InOrder(sent, false)
    {
      if simQuit == 0 {
        OneMore(sent, true, DISCONNECT);
        var _ := SendCommand(DISCONNECT, verdict);
      }
    }
  }

  /** The static instance `sim`, and the functions that act on it. */
  class Client {
    const rank: nat
    var sim: SimulationConnection?

    ghost predicate Valid() reads this, sim {
      sim != null ==> sim.Valid() && sim.simQuit == 0
    }

    constructor (rank: nat)
      ensures Valid() && sim == null && this.rank == rank
    {
      this.rank, sim := rank, null;
    }

    /** connect. If the simulation's socket cannot be reached, the constructor throws and nothing changes.
        Otherwise there is a new connection, unless the verdict on its CONNECT is 1; and the one before it, if any,
        is destroyed afterwards, disconnecting it. */
    method Connect(reached: bool, verdict: int, verdictBefore: int) returns (ok: bool, simQuit: bool)
      requires Valid()
      modifies this, sim
      ensures Valid() && ok == reached
      ensures !reached ==> !simQuit && sim == old(sim) && (sim != null ==> sim.sent == old(sim.sent))
      ensures reached ==> simQuit == (verdict != 0) && (sim != null <==> verdict == 0)
      ensures reached && sim != null ==> fresh(sim) && sim.sent == [CONNECT]
      ensures reached && old(sim) != null ==> old(sim).sent == old(sim.sent) + [DISCONNECT] && InOrder(old(sim).sent, false)
    {
      if !reached {
        return false, false;
      }
      var next := new SimulationConnection(rank);
      next.ConnectSim(verdict);
      if sim != null {
        sim.Destroy(verdictBefore);
      }
      sim := next;
      ok, simQuit := true, sim.simQuit != 0;
      if simQuit {
        sim := null;
      }
    }

    /** query up to its region loop; `regions` tells whether the loop is entered. */
    method Query(verdict: int) returns (regions: bool, simQuit: bool)
      requires Valid() && sim != null
      modifies this, sim
      ensures Valid() && old(sim).sent == old(sim.sent) + [QUERY] && WellFormed(old(sim).sent)
      ensures regions == (verdict == 0) && simQuit == (verdict != 0) && sim == (if verdict == 0 then old(sim) else null)
    {
      OneMore(sim.sent, true, QUERY);
      var quit := sim.SendCommand(QUERY, verdict);
      regions := quit == 0;
      simQuit := sim.simQuit != 0;
      if simQuit {
        sim.Destroy(0);
        sim := null;
      }
    }

    /** disconnect, or the end of the program. */
    method Disconnect(verdict: int)
      requires Valid()
      modifies this, sim
      ensures Valid() && sim == null
      ensures old(sim) != null ==> old(sim).sent == old(sim.sent) + [DISCONNECT] && InOrder(old(sim).sent, false)
    {
      if sim != null {
        sim.Destroy(verdict);
        sim := null;
      }
    }
  }
}
