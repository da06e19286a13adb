/** class ConnectionManager (is_sim.cpp) as the object it is: its methods update the fields that the
    listener thread and the simulation share. ProtocolCalls shows that what a whole call does here is what
    the steps of the protocol add up to, whatever the other ranks do in between.

    What comes from outside is passed in: the command that probe and recv find on the intercommunicator
    (rank 0), and the broadcasts received (the other ranks). What goes out is returned: the broadcasts
    made, and the verdicts sent to client rank 0. */
module ConnectionManager {
  import opened SimStates
  import opened Protocol

  /** The effect of one call on one rank. */
  datatype Outcome =
    | Thrown
    | Returned(sim: SimRank, newQuery: bool, listening: bool, announced: seq<BMsg>, told: seq<int>)

  /** The switch of process, for a command that has become known. */
  function Switch(r: SimRank, listening: bool, root: bool, announced: seq<BMsg>, told: seq<int>): Outcome {
    var code := r.clientCommand;
    if code == Code(CONNECT) then
      if r.intercomm.Some? then Thrown
      else Returned(Finish(Dial(r).(intercomm := Some(r.clientPort))), false, listening,
                    if root then announced + [PortName(r.clientPort)] else announced, if root then told + [0] else told)
    else if code == Code(QUERY) then Returned(Finish(Dispatch(r, code)), false, listening, announced, told)
    else if code == Code(DISCONNECT) then Returned(Dispatch(r, code), false, listening || root, announced, told)
    else Thrown
  }

  /** process on rank 0. */
  function RootCall(r: SimRank, newQuery: bool, listening: bool, waiting: Option<int>): Outcome {
    if newQuery then
      Switch(r, listening, true, [HaveQuery(true), CommandCode(r.clientCommand)], [])
    else if r.intercomm.Some? && waiting.Some? then
      Switch(r.(clientCommand := waiting.value), listening, true, [HaveQuery(true), CommandCode(waiting.value)], [0])
    else
      Returned(r.(calls := r.calls + 1), false, listening, [HaveQuery(false)], [])
  }

  /** Whatever the command was, the call is over and nothing is recorded any more; what had been announced and told
      before the switch still comes first. */
  lemma SwitchLeaves(r: SimRank, listening: bool, root: bool, announced: seq<BMsg>, told: seq<int>)
    ensures var o := Switch(r, listening, root, announced, told);
            o.Returned? ==>
              && !o.newQuery && o.sim.calls == r.calls + 1 && announced <= o.announced
              && o.told == told + (if root && r.clientCommand == Code(CONNECT) then [0] else [])
  {
  }

  /** The broadcasts of one call, as the other ranks receive them. */
  predicate Orderly(heard: seq<BMsg>) {
    && heard != [] && heard[0].HaveQuery?
    && (heard[0].have ==> |heard| >= 2 && heard[1].CommandCode?)
    && (heard[0].have && heard[1].code == Code(CONNECT) ==> |heard| >= 3 && heard[2].PortName?)
  }

  /** process on another rank. */
  function FollowerCall(r: SimRank, heard: seq<BMsg>): Outcome requires Orderly(heard) {
    if !heard[0].have then Returned(r.(calls := r.calls + 1), false, false, [], [])
    else
      var code := heard[1].code;
      var r' := r.(clientCommand := code);
      Switch(if code == Code(CONNECT) && r.intercomm.None? then r'.(clientPort := heard[2].port) else r', false, false, [], [])
  }

  /** The end of the destructor, once clientCommand is known. */
  function Ended(r: SimRank, newQuery: bool, root: bool, announced: seq<BMsg>): Outcome {
    if r.clientCommand == Code(CONNECT) then
      if r.intercomm.Some? then Thrown
      else Returned(Dial(r).(pc := Done, intercomm := Some(r.clientPort)), newQuery, false,
                    if root then announced + [PortName(r.clientPort)] else announced, if root then [1] else [])
    else
      Returned(r.(pc := Done, ops := if r.clientCommand == Code(DISCONNECT) then r.ops + 1 else r.ops), newQuery, false,
               announced, if root && r.intercomm.Some? then [1] else [])
  }

  /** The destructor on rank 0: a connected client is waited for. */
  function RootEnd(r: SimRank, newQuery: bool, waiting: Option<int>): Outcome {
    var r' := if !newQuery && r.intercomm.Some? && waiting.Some? then r.(clientCommand := waiting.value) else r;
    Ended(r', newQuery, true, [CommandCode(r'.clientCommand)])
  }

  /** The destructor's broadcasts, as the other ranks receive them. */
  predicate OrderlyEnd(heard: seq<BMsg>) {
    && heard != [] && heard[0].CommandCode?
    && (heard[0].code == Code(CONNECT) ==> |heard| >= 2 && heard[1].PortName?)
  }

  function FollowerEnd(r: SimRank, heard: seq<BMsg>): Outcome requires OrderlyEnd(heard) {
    var code := heard[0].code;
    var r' := r.(clientCommand := code);
    Ended(if code == Code(CONNECT) && r.intercomm.None? then r'.(clientPort := heard[1].port) else r', false, false, [])
  }

  class ConnectionManager {
    const simRank: nat
    var clientCommand: int
    var newQuery: bool
    var intercomm: Option<nat>
    var clientPort: nat
    var listening: bool

    /** History: completed calls, ports dialed, commands begun. */
    ghost var calls: nat
    ghost var dialed: set<nat>
    ghost var ops: nat

    ghost function View(): SimRank reads this {
      SimRank(calls, Ready, intercomm, clientCommand, clientPort, dialed, ops)
    }

    constructor (simRank: nat)
      ensures this.simRank == simRank && View() == NEW_SIM && !newQuery && (listening <==> simRank == 0)
    {
      this.simRank := simRank;
      clientCommand, newQuery, intercomm, clientPort := 0, false, None, 0;
      listening := simRank == 0;
      calls, dialed, ops := 0, {}, 0;
    }

    /** The critical section at the end of listenForClient. */
    method ListenForClient(portName: nat, cmd: int)
      requires listening
      modifies this
      ensures newQuery && !listening
      ensures View() == old(View()).(clientCommand := cmd, clientPort := if old(intercomm).None? then portName else old(clientPort))
    {
      if intercomm == None {
        clientPort := portName;
      }
      clientCommand := cmd;
      newQuery := true;
      listening := false;
    }

    /** connectClient; false stands for the exception. The intercommunicator is named by its port. */
    method ConnectClient(heardPort: nat) returns (ok: bool, announced: seq<BMsg>)
      modifies this
      ensures ok <==> old(intercomm).None?
      ensures !ok ==> View() == old(View()) && announced == []
      ensures ok ==>
                var port := if simRank == 0 then old(clientPort) else heardPort;
                && announced == (if simRank == 0 then [PortName(port)] else [])
                && View() == Dial(old(View()).(clientPort := port)).(pc := Ready, intercomm := Some(port))
      ensures newQuery == old(newQuery) && listening == old(listening)
    {
      announced := [];
      if intercomm != None {
        return false, [];
      }
      if simRank == 0 {
        announced := [PortName(clientPort)];
      } else {
        clientPort := heardPort;
      }
      dialed, ops := dialed + {clientPort}, ops + 1;
      intercomm := Some(clientPort);
      ok := true;
    }

    /** disconnectClient: on rank 0, watch for new clients again. */
    method DisconnectClient()
      modifies this
      ensures View() == old(View()).(intercomm := None, ops := old(ops) + 1)
      ensures newQuery == old(newQuery) && listening == (old(listening) || simRank == 0)
    {
      intercomm := None;
      ops := ops + 1;
      if simRank == 0 {
        listening := true;
      }
    }

    /** The switch of process and what follows it. */
    method Execute(heardPort: nat, broadcast: seq<BMsg>, answers: seq<int>) returns (ok: bool, announced: seq<BMsg>, told: seq<int>)
      requires simRank != 0 ==> !listening && answers == []
      modifies this
      ensures var r := if simRank != 0 && old(clientCommand) == Code(CONNECT) && old(intercomm).None? then old(View()).(clientPort := heardPort) else old(View());
              var outcome := Switch(r, old(listening), simRank == 0, broadcast, answers);
              if ok then outcome == Returned(View(), newQuery, listening, announced, told) else outcome == Thrown
    {
      announced, told := broadcast, answers;
      if clientCommand == Code(CONNECT) {
        var more;
        ok, more := ConnectClient(heardPort);
        if !ok {
          return;
        }
        announced := announced + more;
        if simRank == 0 {
          told := told + [0];
        }
      } else if clientCommand == Code(QUERY) {
        ops := ops + 1;
      } else if clientCommand == Code(DISCONNECT) {
        DisconnectClient();
      } else {
        return false, announced, told;
      }
      clientCommand := -1;
      newQuery := false;
      calls := calls + 1;
      ok := true;
    }

    /** process, from taking the mutex to releasing it. */
    method Process(waiting: Option<int>, heard: seq<BMsg>) returns (ok: bool, announced: seq<BMsg>, told: seq<int>)
      requires simRank != 0 ==> Orderly(heard) && !newQuery && !listening
      modifies this
      ensures var outcome := if simRank == 0 then RootCall(old(View()), old(newQuery), old(listening), waiting)
                             else FollowerCall(old(View()), heard);
              if ok then outcome == Returned(View(), newQuery, listening, announced, told) else outcome == Thrown
      ensures ok ==> !newQuery && calls == old(calls) + 1
      ensures ok && simRank == 0 && (old(newQuery) ==> old(clientCommand) == Code(CONNECT)) ==>
                && announced != [] && announced[0] == HaveQuery(told != []) && (told == [] || told == [0])
                && (told == [] ==> !old(newQuery) && View() == old(View()).(calls := old(calls) + 1))
    {
      announced, told := [], [];
      var haveQuery := newQuery;
      if !haveQuery && simRank == 0 && intercomm != None {
        haveQuery := waiting.Some?;
        if haveQuery {
          clientCommand := waiting.value;
          told := [0];
        }
      }
      if simRank == 0 {
        announced := [HaveQuery(haveQuery)];
      } else {
        haveQuery := heard[0].have;
      }
      if !haveQuery {
        calls := calls + 1;
        return true, announced, told;
      }
      if simRank == 0 {
        announced := announced + [CommandCode(clientCommand)];
      } else {
        clientCommand := heard[1].code;
      }
      var port := if simRank != 0 && clientCommand == Code(CONNECT) then heard[2].port else 0;
      hide Switch, Dial, Finish, Dispatch;
      ghost var r := if simRank != 0 && clientCommand == Code(CONNECT) && intercomm.None? then View().(clientPort := port) else View();
      SwitchLeaves(r, listening, simRank == 0, announced, told);
      ok, announced, told := Execute(port, announced, told);
    }

    /** The destructor. It stops the listener, and if a client is connected or has connected it waits for that
        client's command and answers it with 1. */
    method Destroy(waiting: Option<int>, heard: seq<BMsg>) returns (ok: bool, announced: seq<BMsg>, told: seq<int>)
      requires simRank != 0 ==> OrderlyEnd(heard) && !newQuery && !listening
      requires simRank == 0 && !newQuery && intercomm.Some? ==> waiting.Some?
      modifies this
      ensures var outcome := if simRank == 0 then RootEnd(old(View()), old(newQuery), waiting) else FollowerEnd(old(View()), heard);
              if ok then outcome == Returned(View().(pc := Done), newQuery, listening, announced, told) else outcome == Thrown
      ensures !listening
      ensures ok ==> told == if simRank == 0 && intercomm.Some? then [1] else []
    {
      announced, told := [], [];
      listening := false;
      var haveQuery := newQuery;
      if !haveQuery && simRank == 0 && intercomm != None {
        clientCommand := waiting.value;
      }
      if simRank == 0 {
        announced := [CommandCode(clientCommand)];
      } else {
        clientCommand := heard[0].code;
      }
      ok := true;
      if clientCommand == Code(CONNECT) {
        var port, broadcast := if simRank == 0 then 0 else heard[1].port, [];
        ok, broadcast := ConnectClient(port);
        announced := announced + broadcast;
      } else if clientCommand == Code(DISCONNECT) {
        ops := ops + 1;
      }
      if ok && simRank == 0 && intercomm != None {
        told := [1];
      }
    }
  }
}
