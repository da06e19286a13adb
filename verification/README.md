# libIS, verified

libIS moves the state of a simulation running on M MPI ranks to a client running on N ranks. This
project models its four cores in Dafny 4.11 and proves what they promise:

* **the M:N query protocol** (`is_sim.cpp`, `is_client.cpp`): connect, query, disconnect, reconnect and
  finalize, on all ranks of both sides and the listener thread, in every interleaving;
* **the socket intercommunicator** (`intercomm.cpp`): the handshake that builds an M by N mesh, and the
  `send`/`recv` loops over partial transfers;
* **the wire format** (`is_buffering.*`, `is_simstate.cpp`): growable write buffer, cursor reader, and the
  nested framing of a whole state;
* **grids and bricks** (`vec.h`, `examples/volume_example_sim.cpp`): the division of ranks over three axes, of
  a volume over ranks, and the chunked read of a brick.

`dafny verify dfyconfig.toml` checks everything.

## How it is organised

| files | contents |
|---|---|
| `SimStates` | a rank's state, the setters, and the frames it travels in |
| `Partition` | `query()`'s division of simulation ranks among clients |
| `Protocol` | the protocol as a step relation: program counters, one FIFO per pair and direction, broadcasts, barriers |
| `ProtocolInvariant`, `ProtocolSafety`, `ProtocolCommands`, `ProtocolFollowers`, `ProtocolSteps`, `ProtocolClientSteps` | the inductive invariant, part by part, and that every step keeps it |
| `ProtocolFrames` | what a step of one rank leaves alone |
| `ProtocolTheorems`, `ProtocolRanks` | what follows in every reachable state |
| `ProtocolProgress`, `ProtocolLinks` | every run is finite; whoever gets through a connect brings the others along |
| `ProtocolWaits`, `ProtocolDeadlock` | a state is stuck exactly when it is one of five final states |
| `ProtocolVerdicts` | the simulation's verdicts against what the clients do |
| `ProtocolSchedules` | runs that end badly, and exactly when there are such runs |
| `ConnectionManager`, `ProtocolCalls` | the class as an object with fields and methods; its calls are what the protocol's steps add up to |
| `CommandCodes` | the three integers that stand for commands, what each makes a rank do, and what makes it fail |
| `SimulationConnection`, `ProtocolClientCalls` | the client's connection and the functions around its one static instance; likewise |
| `Handshake`, `HandshakeProofs`, `HandshakeProgress` | `SocketInterComm::connect` and `accept` on all ranks |
| `ByteStreams`, `InterComm` | `send`/`recv`: two concurrent ends of a stream, and the object with its socket vector |
| `Encoding`, `Buffering` | the bytes of typed values; `WriteBuffer` and `ReadBuffer` |
| `WireFormat`, `StateTransfer` | the bytes of a state; the code that sends and receives it |
| `Grid`, `VolumeBrick`, `VolumeRead`, `VolumeSim` | `compute_grid`, rank to brick, `load_raw_volume`, and a brick as a published field |
| `Sums`, `Arithmetic` | sums and cardinalities, products and quotients |

## Reading the protocol model

A step is one blocking operation of one rank, together with the non-blocking sends that follow it before the
rank can block again; the listener thread records a CONNECT in a step of its own, which the mutex orders with
the calls of `process`. `probeAll` is disabled until a ping has arrived. The simulation calls `libISProcess`
once per entry of `Config.steps` and then `libISFinalize`; the client executes `Config.script`, in which it
connects exactly when it is not connected. M and N are any positive numbers, and the division of simulation
ranks among clients is any division into consecutive blocks in which client 0 gets the first rank;
`QueryDivides` shows that the arithmetic of `query()` is one. `Config.allAccept` selects which ranks
`connect`/`accept` wait for: every rank of both sides, as MPI's do and the socket's do as well (rank 0 gathers
every client rank's host name, `intercomm.cpp:318-332`, and `Handshake` models it); without it, all simulation
ranks and client rank 0 suffice, which allows more runs, and everything is proved for these too.

A rank that reads something of the wrong kind, or that would throw, goes to `Failed`; the message tags are there
to state this, no receiver selects on them.

Points where the code has to be taken at its word:

* The repository's README speaks of M >= N. The code also handles M < N: the clients left over get no regions,
  and everything below holds for them as well.
* `hasParticles` is the particle *count* narrowed to 32 bits (`is_simstate.cpp:140`). So a state arrives whole
  exactly when `numParticles` is not a multiple of 2^32 or there is nothing to lose (`StateArrivesWhole`);
  for one, a rank that has only ghost particles loses them (`GhostsAlone`). Both sides still agree on the framing.
* A CONNECT that the listening socket has taken but the thread has not recorded when the simulation ends is never
  answered (`is_sim.cpp:148-150`). It shows up as the final state `Stranded`; a client that connects later
  finds nobody listening (`Refused`). Every program that connects at all has runs that end in the one and in
  the other (`StrandedHappens`, `RefusedHappens`), so that only the empty program is sure of all its answers
  (`EveryCommandAnsweredExactly`); a CONNECT that was recorded is always answered (`RecordedConnectIsAnswered`).
* The destructor waits for the connected client's next command (`is_sim.cpp:84-86`). A client that never
  sends one leaves it waiting (`Abandoned`, `AbandonedHappens`); the client's own destructor always does. All
  runs of the simulation end exactly if the client disconnects or has more commands than there are process
  calls (`SimulationEndsExactly`).
* The chunk loop of `load_raw_volume` never reads the last `brick_dims.z mod n_chunks` slices: its adjustment of
  the last chunk (`examples/volume_example_sim.cpp:236-238`) can only take effect when nothing is left over. It
  reads nothing at all if a single slice exceeds the limit. For a brick without voxels it divides by `n_chunks`,
  which is 0 (line 223), so there have to be at least as many voxels as ranks along each axis (`GridFits`).

## Model

| member | source | states |
|---|---|---|
| ProtocolTheorems.QueryDelivers | is_client.cpp:82-169 | in every interleaving, once all clients have returned from a query, their regions in client-rank order are the states that sims 0..M-1 passed to one and the same process call, each once and in order |
| ProtocolTheorems.QueryDivides | is_client.cpp:88-110 | the arithmetic of query() divides the sims into consecutive blocks for any M and N, so every theorem applies to it |
| ProtocolTheorems.KeepStep | is_sim.cpp:72-298 | every step of every rank on either side keeps the invariant of program counters, queues and history |
| ProtocolTheorems.NobodyFails | is_sim.cpp:233-246 | the "already connected" and "unknown command" throws are unreachable, and nobody receives a message of the wrong kind |
| ProtocolTheorems.RootReadsCommand | is_sim.cpp:198-206 | an integer that process or the destructor reads is the client's next command, alone in its queue, never a ping |
| ProtocolTheorems.ProbeReadsPing | is_sim.cpp:277-285 | handleQuery reads exactly the ping of the client that owns this sim, sent for the query being handled and this very process call |
| ProtocolTheorems.ClientReadsAnswer | is_client.cpp:109-136 | a client waiting for a verdict gets the verdict on its command; one waiting for data gets the next frame of the right state |
| ProtocolTheorems.CommandTravelsAlone | is_client.cpp:167-167 | the barrier ending query separates queries from commands: while a command is in flight no region is being read and every other queue is empty |
| ProtocolTheorems.OneCommandPerCall | is_sim.cpp:191-238 | commands are taken in script order, at most one per process call |
| ProtocolRanks.RanksAgree | is_sim.cpp:208-262 | although only rank 0 sees commands, every rank has executed a prefix of those that rank 0 has, the longer the more calls it has made; two ranks at the same call have executed the same commands and hold the same connection under the same clientPort |
| ProtocolTheorems.ListenerRuns | is_sim.cpp:102-190 | the listener runs exactly while no client is connected and no CONNECT is recorded; a recorded CONNECT means no connection and names the client that waits |
| ProtocolTheorems.RecordedConnectIsServed | is_sim.cpp:178-237 | a recorded CONNECT is neither overwritten nor cleared before its client has been connected and sent a verdict |
| ProtocolTheorems.OneVerdictEach | is_sim.cpp:84-98 | there are exactly as many verdicts as commands the root has received, less the CONNECT it is about to answer; all are 0 but possibly the last, which is 1 only once the simulation is done |
| ProtocolVerdicts.VerdictsCounted | is_sim.cpp:198-226 | seen from the client: one verdict on every command that rank 0 is past, at most one on the one it is at, and no more |
| ProtocolVerdicts.VerdictsAreObeyed | is_client.cpp:170-237 | a client past a command has been sent 0 for it (a DISCONNECT apart), and one that closed at a command has been sent 1: one verdict each, and both sides agree on it |
| ProtocolTheorems.QuitStopsAll | is_client.cpp:246-268 | after a verdict of 1, client ranks close at that very command, none is past it, and no ping or command is sent any more |
| ProtocolTheorems.LoopMeansQueryRuns | is_client.cpp:84-140 | while any client reads regions, rank 0 is in the same query and the simulation has not begun to quit |
| ProtocolProgress.StepDecreases | is_sim.cpp:191-298 | every step lowers a natural number made of frames, commands, calls and program counters to come |
| ProtocolProgress.RunsAreBounded | is_client.cpp:82-169 | no run is longer than that number at the start: every query ends |
| ProtocolLinks.KeepLinked | is_sim.cpp:261-261 | whoever is past a connect or accept proves that every rank it waits for has reached it, so all others get through as well |
| ProtocolLinks.NobodyConnectsAlone | is_sim.cpp:239-262 | while any rank holds a connection, or is past its accept, all simulation ranks have called connect on it and the client ranks it waits for have called accept |
| ProtocolDeadlock.StuckExactlyWhenFinal | is_sim.cpp:72-298 | a reachable state in which nobody can step is exactly one of five final states |
| ProtocolDeadlock.QueryNeverDeadlocks | is_sim.cpp:275-298 | while any client has a query or a disconnect before it or under way, somebody can step |
| ProtocolDeadlock.OnlyUnrecordedConnectsHang | is_sim.cpp:132-187 | a command left unanswered for ever is a CONNECT that the listener thread did not record, or was no longer there to take |
| ProtocolSchedules.SimulationEndsExactly | is_sim.cpp:72-101 | in every run all simulation ranks reach their end, exactly if the client disconnects or has more commands than there are process calls |
| ProtocolSchedules.EveryCommandAnsweredExactly | is_sim.cpp:132-187 | every command is answered in every run, exactly if there is no command: any program may be too late |
| ProtocolSchedules.HangsExactlyWithoutVerdict | is_client.cpp:183-237 | in a stuck state, a client rank that has commands to go is left waiting exactly when the simulation has sent no verdict on the command it is at |
| ProtocolSchedules.RecordedConnectIsAnswered | is_sim.cpp:178-237 | if a CONNECT is recorded anywhere in a run, then a stuck state after it has the verdict on it |
| ProtocolSchedules.RefusedHappens | is_sim.cpp:148-150 | for any program that connects there is a run in which nobody listens any more |
| ProtocolSchedules.StrandedHappens | is_sim.cpp:148-150 | and one in which its CONNECT is taken off the socket and never recorded |
| ProtocolSchedules.AbandonedHappens | is_sim.cpp:84-86 | for any program that stays connected, and enough calls to execute it, there is a run in which the destructor waits for ever |
| Partition.ClientRange | is_client.cpp:88-97 | query()'s branches compute the size and start of the client's block |
| Partition.RangesAbut | is_client.cpp:105-110 | each client's block starts where the previous one ends |
| Partition.RangesPartition | README.md:33-37 | the blocks start at 0, end at M, and differ in size by at most one |
| Partition.MoreFirst | is_client.cpp:91-96 | the clients that get one simulation rank more are the first ones |
| Partition.CountIsRoundRobin | is_client.cpp:88-97 | each client gets as many as if they were dealt one at a time: those s with s mod N its rank |
| Partition.DivisionIsUnique | is_client.cpp:88-97 | no other sizes that differ by at most one and never grow add up to M |
| ProtocolCalls.RootCallsAreProcess | is_sim.cpp:191-238 | over any run, between two completed calls rank 0 changes its fields, broadcasts and answers as the method does, given the command found when the call began, whatever the other ranks do in between |
| ProtocolCalls.FollowerCallsAreProcess | is_sim.cpp:207-238 | over any run, the broadcasts at the head of another rank's queue when it begins a call are those of one call, and the call changes its fields as the method does with them |
| ProtocolCalls.RootCallDone | is_sim.cpp:72-101 | the same for the destructor, and for any single call from its first step on |
| ProtocolCalls.FollowerCallDone | is_sim.cpp:86-98 | the same on the other ranks |
| CommandCodes.CallByScript | is_sim.cpp:191-238 | over any run, a call of process on rank 0 follows the client's script: it announces 1 and connects, announces 2 and keeps its connection, or announces 3, drops it and listens again, with one 0 for the client each; or it has nothing to do and says so |
| CommandCodes.CodesInFlight | is_command.h:7-7 | in every reachable state the integer that rank 0 may read next is 2 for a query and 3 for a disconnect, and a recorded command is 1 |
| CommandCodes.SentByNumber | is_client.cpp:183-231 | sendCommand puts 2 for a query and 3 for a disconnect on the intercommunicator, and a connect on the socket |
| CommandCodes.ConnectedCall | is_sim.cpp:198-236 | a connected rank 0 keeps its connection on 2, drops it and listens on 3, and throws on every other integer, 1 included |
| CommandCodes.RecordedCall | is_sim.cpp:220-226 | a recorded 1 is connected to the recorded port and answered with 0, and throws if a client is connected |
| CommandCodes.FollowerByNumber | is_sim.cpp:212-236 | another rank does the same with a broadcast integer, with rank 0's port, and throws on exactly the same ones |
| CommandCodes.EndByNumber | is_sim.cpp:81-98 | the destructor tells a client 1, whether its command is 1, 2 or 3 |
| CommandCodes.RootStepByNumber | is_sim.cpp:198-236 | in the step relation rank 0 waits for a ping after 2, listens after 3 and fails on anything else |
| CommandCodes.FollowStepByNumber | is_sim.cpp:212-246 | and another rank waits for a port after 1, for a ping after 2, is free after 3 and fails on anything else |
| CommandCodes.RootFailsExactly | is_sim.cpp:220-246 | rank 0 fails in a step exactly on a message of another kind, a number that is no command there, or a second connect |
| CommandCodes.RankFailsExactly | is_sim.cpp:207-246 | so do the other ranks, and a rank whose ping is not the one of the client that it polled |
| CommandCodes.FrameFailsExactly | is_client.cpp:112-136 | a client fails exactly on a frame of another kind than its receive loop asks for |
| CommandCodes.VerdictFailsExactly | is_client.cpp:177-227 | and exactly on something other than a verdict where one is due |
| ConnectionManager.ConnectionManager.ConnectClient | is_sim.cpp:239-262 | throws exactly when connected; otherwise all ranks use rank 0's port |
| ConnectionManager.ConnectionManager.DisconnectClient | is_sim.cpp:263-274 | drops the connection, and on rank 0 listens again |
| ConnectionManager.ConnectionManager.ListenForClient | is_sim.cpp:178-187 | the listener's critical section records port and command and stops listening |
| SimulationConnection.OneMore | is_client.cpp:183-237 | one more command keeps the order that the protocol expects exactly when it is CONNECT without a session or another one within a session |
| SimulationConnection.SessionsJoin | is_client.cpp:246-268 | the commands of successive connections make up one script in the order that the protocol expects |
| ProtocolClientCalls.StepsAreSendCommand | is_client.cpp:183-237 | over any run, the send, the wait for the verdict, the barrier and the broadcast of one command leave every client rank with the verdict that the simulation sent on this very command |
| ProtocolClientCalls.StepsAreConnectSim | is_client.cpp:170-182 | over any run, once accept has returned every client rank ends up with the verdict that the simulation sent on this CONNECT |
| SimulationConnection.Client.Connect | is_client.cpp:246-256 | an unreachable simulation changes nothing; otherwise there is a new connection exactly if the verdict is 0, it has sent one CONNECT, and an older one has sent its DISCONNECT |
| SimulationConnection.Client.Query | is_client.cpp:258-268 | sends one QUERY; the regions are read exactly if the verdict is 0, and a verdict of 1 drops the connection without any further command |
| SimulationConnection.Client.Disconnect | is_client.cpp:72-81 | sends one DISCONNECT exactly if connected, and leaves no connection: the commands of any program are in the protocol's order |
| SimStates.FramesGuideReceiver | is_client.cpp:117-136 | while a state's frames arrive in order, the receive loop accepts exactly frames of the kind that comes next, and stops right after the last |
| SimStates.AssembleFrames | is_sim.cpp:287-297 | receiving the frames rebuilds the state for any iteration order of the map, but for particles numbering a multiple of 2^32 |
| SimStates.SimStateHandle.SetField | is_sim.cpp:363-377 | stores the field under its own name, replacing only an older one of that name: n, 4n or 8n bytes, cut to 64 bits, with stride 1, 4 or 8 for UINT8, FLOAT or DOUBLE |
| SimStates.SimStateHandle.SetBuffer | is_sim.cpp:378-388 | the same for a one-dimensional buffer |
| SimStates.SimStateHandle.SetParticles | is_sim.cpp:389-401 | replaces the particles, counting bytes of particles and ghosts |
| HandshakeProofs.SocketsMatchRanks | intercomm.cpp:195-398 | whatever the order of arrival, socket c of sim s and socket s of client c are the two ends of one connection, and the vectors have N and M entries |
| HandshakeProofs.AcceptsExactlyM | intercomm.cpp:338-391 | an accept loop ends after exactly M connections, one per dialer, even if dialer 0 comes last, and leaves none waiting |
| HandshakeProofs.RateLimited | intercomm.cpp:229-261 | at most 32 connections to rank 0 await their reply at a time |
| HandshakeProofs.OneBatchEach | intercomm.cpp:268-269 | dialer s is in batch s / 32 and no other, and there are as many batches as it takes |
| HandshakeProofs.BatchesInOrder | intercomm.cpp:229-300 | connections are made batch by batch: to rank 0 by dialers 0 to 31, then 32 to 63 and so on, all of these before any to another rank, and those in the same order |
| HandshakeProofs.ConnectNeedsAll | intercomm.cpp:318-332 | nobody gets past its connection to rank 0 before every accepting rank has sent its name |
| HandshakeProgress.HandshakeSteps | intercomm.cpp:195-398 | until connect and accept have returned everywhere, somebody can step |
| HandshakeProgress.CompleteRuns | intercomm.cpp:195-398 | all orders of steps are equally long, and complete exactly when all work is done: the handshake terminates |
| InterComm.SocketInterComm.AcceptRoot | intercomm.cpp:338-397 | rank 0's loop with the number of connections unknown at first: takes exactly M, and indices are ranks |
| InterComm.SocketInterComm.AcceptOther | intercomm.cpp:371-397 | the other ranks' loop: indices are ranks |
| InterComm.SocketInterComm.FillSockets | intercomm.cpp:393-397 | the vector holds each connection at its rank, for any iteration order of the hash map |
| InterComm.SocketInterComm.Send | intercomm.cpp:400-411 | for any positive partial transfers, all bytes are handed over once and in order |
| InterComm.SocketInterComm.Recv | intercomm.cpp:413-424 | for any positive partial transfers, exactly the next bytes of the stream, nothing beyond the buffer |
| InterComm.SocketInterComm.ProbeAll | intercomm.cpp:435-456 | the first rank with data, or -1 exactly when there is none |
| ByteStreams.RecvGivesNextBytes | intercomm.cpp:400-424 | with both ends running concurrently and cut up anyhow, each completed recv holds the next bytes sent |
| ByteStreams.NeverStuck | intercomm.cpp:400-424 | when the receiver asks for what is sent, one of the two loops can always go on, whatever the kernel's capacity |
| ByteStreams.RunsEnd | intercomm.cpp:400-424 | both loops terminate |
| Encoding.ReadWritten | is_buffering.h:54-109 | reading with the type it was written with gives a value back and leaves trailing bytes untouched |
| Encoding.WrittenRead | is_buffering.h:54-80 | whatever is read is exactly what writing that value would have put there |
| Encoding.BlockIsElements | is_buffering.h:73-89 | an array written as one block of memory is what its elements are one by one |
| Encoding.WordBytes | is_buffering.h:84-88 | the bytes of a 32-bit and of a 64-bit number, lowest first |
| Encoding.SizesInFront | is_buffering.h:83-109 | strings and vectors have their length in eight bytes in front, arrays have none, and element i of width w lies at w times i |
| Encoding.TruncatedFails | is_buffering.cpp:29-36 | a value cut short is never read as a complete one |
| Encoding.ReadWrittenSequence | is_buffering.cpp:11-26 | any sequence of values of any types reads back |
| Buffering.GrowthIsAmortised | is_buffering.cpp:38-46 | over any run of writes resizing moves at most 3 times the bytes written, and the allocation stays within max(initial, 2 times that) |
| Buffering.GrownBy | is_buffering.cpp:40-42 | a buffer that is too small gets the least capacity that is half as large again and has room for the data on top |
| Buffering.WriteBuffer.Write | is_buffering.cpp:39-46 | appends, and accounts for growth |
| Buffering.WriteBuffer.Put | is_buffering.h:84-100 | the operators << append exactly the value's bytes |
| Buffering.ReadBuffer.Read | is_buffering.cpp:29-36 | the next bytes, or an error and no movement, exactly when there are too few |
| Buffering.ReadBuffer.Get | is_buffering.h:54-80 | the operators >> move the cursor by exactly the bytes written, or fail exactly when the bytes run out |
| WireFormat.StateRoundTrip | is_simstate.cpp:65-142 | a whole state is received, for any map order, but for particles whose number is a multiple of 2^32; exactly the bytes sent are consumed |
| WireFormat.StateArrivesWhole | is_simstate.cpp:134-142 | it is received as it was sent exactly when the number of particles is not a multiple of 2^32, or there are no particles, ghosts or array at all |
| WireFormat.GhostsAlone | is_simstate.cpp:134-142 | a rank with no particles of its own and one ghost: the ghost does not arrive |
| WireFormat.BufferRoundTrip | is_simstate.cpp:65-92 | a buffer's name, type, dims, stride and bytes come back |
| WireFormat.ParticlesRoundTrip | is_simstate.cpp:99-121 | particles come back from their fixed-size header |
| WireFormat.HeaderRoundTrip | is_simstate.h:108-117 | the packed header comes back |
| WireFormat.HeaderLayout | is_simstate.h:108-117 | its 88 bytes, field by field |
| WireFormat.BufferLayout | is_simstate.cpp:65-73 | a buffer's bytes, field by field, with 0 to 3 for the types |
| WireFormat.ParticlesLayout | is_simstate.cpp:99-106 | the particles' bytes, field by field |
| WireFormat.StateLayout | is_sim.cpp:287-297 | a state is its header, its buffers in the order of iteration, and the particles if the header announces them |
| StateTransfer.SendBuffer | is_simstate.cpp:65-73 | puts a buffer's bytes on the stream |
| StateTransfer.RecvBuffer | is_simstate.cpp:74-92 | takes a buffer and exactly its bytes off the stream |
| StateTransfer.SendParticles | is_simstate.cpp:99-106 | puts the particles' bytes on the stream |
| StateTransfer.RecvParticles | is_simstate.cpp:107-121 | takes the particles and exactly their bytes off the stream |
| StateTransfer.SendState | is_sim.cpp:287-297 | puts header, buffers and announced particles on the stream |
| StateTransfer.HandleQuery | is_sim.cpp:275-298 | answers the first client that has written, and only it, with the whole state |
| StateTransfer.RecvState | is_client.cpp:117-136 | one round of the region loop takes one state off the stream |
| StateTransfer.Query | is_client.cpp:88-140 | the region loop: one ping to each own sim, and their states in order |
| Grid.ComputeDivisor | vec.h:126-136 | the least divisor above 1 of a composite number, and false exactly for 0, 1 and primes |
| Grid.ComputeGrid | vec.h:138-152 | axis j is the product of the prime factors at positions congruent to j mod 3 |
| Grid.DealtRound | vec.h:138-152 | the first three factors go to axes 0, 1 and 2, and then it starts over |
| Grid.FactorsArePrimes | vec.h:143-150 | those factors are primes in ascending order with the number as their product |
| Grid.SortedPrimesAreFactors | vec.h:143-150 | and there is only one such list |
| Grid.GridMultiplies | vec.h:138-152 | the axes multiply to the number of ranks |
| Grid.GridIsBalanced | vec.h:138-152 | the order of the axes is fixed by the number of prime factors, and the largest is at most the smallest times the largest prime factor |
| Grid.PrimeInARow | vec.h:138-152 | a prime number of ranks stands in a row along axis 0 |
| VolumeBrick.RanksAreCells | examples/volume_example_sim.cpp:149-151 | rank x + gx (y + gy z) is the cell (x, y, z), and every rank is one such |
| VolumeBrick.GridIsOrdered | vec.h:138-152 | which of x, y and z is the longest axis and which the shortest, by the number of prime factors; p ranks give (p, 1, 1) |
| VolumeBrick.ComputeBrick | examples/volume_example_sim.cpp:148-156 | the grid with its axes in order, and the place, size and lower corner of a rank's brick |
| VolumeBrick.BrickOfRank | examples/volume_example_sim.cpp:149-156 | a brick begins where those before it along each axis end, and is as large as the volume has room for |
| VolumeBrick.BricksTile | examples/volume_example_sim.cpp:153-156 | bricks are disjoint, and together exactly the box of grid times brick voxels |
| VolumeBrick.BricksCoverVolume | examples/volume_example_sim.cpp:153-156 | bricks lie in the volume, and cover it exactly when the grid divides it |
| VolumeRead.LoadRawVolume | examples/volume_example_sim.cpp:213-266 | the chunk loop returns the brick's bytes but for the last z mod n_chunks slices, which stay zero |
| VolumeRead.SubarrayVoxel | examples/volume_example_sim.cpp:242-256 | byte b of voxel (x, y, z) of a box comes from byte b of voxel (x, y, z) + offset of the file |
| VolumeRead.LoadedVoxel | examples/volume_example_sim.cpp:229-264 | the same for the chunked read, for every voxel of the slices that it reads, and zero for the others |
| VolumeRead.ElementsPerRead | examples/volume_example_sim.cpp:220-220 | as many voxels as fit 2^31 - 1 bytes |
| VolumeRead.NChunks | examples/volume_example_sim.cpp:221-222 | the least number of reads that is enough for all voxels |
| VolumeRead.ChunkThickness | examples/volume_example_sim.cpp:223-223 | as many slices per chunk as there are for all of them |
| VolumeRead.ChunksFitReads | examples/volume_example_sim.cpp:220-241 | no chunk exceeds 2^31 - 1 bytes |
| VolumeRead.SlicesMustFit | examples/volume_example_sim.cpp:216-223 | anything is read exactly when a slice fits one read, and fewer slices are lost than there are chunks |
| VolumeRead.WholeBrickIffDivides | examples/volume_example_sim.cpp:232-264 | the chunked read equals the brick for all files exactly when n_chunks divides its slices |
| VolumeRead.ThreeSlicesLoseOne | examples/volume_example_sim.cpp:221-238 | a brick of three slices of 2^30 bytes loses its last one |
| VolumeSim.LoadVolumeBrick | examples/volume_example_sim.cpp:141-187 | a rank's brick, its type and its voxels; throws exactly for uint16 |
| VolumeSim.PublishBrick | examples/volume_example_sim.cpp:92-117 | the brick becomes a field with all of its bytes: the voxel size is the stride |
| VolumeSim.EveryVoxelOnce | examples/volume_example_sim.cpp:148-187 | of all ranks' fields exactly one holds a given voxel, at its place in that brick, and it is the file's unless its slice is not read |

## Left out

- Sockets, name lookup, `poll`, threads and MPI themselves: only their effects are modelled (FIFO channels, broadcasts, barriers, positive partial transfers, subarrays copied x fastest). `MPIInterComm` is a thin wrapper around them.
- Errors and exceptions from system calls, zero or negative transfer counts, malformed headers and peers that do not follow the protocol. The handshake's own `::send`/`::recv` calls are taken to move their few bytes at once.
- Several clients racing for the listening socket: there is one client at a time, with the same number of ranks in every session.
- The disconnect of the MPI intercommunicator, which synchronises both sides in some MPI libraries: `disconnect` only drops it.
- `query_async`, logging, timing, the gather of statistics, console output and sleeps.
- Whether the simulation's socket can be reached is a parameter of `Client.Connect`. In the protocol a client connects only while it is not connected, as nobody listens otherwise.
- Floating point: bounds travel as opaque bytes, and `std::sqrt` and `ceil(size * 1.5)` are the exact integer square root and ceiling.
- Ownership of arrays, borrowed or owned, and shared pointers: an array is its bytes.
- Wrap-around of `begin + nbytes` in `ReadBuffer::read` at 2^64, and byte order: the machine is little-endian.
- The LAMMPS driver, the Python script, the example client, particle stepping and `libISBoxExtend`: plumbing or easy claims.
- StateTransfer.HandleQuery: starts in the polling round in which some client has written; waiting for that is a disabled step of the protocol.
