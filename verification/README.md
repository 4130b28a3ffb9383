# PlugBoard: verified scheduler, threads, wiring and signal blocks

PlugBoard connects signal-processing blocks to a graph, turns the graph into a schedule of stages and paths, and runs
the schedule with or without threads. This project models the parts of it whose correctness takes an argument, and
proves that argument.

* **Scheduler** (`BlockGraph`, `SystemInit`, `ExecMatrix`, `Schedule`). Depth-first placement of the blocks, the fusion
  of one-output to one-input chains into paths, and the merging of independent neighbouring stages. Placement
  terminates on every graph and yields a dependency order exactly when the graph has no cycle; the final stage list is
  safe exactly then, too. Safe means that every connection leads to a later stage or to a later place of the same path.
* **What a schedule computes** (`BlockSemantics`, `Schedule`, `Dataflow`). A block's `process` is any finite number of
  atomic steps, each of which reads and writes the block's own state and the buffers at its ports. Every interleaving of
  the paths of a safe stage computes what the sequential run computes, and any two dependency orders of the blocks agree.
  For blocks that compute, emit and finish, a pass obeys a delivery law: every block has computed from the very signals
  that the pass has put into its in buffers. The law fixes the store after the pass.
* **Threads** (`BarrierProtocol`, `ThreadedStage`, `RoundTraces`, `ExecStage`). Boss and workers as a transition system
  over two generation-counting barriers, with other stages running between the rounds: rounds are complete and atomic,
  every round and every shutdown ends under any scheduling, and what the workers can do in a round are exactly the
  interleavings of their paths. The calibration that decides about threading is told by the number of executions alone;
  it compares 16 runs in turn with 16 runs by workers.
* **Running the system** (`SystemRun`, `Memoryless`, `ExecutionLoop`). What n calls of `ExecutionMatrix::exec` compute,
  however the threads are scheduled. A stage that is calibrated runs twice in each of its first 32 executions. So n
  executions are n rounds, for all blocks and all stores, exactly if no stage is threaded; from execution 32 on every
  execution is one round; and for blocks without memory all are.
* **Signal attributes and buffers** (`Ports`, `Propagation`, `SystemPorts`, `Initialization`). Propagation finds the
  unique solution of the attribute equations, succeeds exactly if that solution sets every out port and fits what the in
  ports were given, reports the first failure in the order of the connect calls otherwise, and gives every connection a
  buffer of its own, with ids in that order. This is why a store may name a buffer by its connection. `Initialization`
  puts the steps of `System::initialize` together.
* **UMTS scrambling codes** (`Scrambler`, `Gf2`, `Feedback`, `ShiftByTaps`, `DownlinkScrambling`,
  `LongUplinkScrambling`, `ShortUplinkScrambling`). The shift registers refine the recurrences of 3GPP TS 25.213, and
  the few taps that stand for a shift by 2^17 or 2^24 + 16 chips are right for every sequence that obeys the feedback
  rule: squaring a tap word modulo the feedback polynomial doubles the shift, and 17 or 24 squarings give the taps.
* **Streaming filters** (`MatchedFilter`, `FilterLaws`, `FadingChannel`). The circular buffer is a plain FIR filter over
  the whole past, however the stream is cut into frames; it is the only linear and time-invariant rule with the
  coefficients as its impulse response. Overlap-add puts out exactly the superposition of all responses.

Classes stand for the objects that the source updates in place, and each of their methods states its new state by way
of a specification function. Four places where the code does not do what one would expect are stated as exact
conditions: a system under calibration (`SystemRun.ExecutionsAreRounds`), the imaginary part of the short code
(`ShortUplinkScrambling.ImagIsStandard`), odd offsets of the long code (`LongUplinkScrambling.SecondIndexInRange`), and
workers that are never told to leave (`ExecStage.ExecutionStage.Destroy`).

Assumed throughout: no out port and no in port is used by two connect calls where `PortsUsedOnce` is required,
`initialize` is called once, blocks behave deterministically, and the environment's `threading` variable is set before
the system is initialized.

## Model

| member | source | states |
|---|---|---|
| `BlockGraph.OnlySourcesConnect` | system.cpp:351-354 | a block that is no Source has no recorded connection, so the cast to Source in the scheduler loses nothing |
| `BlockGraph.OneOutPortOneSuccessor` | exec_matrix.cpp:101-115 | a block that is not right-terminated feeds at most one block |
| `BlockGraph.OneInPortOnePredecessor` | exec_matrix.cpp:84-98 | a block that is not left-terminated is fed by at most one block |
| `BlockGraph.TopologicalImpliesAcyclic` | system.cpp:371-392 | a dependency order of all connections exists only without cycles |
| `BlockGraph.AcyclicMeansNoLoop` | system.cpp:349-354 | a graph is acyclic exactly if no list of connect calls leads from each to the next and back to the first |
| `SystemInit.BackEdgeClosesCycle` | system.cpp:107-123 | meeting a block that is still being visited proves a cycle |
| `SystemInit.Push` | system.cpp:109-117 | a newly placed block joins the recursion stack; the list stays the stack followed by the finished blocks |
| `SystemInit.Finish` | system.cpp:486-496 | a block whose successors are all placed becomes the first finished block, before all its successors |
| `SystemInit.System.PlaceBlock` | system.cpp:103-129 | a connected block ends up on the stack or finished (finished, if there is no cycle), and the list invariant is kept |
| `SystemInit.System.Linearize` | system.cpp:486-496 | all successors get placed and the finished part only grows, at its front and by blocks that something is connected to, for every graph and every order of successors |
| `SystemInit.System.PlaceStart` | system.cpp:378-391 | a start block ends up finished with everything it reaches; what was finished before stays so |
| `SystemInit.System.PlaceAll` | system.cpp:362-392 | the placed blocks are exactly the Sources and what they connect to, once each; the list is a topological order iff the graph is acyclic |
| `ExecMatrix.ExecutionMatrix.BlockIsPlaced` | exec_matrix.cpp:161-179 | true iff some stage holds the block |
| `ExecMatrix.ExecutionMatrix.AddBlock` | exec_matrix.cpp:182-195 | a Source becomes the first stage, any other block the last |
| `ExecMatrix.ExecutionMatrix.PlaceBlock` | exec_matrix.cpp:224-256 | the new stage comes right behind the first stage that holds the given block; without one nothing changes |
| `ExecMatrix.ExecutionMatrix.PushAndErase` | exec_matrix.cpp:336-341 | fusing moves the single block of a later stage to the end of the current path and loses nothing |
| `ExecMatrix.ExecutionMatrix.Look` | exec_matrix.cpp:301-342 | each look gives up on the stage, skips the next one or fuses the two, and keeps the invariant of the whole pass |
| `ExecMatrix.ExecutionMatrix.CombineStages` | exec_matrix.cpp:292-345 | it terminates with the same blocks, all paths are fusible chains and no path can be continued by a later one; from a dependency order it makes one in which block b follows block a in a path iff a connection joins them, a has at most one out port and b at most one in port |
| `ExecMatrix.FuseKeepsOrder` | exec_matrix.cpp:336-341 | pulling the fused block forward over all stages in between keeps the order topological |
| `ExecMatrix.FusibleIsJoinedAlone` | exec_matrix.cpp:84-115 | the two end tests let a connection pass iff it leaves a block with at most one out port and enters one with at most one in port |
| `ExecMatrix.PathsFollowLoneConnections` | exec_matrix.cpp:307-341 | after the pass two blocks stand next to each other in a path iff such a connection joins them |
| `ExecMatrix.ExecutionMatrix.AddPathAndErase` | exec_matrix.cpp:402-403 | the path of the next stage is added behind the paths of the current stage |
| `ExecMatrix.ExecutionMatrix.Parallelize` | exec_matrix.cpp:348-409 | the paths keep their order, no path end of a stage feeds a later path start of it, and each stage boundary is forced by a connection |
| `ExecMatrix.SeparatedByWires` | exec_matrix.cpp:355-409 | every stage but the first starts with a path that a connection from the end of a path of the stage before leads to |
| `ExecMatrix.CrossEdgeJoinsEndToStart` | exec_matrix.cpp:84-115 | a connection between two chains leads from the last block of one to the first block of the other |
| `ExecMatrix.EndTestsGiveSafety` | exec_matrix.cpp:355-409 | looking only at path ends and path starts is enough: the schedule is safe |
| `Schedule.SafeScheduleTopological` | exec_matrix.cpp:503-511 | calling the blocks of a safe schedule stage by stage and path by path respects every connection |
| `Schedule.SafeMeansForward` | exec_matrix.cpp:503-511 | a schedule is safe exactly if every connection leads to a later stage or to a later place of the same path |
| `Schedule.ScheduleCorrect` | system.cpp:399-410 | the combined and parallelized schedule is safe iff the graph is acyclic, and then its paths follow exactly the connections between only ports |
| `Schedule.CombineAndParallelize` | system.cpp:404-410 | from the placed blocks to the final stages: same blocks, once each, safe iff acyclic |
| `Schedule.Initialize` | system.cpp:358-414 | for every graph with a Source: all wanted blocks, once each; a safe schedule iff acyclic; paths are exactly the fusible runs |
| `Schedule.CombiningKeepsMeaning` | exec_matrix.cpp:292-345 | a pass over the fused paths leaves the same store as a pass over the placed blocks |
| `BlockSemantics.Perform` | exec_stage.cpp:275-283 | a step changes nothing but its block's own state and the buffers of its out ports, and these get what the step makes of the block's view |
| `BlockSemantics.ActionsCommute` | exec_stage.cpp:255-283 | steps of two blocks that no connection joins commute |
| `BlockSemantics.TopologicalOrdersAgree` | exec_matrix.cpp:503-511 | any two dependency orders of the same blocks compute the same store |
| `BlockSemantics.FullyInterleaved` | exec_stage.cpp:255-259 | any interleaving of pairwise unconnected step lists equals running them one after the other |
| `Dataflow.OneCall` | exec_stage.cpp:275-283 | a call of process that computes, emits and finishes puts the emitted values into the buffers of the block's out ports |
| `Dataflow.PassDelivers` | exec_stage.cpp:275-283 | after a pass in a dependency order every out buffer holds what its block computed in the pass, from the very signals that the pass has left at its in ports |
| `Dataflow.DeliveryIsUnique` | exec_stage.cpp:275-283 | this law fixes every state and every signal after the pass |
| `Dataflow.SignalCrosses` | exec_stage.cpp:275-283 | a signal crosses any number of blocks that pass it on within one pass |
| `Dataflow.StageDelivers` | exec_stage.cpp:255-269 | a run of a stage obeys the law for its blocks, whatever the interleaving |
| `Dataflow.SystemDelivers` | exec_matrix.cpp:503-511 | every execution of an initialized acyclic system from number 32 on, and every one without threaded stages, obeys the law for all its blocks |
| `Schedule.StageRunIsSequential` | exec_stage.cpp:255-269 | the threaded branch and the sequential branch of a stage compute the same store, under every scheduling |
| `Schedule.PassIsSequential` | exec_matrix.cpp:503-511 | a pass that runs each stage a given number of times, its paths interleaved in any way, equals running the paths in turn as often |
| `Schedule.PassRunExists` | exec_matrix.cpp:503-511 | in a pass any stage may be run by any interleaving of its paths |
| `Schedule.OneTurnEach` | exec_matrix.cpp:503-511 | a pass that runs every stage once is a pass over the blocks in flattened order |
| `BarrierProtocol.InvStep` | thread_mgm.cpp:44-108 | every step of boss or worker, and every change that other stages make between rounds, keeps the invariant that tells who is where and what has been done |
| `BarrierProtocol.InvExecution` | thread_mgm.cpp:44-108 | the invariant holds after every run |
| `ThreadedStage.WorkersRunBetweenBarriers` | thread_mgm.cpp:94-107 | a worker runs its path only between the before-barrier and the after-barrier of the boss's current round |
| `ThreadedStage.RoundsAreComplete` | thread_mgm.cpp:44-61 | back from sync_post_process, every worker has run exactly once per round, none has begun the next, and each round did what sequential runs do to the store it started from |
| `ThreadedStage.ShutdownIsClean` | thread_mgm.cpp:64-75 | after shutdown_now no path runs and the store keeps still; the barriers are deleted last, when all workers have left |
| `ThreadedStage.ThreadedStageIsSequential` | exec_stage.cpp:255-259 | every round leaves the store as one sequential pass over the stage leaves the store that the round started from, whatever other stages did in between |
| `ThreadedStage.NoDeadlock` | thread_mgm.cpp:90-108 | while the boss waits for something, some thread can move |
| `ThreadedStage.WorkersWaitForSomeone` | thread_mgm.cpp:90-108 | a worker waits only at one of the barriers, and only while some thread has not arrived there |
| `ThreadedStage.BossWaitsForSomeone` | thread_mgm.cpp:44-75 | the boss waits only at a barrier that some worker has not reached, or for a worker that has not left |
| `ThreadedStage.StepsRunOut` | thread_mgm.cpp:90-108 | every step of a thread brings the round or the shutdown nearer to its end |
| `ThreadedStage.EveryRoundEnds` | thread_mgm.cpp:38-61 | when no thread can move any more, the round is over, every worker has run once more and the store is that of one sequential run of all paths |
| `ThreadedStage.ShutdownEnds` | thread_mgm.cpp:64-75 | when no thread can move any more, all workers have left without another run, the barriers are gone and the store is unchanged |
| `RoundTraces.RoundsAreInterleavings` | thread_mgm.cpp:38-61 | the steps that the workers make in a round are an interleaving of the paths of the stage, and every interleaving is made by some round |
| `RoundTraces.TraceToStore` | thread_mgm.cpp:90-108 | these steps are all that the threads do to the store |
| `RoundTraces.BetweenRounds` | exec_stage.cpp:255-259 | between two rounds other stages may do anything to the store, and a round or the shutdown may begin |
| `ExecStage.ExecutionStage.constructor` | exec_stage.cpp:94-102 | a new stage is calibrating, without threads, paths or executions |
| `ExecStage.ExecutionStage.AddPath` | exec_stage.cpp:185-194 | threading is turned on exactly by a second path in an environment that allows it |
| `ExecStage.ExecutionStage.SetupThreading` | exec_stage.cpp:322-341 | one worker for each path iff the stage is threaded |
| `ExecStage.ExecutionStage.ExecPaths` | exec_stage.cpp:262-268 | the sequential branch runs all paths in order, as one run in turn |
| `ExecStage.ExecutionStage.ExecThreads` | exec_stage.cpp:255-259 | with a worker for each path, the threaded branch leaves the store of the sequential one, by one run of the workers |
| `ExecStage.ExecutionStage.Measure` | exec_stage.cpp:208-237 | a run of the kind that testMulti says, in turn or by workers, is made and measured, and its time goes to the sum of the runs of that kind |
| `ExecStage.ExecutionStage.Decide` | exec_stage.cpp:238-253 | the decision is taken in the execution numbered 31 and in no other |
| `ExecStage.ExecutionStage.Exec` | exec_stage.cpp:203-272 | from whatever store: while calibrating a measured run of the kind whose turn it is, then a run that is by workers iff threading is enabled after the decision; the accounting is told by the execution count |
| `ExecStage.ExecutionStage.SixteenOfEach` | exec_stage.cpp:203-253 | measurement k was of a run by workers iff k is odd; the decision compares the sums of 16 runs in turn and of 16 runs by workers, and is never taken again |
| `ExecStage.ExecutionStage.OncePerExecution` | exec_stage.cpp:203-272 | after n executions every path has run n + min(n, 32) times if threading was on, n times otherwise |
| `ExecStage.ExecutionStage.Destroy` | exec_stage.cpp:344-353 | shutdown_now is called iff threading is on at the end; workers stay behind iff the calibration had turned it off |
| `SystemRun.ParallelRefinesSequential` | exec_matrix.cpp:503-511 | n executions, with the runs that the calibration takes and under any scheduling of the threads, leave the store of the same runs in turn |
| `SystemRun.SettledExecution` | exec_stage.cpp:203-272 | an execution with a number from 32 on, or without threaded stages, is one sequential pass in any dependency order |
| `SystemRun.CallsInAll` | system.cpp:417-423 | n executions call the process of a block n times, and min(n, 32) times more if its stage is threaded |
| `SystemRun.ThreadedDiffers` | exec_stage.cpp:208-253 | with a threaded stage, blocks that count their calls tell n >= 1 executions from n rounds |
| `SystemRun.ExecutionsAreRounds` | system.cpp:417-423 | n >= 1 executions are n rounds in any dependency order, for all blocks and stores, iff no stage is threaded |
| `SystemRun.InitializedSystemIsDeterministic` | system.cpp:358-423 | what an initialized acyclic system computes in n executions does not depend on the scheduling of its threads |
| `SystemRun.InitializedSystemSettles` | system.cpp:358-423 | its executions are rounds in any dependency order: all of them if no stage is threaded, those from number 32 on always |
| `Memoryless.PassRepeats` | exec_stage.cpp:208-268 | running a stage again changes nothing if none of its blocks has memory |
| `Memoryless.MemorylessIsRounds` | system.cpp:417-423 | if no block has memory, n executions are n rounds even while stages are calibrated |
| `ExecutionLoop.AssembleStage` | exec_stage.cpp:185-194 | a stage object that got its paths one by one is threaded iff threads are allowed and there is more than one, and has its workers then |
| `ExecutionLoop.ExecStages` | exec_matrix.cpp:503-511 | one execution of all stage objects on the store they share: each runs as often as its calibration says |
| `ExecutionLoop.WakeupSys` | system.cpp:417-423 | after any number of calls the shared store is the one that the executions so far lead to |
| `Ports.OutPort.Connect` | port/port_out.cpp:53-90 | the own attributes must be set, and what is set at the in port must agree, sample time before type before frame size; then all three are handed over, otherwise nothing changes |
| `Ports.OneOutcome` | port/port_out.cpp:53-90 | of every connection exactly one thing becomes; it succeeds iff the sending port has all attributes and what the receiving port lacks can be filled in to the same |
| `Propagation.SetupStep` | system.cpp:161-165 | setting up a block keeps all equations that hold so far and adds the block's own |
| `Propagation.WireStep` | system.cpp:136-146 | a connect call meets an in port that still has its preset, adds its equation and breaks none |
| `Propagation.AgreesWithSolution` | system.cpp:154-178 | at every point the attributes computed so far are those of any solution |
| `Propagation.SolutionUnique` | system.cpp:499-507 | an acyclic graph has at most one solution, so the result does not depend on the order that was used |
| `Propagation.SolutionExists` | system.cpp:499-507 | an acyclic graph has a solution, whatever the in ports were given |
| `Propagation.DrivenIsProper` | block/port_traits.hpp:103-105 | if every in port is driven or was given proper attributes, and setups keep attributes proper, the solution sets every out port |
| `Propagation.AttributesTravel` | system.cpp:161-171 | a block that forwards an in port gives its out port the attributes of the connection into it, or those that the in port was given |
| `Propagation.CallsInOrder` | system.cpp:166-171 | the calls of a block are made in the order in which they were recorded |
| `SystemPorts.PortTable.CreateSignalBuffer` | system.cpp:464-471 | the new buffer has the given type and size, its index is returned, and the count stays the number of buffers |
| `SystemPorts.PortTable.SetBufferPtrs` | system.cpp:474-482 | both ends of the connection use the buffer |
| `SystemPorts.PortTable.MakeConnection` | system.cpp:132-151 | the connection is checked and made and gets a buffer that no other connection has, or nothing changes |
| `SystemPorts.PortTable.AddPort` | block/port_traits.hpp:88-112 | repeating an out port sets its attributes in place and touches nothing else, unless one of them is not set |
| `SystemPorts.PortTable.SetupOutputPorts` | system.cpp:161-165 | the out ports of a block become its setup function of its in ports, iff that sets all of them |
| `SystemPorts.PortTable.PropagateBlock` | system.cpp:154-178 | a Source sets up its ports and makes its calls in the recorded order; a failure is the first one in the solution; any other block is passed over |
| `SystemPorts.PortTable.PropagateSignalAttributes` | system.cpp:499-507 | for any setup functions: success iff in the unique solution every out port is set and every connection fits its presets; then the ports hold it, and buffers and connections correspond one to one, in the order of the calls; otherwise the outcome is that of the first port or connection that fails in this order |
| `SystemPorts.FailureDetermined` | system.cpp:154-178 | there is only one outcome that a first failure can have |
| `SystemPorts.PortTable.IdsRise` | system.cpp:464-471 | one buffer id is below another iff its block is placed before, or it is the same block and its call was recorded before |
| `SystemPorts.NeverUnset` | port/port_out.cpp:55-57 | the assertions on unset attributes never fail if all in ports are driven or preset and setups keep attributes proper |
| `SystemPorts.PortTable.BuffersOneToOne` | system.cpp:464-482 | the two ends of a connection share a buffer of the type and frame size of the out port, different connections never do, and there is no other buffer |
| `Initialization.InitializeSystem` | system.cpp:358-414 | for an acyclic graph, success exactly if the attribute solution is set and fits; then a safe schedule, solved attributes and one buffer for each connection; after a failure the blocks stay placed |
| `Gf2.SquareDoublesShift` | blocks/scrambler/scramble.cpp:273-309 | if a shift by d is a linear form, a shift by 2d is its square over GF(2) |
| `Feedback.FoldLongXTap` | blocks/scrambler/scramble.cpp:266-268 | reducing a tap word modulo the feedback polynomial of register A does not change the sum it takes |
| `Feedback.FoldLongYTap` | blocks/scrambler/scramble.cpp:282-288 | the same for register B |
| `Feedback.FoldDownlinkXTap` | blocks/scrambler/scramble.cpp:79-86 | the same for register X |
| `Feedback.FoldDownlinkYTap` | blocks/scrambler/scramble.cpp:95-107 | the same for register Y |
| `ShiftByTaps.LongXShift` | blocks/scrambler/scramble.cpp:270-276 | taps 4, 7 and 18 of any sequence with the feedback rule of x add up to x(i + 2^24 + 16) |
| `ShiftByTaps.LongYShift` | blocks/scrambler/scramble.cpp:293-300 | taps 4, 6 and 17 of any sequence with the feedback rule of y add up to y(i + 2^24 + 16) |
| `ShiftByTaps.DownlinkXShift` | blocks/scrambler/scramble.cpp:79-89 | taps 4, 6 and 15 add up to x(i + 2^17) |
| `ShiftByTaps.DownlinkYShift` | blocks/scrambler/scramble.cpp:95-119 | taps 5, 6 and 8 to 15 add up to y(i + 2^17) |
| `ShiftByTaps.DownlinkPeriod` | blocks/scrambler/scramble.cpp:54-64 | sequences with either downlink feedback rule repeat after 2^18 - 1 chips |
| `ShiftByTaps.LongPeriod` | blocks/scrambler/scramble.cpp:260-305 | sequences with either long-code feedback rule repeat after 2^25 - 1 chips |
| `DownlinkScrambling.IsStandard` | blocks/scrambler/scramble.cpp:54-126 | the chips are z_n(i) and z_n((i + 131072) mod (2^18 - 1)) of section 5.2.2 of 3GPP TS 25.213 |
| `DownlinkScrambling.NumberShifts` | blocks/scrambler/scramble.cpp:54-64 | without y the codes are shifts of one sequence, by their scrambling numbers |
| `DownlinkScrambling.RegisterXWindow` | blocks/scrambler/scramble.cpp:54-64 | register X holds the next 18 bits of its sequence at every step |
| `DownlinkScrambling.RegisterYWindow` | blocks/scrambler/scramble.cpp:95-123 | register Y holds the next 18 bits of its sequence at every step |
| `DownlinkScrambling.DownlinkScrambler.Skip` | blocks/scrambler/scramble.cpp:54-64 | the first loop clocks register X n times |
| `DownlinkScrambling.DownlinkScrambler.NextChip` | blocks/scrambler/scramble.cpp:66-127 | one step gives x(n+i) + y(i) and x(n+i+131072) + y(i+131072) as chips and clocks both registers once |
| `DownlinkScrambling.DownlinkScrambler.Generate` | blocks/scrambler/scramble.cpp:40-129 | both branches are the sequences of the standard, for every scrambling number |
| `LongUplinkScrambling.RegistersAlive` | blocks/scrambler/scramble.cpp:254-305 | both registers stay below 2^25 and never reach zero |
| `LongUplinkScrambling.IsStandard` | blocks/scrambler/scramble.cpp:260-309 | the two chips of a step are c_long,1 and c_long,2 of section 4.3.2.2 of 3GPP TS 25.213 |
| `LongUplinkScrambling.NumberInChips` | blocks/scrambler/scramble.cpp:246-258 | two codes differ at one of the first 24 chips iff their scrambling numbers differ at that bit |
| `Scrambler.ChipOfXor` | blocks/scrambler/scramble.cpp:240-240 | the mapping takes sums of bits to products of chips |
| `LongUplinkScrambling.SecondIndexInRange` | blocks/scrambler/scramble.cpp:321-324 | no chip reads c_long,2 before the start of its vector iff the offset is even |
| `LongUplinkScrambling.ImaginaryIsStandard` | blocks/scrambler/scramble.cpp:321-324 | the imaginary part of step i is (-1)^i c1(i) c2(2 floor(i / 2)) |
| `LongUplinkScrambling.LongUplinkScrambler.NextChip` | blocks/scrambler/scramble.cpp:262-305 | one step gives both chips and clocks both registers once |
| `LongUplinkScrambling.LongUplinkScrambler.StoreChip` | blocks/scrambler/scramble.cpp:309-325 | from the offset on, each step stores its chip and the product with the chip of the even step below |
| `LongUplinkScrambling.LongUplinkScrambler.Generate` | blocks/scrambler/scramble.cpp:238-328 | for every offset, the complex sequence of the standard from the offset on, but for the first imaginary chip if the offset is odd |
| `ShortUplinkScrambling.DigitSum` | blocks/scrambler/scramble.cpp:175-178 | the digit read from the registers is a(i) + 2 b(i) + 2 d(i) mod 4 and is mapped as the standard maps it |
| `ShortUplinkScrambling.PackNext` | blocks/scrambler/scramble.cpp:160-162 | each round of the first loop puts twice one bit of the scrambling number at its digit |
| `ShortUplinkScrambling.PackedIncrement` | blocks/scrambler/scramble.cpp:156-163 | register A starts with a(0) to a(7) |
| `ShortUplinkScrambling.ShortUplinkScrambler.ClockA` | blocks/scrambler/scramble.cpp:188-203 | one clock shifts in a(i + 8) = 3a(i) + 2a(i+1) + 3a(i+2) + a(i+3) + 3a(i+5) mod 4 |
| `ShortUplinkScrambling.ShortUplinkScrambler.ClockB` | blocks/scrambler/scramble.cpp:205-215 | one clock shifts in the next bit of b |
| `ShortUplinkScrambling.ShortUplinkScrambler.ClockD` | blocks/scrambler/scramble.cpp:217-225 | one clock shifts in the next bit of d |
| `ShortUplinkScrambling.ShortUplinkScrambler.Generate` | blocks/scrambler/scramble.cpp:138-228 | c_short,1 of section 4.3.2.3 of 3GPP TS 25.213 for every scrambling number, the imaginary part as the code defines it, and the scrambling number shifted out by 16 bits |
| `ShortUplinkScrambling.DigitParity` | blocks/scrambler/scramble.cpp:188-203 | the parity of the digits does not depend on the scrambling number |
| `ShortUplinkScrambling.ImagIsStandard` | blocks/scrambler/scramble.cpp:177-185 | an imaginary chip is the standard's iff the digit below it is even, which is the same set of chips for every scrambling number |
| `ShortUplinkScrambling.FirstChipsSpoiled` | blocks/scrambler/scramble.cpp:177-185 | the first two imaginary chips differ from the standard for every scrambling number |
| `MatchedFilter.WriteRecent` | blocks/block_RaisedCosineReceive.cpp:66-66 | the newest sample overwrites exactly the oldest one |
| `MatchedFilter.MatchedFilter.PutSample` | blocks/block_RaisedCosineReceive.cpp:123-130 | the sample enters the past and the buffer holds the latest samples, newest first |
| `MatchedFilter.MatchedFilter.Accumulate` | blocks/block_RaisedCosineReceive.cpp:68-77 | the sums over the two parts of the buffer are one FIR sum, in the order of the coefficients |
| `MatchedFilter.MatchedFilter.Filter` | blocks/block_RaisedCosineReceive.cpp:63-84 | the output is the sum of coeffs(k) x(m - k) over the whole past with zeros before the start, the one that `FilterLaws` pins down |
| `MatchedFilter.MatchedFilter.FilterFrame` | blocks/block_RaisedCosineReceive.cpp:101-113 | the outputs of a frame are every D-th output of the filter over the past followed by the frame |
| `MatchedFilter.NothingDropped` | blocks/block_RaisedCosineReceive.cpp:104-112 | all samples of a frame enter the buffer iff its length is a multiple of D |
| `MatchedFilter.DecimatedSplit` | blocks/block_RaisedCosineReceive.cpp:101-113 | a frame can be cut in two after a multiple of D samples |
| `MatchedFilter.FramesDoNotMatter` | blocks/block_RaisedCosineReceive.cpp:227-235 | for any frames whose lengths are multiples of D, the outputs are those of the whole stream in one piece |
| `FilterLaws.ImpulseResponse` | blocks/block_RaisedCosineReceive.cpp:63-84 | an impulse u brings out coeffs(0) u, coeffs(1) u, ..., and zeros after the last coefficient |
| `FilterLaws.ShiftInvariant` | blocks/block_RaisedCosineReceive.cpp:63-84 | zeros in front of a stream only delay the output, in any arithmetic |
| `FilterLaws.Additive` | blocks/block_RaisedCosineReceive.cpp:63-84 | the output for a sum of streams is the sum of the outputs |
| `FilterLaws.Homogeneous` | blocks/block_RaisedCosineReceive.cpp:63-84 | the output for a scaled stream is the scaled output |
| `FilterLaws.FilterResponds` | blocks/block_RaisedCosineReceive.cpp:63-84 | the filter respects sums, ignores leading zeros and has its coefficients as impulse response |
| `FilterLaws.ResponseFixesFilter` | blocks/block_RaisedCosineReceive.cpp:63-84 | any rule with these three properties is the filter |
| `FilterLaws.DecimatedIsEveryDth` | blocks/block_RaisedCosineReceive.cpp:101-113 | the outputs of a frame are the outputs 0, D, 2D, ... of the filter at every sample |
| `FilterLaws.Downsamples` | blocks/block_RaisedCosineReceive.cpp:101-113 | with a unit as the only coefficient the first of every D samples is left |
| `FadingChannel.FadingChannel.constructor` | blocks/block_FadingChannel.cpp:183-186 | the stream starts with a tail of zeros |
| `FadingChannel.FadingChannel.Process` | blocks/block_FadingChannel.cpp:193-205 | one frame puts out the start of its response plus the old tail and keeps the rest |
| `FadingChannel.OverlapAddIsExact` | blocks/block_FadingChannel.cpp:200-205 | after any number of frames, output and tail together are the sum of all responses, each shifted to the start of its frame |
| `FadingChannel.OneFrameHeard` | blocks/block_FadingChannel.cpp:200-205 | if all other frames are silent, the superposition is the response of the one frame, from its start on |
| `FadingChannel.SuperpositionIsLinear` | blocks/block_FadingChannel.cpp:200-205 | the superposition of sums is the sum of the superpositions |

## Left out

- The elements of the stage list are values, not objects with identity; moving iterators are indices into the list, and the iterator that `parallelize` compares after its `break` is a flag that says whether a conflict was found.
- The order in which `std::set` yields connections and in which the start blocks are sorted is arbitrary, since the comparator is no strict weak order; the theorems hold for every order.
- A block's `process` is a finite number of atomic steps; data races inside one step and non-terminating blocks are outside the model.
- Boost barriers, thread groups and IT++ vector slices are modelled by their documented behaviour; spurious failures to create a thread are not.
- Out ports connected twice, in ports connected twice, and a second `initialize` of the same system are excluded by preconditions.
- Propagation on a cyclic graph: the code runs it, the model claims nothing about it.
- ExecStage.ExecutionStage.ExecThreads: takes an arbitrary interleaving of the paths for a round of the workers; that the rounds of the barrier protocol are exactly these is proved in `RoundTraces`.
- MatchedFilter.MatchedFilter.FilterFrame: the overload that allocates its own output vector has the same loops and is not repeated; empty coefficient vectors and a factor of zero are excluded, as the block's parameters exclude them.
- FadingChannel.FadingChannel.Process: needs a tail of at least one and at most one frame's length; outside that range the vector slices of the code are invalid.
- FadingChannel adds real numbers without rounding; the FIR filter assumes no law of its arithmetic, so rounding is covered there, and only its linearity and its impulse response in `FilterLaws` ask for the usual laws.
- LongUplinkScrambling.LongUplinkScrambler.Generate: says nothing of the first imaginary chip of an odd offset, which the code computes from a value outside of its vector.
- ShortUplinkScrambling.ShortUplinkScrambler.Generate: c_short,2 and the imaginary part are those of the code, which uses the mapping row of c_short,1; the 256th chip of the standard is not generated.
- The wrap-around of `get_scrambling_sequence(samples)` in blocks/scrambler/scramble.hpp:60-75, which reads one sample too few per turn.
- The wrap-around of 32-bit and 64-bit counters (buffer ids, execution counts, loop indices).
- Assertions are modelled as they act in debug builds; in release builds an unset attribute is propagated.
- The append branch of `add_port` in block/block.cpp:421-448, which runs before `initialize`; afterwards every port name exists.
- Block names and port names that do not exist in `connect_ports`: the graph holds the calls that succeeded.
- Plugins, bindings, command line, parser, symbol table, environment, parameters, constraints, printing, and the blocks that delegate to IT++.
