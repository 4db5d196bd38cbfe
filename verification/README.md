# A model of SquidASM

SquidASM simulates the nodes of a quantum network. Its `stack` simulator is a small operating
system: on every node a processor interprets NetQASM subroutines, a network stack creates
entanglement with other nodes, and a handler starts and stops applications, all as coroutines
that share one qubit allocator, the applications' qubit maps and their arrays. On top of it run
quantum protocols. This project models that core and those protocols and proves what they are for.

## How the model is built

**Coroutines.** A coroutine gives up control only where it yields, so one stretch of code between
two yields is one step, and a run is any interleaving of steps. `NodeState`, `Handshake`,
`WaitAll`, `Lifecycle`, `Ghz` and `ClientProgram` are state machines of this kind, and their main
results hold for every run. Waiting for a foreign component becomes a step with a condition: a
communication qubit becoming free, a delivery by the link layer.

**Objects.** Code that updates objects in place is modelled by classes (`PhysicalQuantumMemory`,
`AppMemory`, `Qnos`, `PortListener`, `Processor`, `Handler`, `Interpreter`, `SignalingProtocol`,
`QuantumDevice`) and by methods over arrays. Each method is proved to make exactly the step of the
state machine that it is for, or to compute the specification function that the results are about.
Exceptions of the source are results that say so; `requires` clauses on the coroutines' methods
say at which point of its code a coroutine stands.

**Quantum states.** A state gives the real and the imaginary part of an amplitude for every basis
state (the set of qubits in |1>) and every value of an environment index. The environment covers
everything a qubit may be entangled with, and it records the qubits that were thrown away, so that
a reset is not assumed to act on an unentangled qubit. Amplitudes are not normalised: H and the
rotations over pi/2 are scaled by the square root of 2, so their entries are 0, 1, -1, i and -i.
Nature's measurement outcomes are parameters, and a theorem holds for all of them; the weight of an
outcome is the squared modulus of what remains. A rotation about Z by an angle is a unit phase `u`
on |1>, which is that rotation up to a global phase, and sums of angles are products of phases.

**What is proved.**

- `NodeState`, `Memory`, `QnosStack`: qubit conservation, no lost wake-up for a communication
  qubit, and no measurement that gets stuck, over every interleaving of processor, network stack
  and handler in which no step breaks one of these, with the exact conditions under which a step
  does and runs in which it happens.
- `NvCircuits`, `NvMeasurement`: the two circuits that move a qubit between electron and carbon, and
  a measurement through them as a refinement of an ideal measurement of a virtual qubit.
- `Handshake`, `Results`: the create and receive requests of any number of nodes never get stuck,
  pair up in order, handle the same number of pairs at both ends, and leave complete result arrays.
- `Listeners`, `WaitAll`: ports as FIFO channels with notifications, and the instruction that waits
  for a slice of an array.
- `Lifecycle`, `HandlerStack`: host, handler and processor over any number of program runs; the
  handler's methods act on the same node as the processor's.
- `Nqasm`, `ClientProgram`, `ClientBases`: the effect of every instruction, and a shipped NetQASM
  program, for any number of bases and repetitions.
- `Routines`, `Bqc`, `Ghz`: teleportation, distributed gates, blind computation, GHZ states.
- `Qkd`, `PurposeIds`, `PartialTranspose`: agreement and index kernels.

## Where the code does not do what one would expect

- Remapping a virtual ID that is mapped loses a physical qubit for good (`NodeState.RemapLosesQubit`,
  `NodeState.RemapCanLoseQubit`, `NodeState.LostForGood`).
  The client program maps virtual ID 0 for every pair; this is sound only because NV hardware has one
  communication qubit, so that no pair can be delivered before the last one was freed.
- `clear_application` frees qubits without sending the signal that the network stack waits for. A
  network stack blocked at that moment sleeps on although a qubit is free (`NodeState.StopCanLoseWakeup`).
- If the network stack holds the electron when the measurement of a carbon begins, the search for the
  electron's owner can raise an exception (`NodeState.RelocationCanFail`). It cannot if the network
  stack does not hold it then, whatever the other coroutines do meanwhile (`NodeState.SearchSucceeds`).
- A signal that was sent before the processor blocked wakes it with an empty buffer, and `pop` raises
  (`WaitAll.StaleSignalIsReachable`, and exactly when in `WaitAll.CrashesExactly`).
- With `should_clear_memory` off, the handler only ever looks at the first application, so a second
  program run that commits a subroutine never gets an answer (`Lifecycle.EveryRunEnds`).
- The documentation of `handle_create_ck_request` (`squidasm/sim/stack/netstack.py:263-285`) promises
  that local gates correct the pair to Phi+; the code applies none and only reports the Bell state.
- For kept pairs the creator stores the Bell state as an enumeration member, the receiver as that
  member's value. Both mean the same state, but the entries are equal, and the creator's entry can be
  loaded into a register, only if the enumeration's members are integers (`Results.BellStatesAgree`).
- An application's memory is created with one virtual qubit per physical qubit, not with the number
  that the application asks for.

## Model

| member | source | states |
|---|---|---|
| NodeState.LowestFree | squidasm/sim/stack/common.py:374-396 | the scan gives the lowest free eligible qubit, and nothing exactly when there is none |
| NodeState.QAllocTakesLowest | squidasm/sim/stack/processor.py:730-743 | an allocation gives its virtual ID the lowest free qubit of its side (any qubit on generic hardware; on NV hardware a communication qubit for IDs up to 0 and a memory qubit above), changes nothing else, and is refused exactly when that side has no free qubit |
| NodeState.QFreeReleases | squidasm/sim/stack/processor.py:300-311 | freeing gives back the qubit that the virtual ID was mapped to, unmaps that ID only, and signals |
| NodeState.StopReleases | squidasm/sim/stack/handler.py:222-227 | stopping gives back exactly the qubits that the application mapped and forgets that application only |
| NodeState.InitMapsNothing | squidasm/sim/stack/handler.py:203-209 | a new application has one virtual qubit per physical one, none mapped, and no other mapping changes |
| NodeState.StepConserves | squidasm/sim/stack/processor.py:289-311 | every step that maps no mapped virtual ID keeps the allocated qubits the disjoint union of those mapped, in transit in a measurement, and held by the network stack, none mapped twice |
| NodeState.QAllocConserves | squidasm/sim/stack/processor.py:730-743 | allocation conserves qubits on both kinds of hardware |
| NodeState.QFreeConserves | squidasm/sim/stack/processor.py:300-311 | freeing conserves qubits |
| NodeState.MeasStartConserves | squidasm/sim/stack/processor.py:800-842 | the first stretch of a measurement, in all three branches, conserves qubits |
| NodeState.MeasRelocateConserves | squidasm/sim/stack/processor.py:823-832 | exchanging the owners of electron, spare and carbon conserves qubits |
| NodeState.NetMapConserves | squidasm/sim/stack/netstack.py:336-337 | mapping a delivered pair conserves qubits |
| NodeState.DropUnmaps | squidasm/sim/stack/handler.py:222-227 | forgetting an application unmaps exactly its qubits |
| NodeState.RemapLosesQubit | squidasm/sim/stack/common.py:186-187 | a step conserves qubits if and only if it maps no mapped virtual ID and none of a stopped application |
| NodeState.RemapCanLoseQubit | squidasm/sim/stack/processor.py:289-298 | a run from boot, on either hardware, that allocates for one virtual ID twice and loses the first qubit |
| NodeState.LostForGood | squidasm/sim/stack/common.py:186-187 | a lost qubit stays allocated and unreachable in every continuation, whatever is freed or stopped |
| NodeState.StepKeepsWakeup | squidasm/sim/stack/netstack.py:304-318 | a blocked network stack has no free communication qubit or a signal pending, if and only if no application is stopped with such a qubit meanwhile |
| NodeState.SignalRetries | squidasm/sim/stack/netstack.py:519-533 | a signal makes the network stack take a communication qubit if one is free, and otherwise only try again |
| NodeState.RequestBegins | squidasm/sim/stack/netstack.py:302-318 | a keep request takes the lowest free communication qubit for the application that asked, or waits for one on its behalf if none is free |
| NodeState.PairReachesApp | squidasm/sim/stack/netstack.py:289-337 | whatever processor and handler do between a keep request and its delivery, short of stopping the application: the delivery maps the virtual ID of the application that asked to the communication qubit taken for the request, and changes no other mapping |
| NodeState.PairIsNobodyElses | squidasm/sim/stack/netstack.py:336-337 | in disciplined runs no other virtual qubit of any application is mapped to that qubit |
| NodeState.MeasuredPairReturns | squidasm/sim/stack/netstack.py:408-419 | a measure-directly request takes the lowest free communication qubit and gives the same one back |
| NodeState.StepKeepsElectronOwned | squidasm/sim/stack/processor.py:807-823 | the electron that a measurement moves away keeps an owner through all steps of other coroutines |
| NodeState.SearchSucceeds | squidasm/sim/stack/processor.py:807-823 | when a measurement of a carbon begins with the electron allocated: the later search for the electron's owner succeeds after every disciplined run of the other coroutines, if and only if the network stack does not hold the electron at the beginning |
| NodeState.RelocationCanFail | squidasm/sim/stack/qnos.py:146-152 | a run from boot in which such a measurement finds no owner of the electron |
| NodeState.OtherRunsLeaveAlone | squidasm/sim/stack/processor.py:800-842 | no disciplined run of the other coroutines changes a measurement under way: what was mapped stays mapped, and no qubit that is mapped or in transit gets into the network stack's hands |
| NodeState.RunKeepsGood | squidasm/sim/stack/processor.py:789-848 | all of this along any run that remaps no virtual ID, stops no application for whose qubit the network stack waits, and starts no measurement of a carbon while the network stack holds the electron (a disciplined run) |
| NodeState.EveryRunIsGood | squidasm/sim/stack/netstack.py:302-337 | in every disciplined run from boot qubits are conserved, measurements under way can go on, a blocked network stack that could go on is about to be woken, and a node at rest without applications has all qubits free |
| NodeState.StopCanLoseWakeup | squidasm/sim/stack/handler.py:222-227 | a run in which a stop without a signal leaves the network stack asleep |
| Memory.PhysicalQuantumMemory.Allocate | squidasm/sim/stack/common.py:374-380 | takes the lowest free qubit or reports that there is none |
| Memory.PhysicalQuantumMemory.AllocateComm | squidasm/sim/stack/common.py:382-388 | the same among communication qubits |
| Memory.PhysicalQuantumMemory.AllocateMem | squidasm/sim/stack/common.py:390-396 | the same among memory qubits |
| Memory.PhysicalQuantumMemory.Free | squidasm/sim/stack/common.py:398-399 | gives a qubit back; fails exactly for one that is not allocated |
| Memory.AppMemory.MapVirtId | squidasm/sim/stack/common.py:186-187 | maps one virtual ID and no other |
| Memory.AppMemory.UnmapVirtId | squidasm/sim/stack/common.py:189-190 | unmaps one virtual ID and no other |
| Memory.AppMemory.UnmapAll | squidasm/sim/stack/common.py:192-194 | keeps every virtual ID and unmaps it |
| Memory.AppMemory.VirtIdFor | squidasm/sim/stack/common.py:203-207 | finds a virtual ID of a physical qubit, and nothing exactly when none is mapped to it |
| QnosStack.Qnos.GetVirtQubitForPhysId | squidasm/sim/stack/qnos.py:146-152 | finds an owner of a physical qubit, and nothing exactly when no application maps it |
| QnosStack.Qnos.InterpretQAlloc | squidasm/sim/stack/processor.py:730-743 | is the allocation step: takes the lowest free qubit of the right side, and fails exactly when there is none |
| QnosStack.Qnos.InterpretQFree | squidasm/sim/stack/processor.py:300-311 | is the freeing step with its signal, and marks the device position unused |
| QnosStack.Qnos.MeasureStart | squidasm/sim/stack/processor.py:792-842 | is the first step of a measurement, and fails exactly when the qubit is unmapped or no spare is left |
| QnosStack.Qnos.MeasureRelocate | squidasm/sim/stack/processor.py:822-832 | is the relocation step, and fails exactly when nobody maps the electron |
| QnosStack.Qnos.MeasureFree | squidasm/sim/stack/processor.py:834-836 | is the step that frees the carbon |
| QnosStack.Qnos.MeasureViaSpare | squidasm/sim/stack/processor.py:822-838 | the relocating branch: two steps of the bookkeeping and both circuits on the device |
| QnosStack.Qnos.InterpretMeas | squidasm/sim/stack/processor.py:789-848 | measures exactly when the measurement can run to its end; bookkeeping and joint state are those that `NvMeasurement` proves ideal |
| QnosStack.Qnos.TryAllocComm | squidasm/sim/stack/netstack.py:303-318 | one round of the retry loop: holds a communication qubit or blocks, on behalf of the given application |
| QnosStack.Qnos.NetstackAllocKeep | squidasm/sim/stack/netstack.py:302-318 | is the first step of a keep request, for the application that asked |
| QnosStack.Qnos.NetstackAllocMeasure | squidasm/sim/stack/netstack.py:409 | a measure-directly request takes a communication qubit or fails |
| QnosStack.Qnos.OnMemoryFreed | squidasm/sim/stack/netstack.py:313-318 | is the step in which the signal arrives |
| QnosStack.Qnos.NetstackMap | squidasm/sim/stack/netstack.py:336-337 | is the step that maps a delivered pair |
| QnosStack.Qnos.NetstackFree | squidasm/sim/stack/netstack.py:419 | is the step that frees a measured pair |
| QnosStack.Qnos.AddAppMemory | squidasm/sim/stack/handler.py:206-209 | is the step that gives a new application a memory that maps nothing |
| QnosStack.Qnos.ReleaseAll | squidasm/sim/stack/handler.py:223-226 | frees exactly the qubits of an application, each of which is allocated when its turn comes |
| QnosStack.Qnos.ClearApplication | squidasm/sim/stack/handler.py:222-227 | is the stop step |
| QnosStack.CanStop | squidasm/sim/stack/handler.py:229-234 | an application can be stopped whenever the processor is idle |
| NvCircuits.ElectronToCarbonMoves | squidasm/sim/stack/processor.py:778-787 | on every joint state the electron's state goes to the carbon exactly, and the electron is left in a product state |
| NvCircuits.CarbonToElectronMoves | squidasm/sim/stack/processor.py:766-776 | on every joint state the carbon is left in \|0> and its state goes to the electron with one fixed phase on \|1> |
| NvCircuits.ElectronToCarbonWeight | squidasm/sim/stack/processor.py:778-787 | every Born weight after moving the electron to a carbon is 8 times that of the state before with electron and carbon read in their old places |
| NvCircuits.CarbonToElectronWeight | squidasm/sim/stack/processor.py:766-776 | every Born weight after moving a carbon to the electron is 32 times that of the state before, or 0 where the carbon reads 1 |
| NvCircuits.NothingOutside | squidasm/sim/stack/processor.py:770 | a reset leaves no amplitude where no discarded qubit is recorded |
| NvCircuits.MoveElectronToCarbon | squidasm/sim/stack/processor.py:778-787 | the instruction sequence is that circuit |
| NvCircuits.MoveCarbonToElectron | squidasm/sim/stack/processor.py:766-776 | the instruction sequence is that circuit |
| NvMeasurement.MeasurementIsIdeal | squidasm/sim/stack/processor.py:789-848 | in all three branches, for every joint state, the state after the measurement is the ideal post-measurement state with the qubits in other places, times one factor per outcome |
| NvMeasurement.WeightsAreIdeal | squidasm/sim/stack/processor.py:759-764 | Born weights are the ideal ones times a factor that does not depend on the outcome |
| NvMeasurement.ImageHasOrigin | squidasm/sim/stack/processor.py:766-787 | every amplitude of the ideal state arrives somewhere |
| NvMeasurement.OriginHasImage | squidasm/sim/stack/processor.py:766-787 | and every amplitude that is there comes from exactly one, up to the scrapped electron |
| NvMeasurement.MappingFollows | squidasm/sim/stack/processor.py:828-832 | every virtual qubit stays mapped, to where its state has moved |
| NvMeasurement.InterleavedMappingFollows | squidasm/sim/stack/processor.py:789-848 | the same for a measurement interrupted by any steps of the other coroutines, none of which gets hold of the electron, the carbon or the spare in between |
| NvMeasurement.BitsFollow | squidasm/sim/stack/processor.py:828-833 | every allocated qubit, also one the network stack holds, reads the same at its new place |
| NvMeasurement.MeasurementIsInvisible | squidasm/sim/stack/processor.py:789-848 | reading any virtual qubit of any application through the new map gives what reading through the old one gave |
| NvMeasurement.MeasuredConserves | squidasm/sim/stack/processor.py:789-848 | a whole measurement conserves qubits |
| NvMeasurement.DoMeas | squidasm/nqasm/executor/nv.py:53-89 | the executor's measurement is ideal too, and gives the electron free again |
| Handshake.TakenMessage | squidasm/sim/stack/netstack.py:682-688 | the message a node takes is the one of its own current request, although messages carry no identity |
| Handshake.DeliverMatches | squidasm/sim/stack/netstack.py:320-333 | the pair that the link layer delivers belongs to the same request at both ends |
| Handshake.TotalsAgree | squidasm/sim/stack/netstack.py:290-298 | both ends handle the requested number of pairs, although the creator overwrites the shared number with 1 |
| Handshake.StepKeepsInv | squidasm/sim/stack/netstack.py:449-479 | every step keeps the channels, the progress of both ends and the stored results in line |
| Handshake.SomeStepEnabled | squidasm/sim/stack/netstack.py:662-695 | as long as a request is open, some node can go on |
| Handshake.TotalDrops | squidasm/sim/stack/netstack.py:750-769 | every step uses up work, so no run is infinite |
| Handshake.LabelsDelivered | squidasm/sim/stack/netstack.py:323-333 | the labels recorded for a request are those of the deliveries to it, in order |
| Handshake.EveryRunCompletes | squidasm/sim/stack/netstack.py:750-769 | every run of any number of nodes ends with all requests done, and both ends of each have stored exactly the Bell labels that the link layer delivered for it, in order, one per requested pair |
| Results.SlicesAreDisjoint | squidasm/sim/stack/netstack.py:360-363 | slices of different pairs do not overlap |
| Results.WriteKeepSlice | squidasm/sim/stack/netstack.py:349-363 | writes the slice of one kept pair and nothing else |
| Results.WriteMeasureSlice | squidasm/sim/stack/netstack.py:430-445 | writes the slice of one measured pair and nothing else |
| Results.KeepWritten | squidasm/sim/stack/netstack.py:349-363 | the slice of every kept pair has the duration and the Bell state at their positions, and -1 elsewhere |
| Results.MeasureWritten | squidasm/sim/stack/netstack.py:430-445 | the slice of every measured pair has its outcome, basis and Bell state at their positions, and -1 elsewhere |
| Results.FulfilKeep | squidasm/sim/stack/netstack.py:302-363 | after a keep request every slice holds its own pair's values, position by position, and the rest of the array is as it was |
| Results.FulfilMeasure | squidasm/sim/stack/netstack.py:426-445 | the same for a measure-directly request |
| Results.AllEntriesDefined | squidasm/sim/stack/netstack.py:349-363 | every entry of every slice is defined afterwards |
| Results.BellStatesAgree | squidasm/sim/stack/netstack.py:349-363 | after every finished run the arrays of both ends of a keep request hold the same Bell state for every pair; the creator stores the member and the receiver its value, so the entries are equal if and only if members are integers |
| Results.MeasuredBellStatesAgree | squidasm/sim/stack/netstack.py:430-445 | after every finished run of a measure-directly request the entries are equal, as both ends store the value |
| Listeners.SendIsSound | squidasm/sim/stack/common.py:97-118 | sending keeps the channel FIFO and its events counted |
| Listeners.PortEventIsSound | squidasm/sim/stack/common.py:97-118 | so does a wake-up of the listener, which always leads to a signal |
| Listeners.BatchTakesItsEvents | squidasm/sim/stack/common.py:102-118 | a batch of n inputs takes exactly its n port events and gives one signal |
| Listeners.TakeIsSound | squidasm/sim/stack/common.py:147-153 | receiving keeps the channel FIFO |
| Listeners.PortListener.OnPortInput | squidasm/sim/stack/common.py:97-118 | the listener's code between two waits is the wake-up step |
| Listeners.PortListener.Pop | squidasm/sim/stack/common.py:153 | gives the oldest message |
| Listeners.PortListener.Flush | squidasm/sim/stack/processor.py:156-157 | drops what is buffered and nothing else |
| WaitAll.WaitIsSound | squidasm/sim/stack/processor.py:593-604 | the instruction ends only when no entry of its slice is without a value, blocks only when one is and the buffer is empty, and fails exactly on a stale signal |
| WaitAll.DefinedMeansValues | squidasm/sim/stack/processor.py:594-595 | a slice is defined if and only if the entries that Python's slicing gives contain no missing value |
| WaitAll.StepKeepsWakeup | squidasm/sim/stack/processor.py:593-604 | every step keeps that no processor is blocked on a defined slice without a message on its way |
| WaitAll.RestMeansNotStuck | squidasm/sim/stack/processor.py:593-604 | when notifications have come to rest, no processor is blocked on a defined slice |
| WaitAll.StepKeepsNotStale | squidasm/sim/stack/common.py:151-153 | a step makes a signal stale if and only if it blocks the processor (a wait, or a wake-up that finds the slice still undefined) while a notification other than the one it handles is outstanding; without a stale signal no step fails |
| WaitAll.StaleCrashes | squidasm/sim/stack/common.py:151-153 | from every state with a stale signal there is a run in which the processor fails |
| WaitAll.StaleSignalIsReachable | squidasm/sim/stack/common.py:97-118 | a run from the start, of a write, a port event, a wait and a signal, in which the processor fails |
| WaitAll.CrashesExactly | squidasm/sim/stack/processor.py:593-604 | a run that never blocks with a notification outstanding does not fail, and any other run has a beginning that can be continued to a failure |
| WaitAll.DefinedSliceWakes | squidasm/sim/stack/processor.py:593-604 | once its slice is defined, finitely many notifications in any order end with the processor running |
| WaitAll.EveryRunWakesUp | squidasm/sim/stack/processor.py:576-607 | in every run messages arrive in order and no wake-up is lost, despite other slices and the flush |
| WaitAll.Processor.AllDefined | squidasm/sim/stack/processor.py:594-595 | finds out whether a slice is defined |
| WaitAll.Processor.RecheckLoop | squidasm/sim/stack/processor.py:593-604 | the loop is the recheck of the state machine |
| WaitAll.Processor.OnSignal | squidasm/sim/stack/common.py:152-153 | the wake-up is the signal step |
| Lifecycle.StepKeepsInv | squidasm/sim/stack/handler.py:266-289 | every step keeps messages, registry, processor and replies in line |
| Lifecycle.SomeStepEnabled | squidasm/sim/stack/host.py:108-174 | some coroutine can go on unless all is done or the handler overlooks the work |
| Lifecycle.HeadCanBeHandled | squidasm/sim/stack/handler.py:253-264 | every message that reaches the handler names an application that it knows, so handling it raises nothing |
| Lifecycle.YoungestFirst | squidasm/sim/stack/handler.py:100-103 | subroutines pending for the oldest application are taken in the opposite order of their commits |
| Lifecycle.OnlyOldestIsServed | squidasm/sim/stack/handler.py:198-201 | a subroutine is taken exactly if the oldest application has one, and it is that application's last |
| Lifecycle.StepDoesWork | squidasm/sim/stack/host.py:112-115 | every step uses up work, so no run is infinite |
| Lifecycle.EveryStateIsSafe | squidasm/sim/stack/handler.py:203-209 | application IDs are fresh, replies come in commit order with at most one outstanding, subroutines run with their memory there and all sockets open, no message makes the handler raise, and with clearing on nothing of earlier runs is left once their stop was handled |
| Lifecycle.EveryRunEnds | squidasm/sim/stack/handler.py:198-201 | every run ends with each subroutine answered once and in order and nothing left behind, if and only if clearing is on or only the first run commits subroutines |
| HandlerStack.Handler.InitNewApp | squidasm/sim/stack/handler.py:203-209 | registers an application under the next ID, which was never used before, with a memory on the node |
| HandlerStack.Handler.StopApplication | squidasm/sim/stack/handler.py:222-236 | with clearing on, forgets the application, its memory and its qubits, and fails exactly for an unknown one; does nothing otherwise |
| HandlerStack.Handler.MsgFromHost | squidasm/sim/stack/handler.py:253-264 | handles each kind of message as the state machines of handler and node do, and fails exactly when the application is unknown |
| HandlerStack.Handler.NextPending | squidasm/sim/stack/handler.py:97-103 | takes the youngest subroutine of the oldest application |
| HandlerStack.ClearedLeavesNoQubit | squidasm/sim/stack/handler.py:222-227 | a node at rest whose handler has cleared every application has all its physical qubits free |
| Nqasm.Interpreter.InterpretBranch | squidasm/sim/stack/processor.py:362-401 | sets the program counter to the target exactly when the condition holds |
| Nqasm.Interpreter.InterpretClassical | squidasm/sim/stack/processor.py:285-360 | the classical instructions change registers and arrays as specified |
| Nqasm.Interpreter.InterpretQuantum | squidasm/sim/stack/processor.py:512-545 | requests, rotations, measurement and freeing as specified |
| Nqasm.Interpreter.InterpretInstruction | squidasm/sim/stack/processor.py:178-194 | one round of the interpreter's loop |
| Nqasm.ExecuteHasEffect | squidasm/sim/stack/processor.py:285-360 | the effect of every instruction on exactly one register, entry, array, qubit or request list: `set` puts its immediate, `add` the sum, `load` the entry, `store` and `undef` change one entry, and all else is as it was |
| Nqasm.StoreThenLoad | squidasm/sim/stack/processor.py:313-337 | what is stored can be loaded again, into any register |
| Nqasm.UndefThenBlocked | squidasm/sim/stack/processor.py:346-349 | an entry made undefined can neither be loaded nor does a wait for it end |
| Nqasm.RotationsAddUp | squidasm/sim/stack/processor.py:450-497 | any list of rotations of a qubit adds up in its order, and a measurement depends on all of them |
| Nqasm.DeliverHasEffect | squidasm/sim/stack/netstack.py:320-363 | a delivery writes its values into exactly the slice of its pair, maps the requested virtual ID to the new qubit, and goes on with the next pair or drops the request |
| ClientProgram.RegisterSteps | examples/advanced/link_layer_custom_subrt/client.nqasm:88-127 | every register instruction keeps the loops' invariants: the slice 10p..10(p+1), the chosen basis, the index r*B+p |
| ClientProgram.DefinedMeansDelivered | examples/advanced/link_layer_custom_subrt/client.nqasm:66-80 | a slice found defined is this repetition's: no stale result passes the wait |
| ClientProgram.MeasKeeps | examples/advanced/link_layer_custom_subrt/client.nqasm:146-148 | the outcome is that of the current pair after its own rotation |
| ClientProgram.StoresOnce | examples/advanced/link_layer_custom_subrt/client.nqasm:150-162 | the store fills entry r*B+p, which was undefined, with that outcome and changes nothing else |
| ClientProgram.DeliverKeeps | squidasm/sim/stack/netstack.py:302-363 | a delivery at any moment brings the next pair of the current request and keeps all invariants |
| ClientProgram.StepWorks | examples/advanced/link_layer_custom_subrt/client.nqasm:27-249 | every instruction and delivery keeps the invariant and lowers the rank |
| ClientProgram.NeverStuck | examples/advanced/link_layer_custom_subrt/client.nqasm:113 | until the end the processor can go on or the pair it waits for can come; no instruction raises |
| ClientProgram.NeverWrong | examples/advanced/link_layer_custom_subrt/client.nqasm:161-162 | at every moment of the main loop an outcome entry is undefined or right |
| ClientProgram.Halts | examples/advanced/link_layer_custom_subrt/client.nqasm:27-249 | the program halts under every schedule of instructions and deliveries |
| ClientProgram.EveryRunStoresOutcomes | examples/advanced/link_layer_custom_subrt/client.nqasm:64-166 | a run that cannot go on has ended, with every outcome of both fidelities in its place |
| ClientBases.RotationMeasuresBasis | examples/advanced/link_layer_custom_subrt/client.nqasm:116-147 | for each of the twelve pairs and every joint state, measuring after the program's rotation gives each outcome the Born weight of a measurement in the basis +X, +Y, +Z, ..., -Z that the application lists for the pair |
| Routines.TeleportMoves | squidasm/util/routines.py:64-125 | teleportation moves the state of the sent qubit, entangled with anything, for all outcomes |
| Routines.Teleport | squidasm/util/routines.py:64-125 | the two programs together do that |
| Routines.TeleportSend | squidasm/util/routines.py:64-91 | the sender's half Bell measurement |
| Routines.TeleportReceive | squidasm/util/routines.py:94-125 | the receiver's corrections |
| Routines.DistributedActsLocally | squidasm/util/routines.py:128-248 | the distributed CNOT and CPhase act as the local gate, for all outcomes |
| Routines.DistributedGate | squidasm/util/routines.py:128-248 | the two programs together do that |
| Bqc.ThetaCancels | squidasm/util/routines.py:23-30 | a prepared angle cancels against the angle sent to the server |
| Bqc.RemoteStatePreparation | squidasm/util/routines.py:12-37 | the server's qubit is prepared with the phase that the outcome says |
| Bqc.RunBqc | examples/applications/bqc/example_bqc.py:78-105 | client and server together compute the wanted circuit, for all angles and outcomes: the secret angles cancel |
| Bqc.FactorsMatch | examples/applications/bqc/example_bqc.py:84-98 | the amplitude is a unit phase times that of the wanted circuit with outcome m2 xor r2 |
| Bqc.LeftoverIsPhase | examples/applications/bqc/example_bqc.py:84-98 | what is left over has modulus 1 |
| Bqc.RunWanted | examples/applications/bqc/example_bqc.py:138-172 | the wanted circuit H Rz(beta) H Rz(alpha) on \|+>, instruction by instruction |
| Bqc.BlindMatchesWanted | examples/applications/bqc/example_bqc.py:138-172 | amplitudes and Born weights of the blind computation are those of the wanted circuit |
| Ghz.StepKeepsInv | squidasm/util/routines.py:295-343 | every step of every node of a line keeps the joint state in line with the protocol |
| Ghz.NeighboursDiffer | squidasm/util/routines.py:315-318 | without corrections neighbour i+1 differs from neighbour i exactly by outcome m_i |
| Ghz.UncorrectedState | squidasm/util/routines.py:295-321 | the uncorrected state is exactly the superposition of the two such bit strings |
| Ghz.ForwardedCorrection | squidasm/util/routines.py:335-338 | the correction a node forwards is the exclusive or of all outcomes up to it |
| Ghz.CorrectedState | squidasm/util/routines.py:323-343 | the corrected state is exactly \|0...0> + \|1...1> |
| Ghz.SomeStepEnabled | squidasm/util/routines.py:295-343 | no node waits forever |
| Ghz.StepAdvances | squidasm/util/routines.py:295-343 | every step advances, so no run is infinite |
| Ghz.EveryRunCreatesGhz | squidasm/util/routines.py:251-343 | every run on a line of any length ends with the GHZ state |
| Ghz.EveryUncorrectedRunFlushes | squidasm/util/routines.py:295-321 | every run that ends before its corrections has every node flushed and the joint state in the two bit strings that the outcomes tell |
| Qkd.FilterBases | squidasm/util/qkd_routine.py:84-86 | marks exactly the pairs with equal bases |
| Qkd.MarkTests | squidasm/util/qkd_routine.py:110-111 | marks exactly the sampled pairs |
| Qkd.CountErrors | squidasm/util/qkd_routine.py:128-137 | counts the differences of two lists of test outcomes and marks each tested pair by whether its outcomes are equal |
| Qkd.RawKeyIsKey | squidasm/util/qkd_routine.py:176-180 | key bit k is the outcome of the pair at the k-th key position in increasing order, and there is one per key position |
| Qkd.KeysCompared | squidasm/util/qkd_routine.py:176-180 | keys have one bit per key position and differ where the outcomes of those pairs differ |
| Qkd.ErrorsAreMismatches | squidasm/util/qkd_routine.py:128-135 | errors counted over the sample, in whatever order, are the unequal pairs in it |
| Qkd.EndsAgree | squidasm/util/qkd_routine.py:163-182 | both ends have the same pairs, tests and key positions; the key is as long as the sifted pairs minus the tests, and differs in all mismatches minus the counted errors |
| Qkd.ErrorRate | squidasm/util/qkd_routine.py:137 | the error rate is between 0 and 1, or there is none exactly if no test bits were asked for |
| Qkd.RunBoth | squidasm/util/qkd_routine.py:140-182 | the two programs together reach that, count the same errors, and get the same error rate |
| PurposeIds.AssignExtends | squidasm/nqasm/netstack.py:55-80 | a call keeps all IDs given out if and only if its two ends did not hold different ones |
| PurposeIds.MatchedCallsAreConsistent | squidasm/nqasm/netstack.py:22-27 | over a fixed matching both ends of a circuit hold the same ID, different circuits different ones, all below the counter, and no ID ever changes |
| PurposeIds.EndsFindTheSameId | squidasm/nqasm/netstack.py:55-80 | in terms of addresses: after any calls over a fixed matching of sockets, from either side, both ends of a circuit find the same ID, different circuits different ones, no other ends are listed, and the IDs are exactly the numbers below the counter |
| PurposeIds.FoundIdsStay | squidasm/nqasm/netstack.py:55-80 | the ID that an end finds after its call it finds after all later calls |
| PurposeIds.SignalingProtocol.AssignPurposeId | squidasm/nqasm/netstack.py:55-80 | the two loops over the keys are the assignment |
| PartialTranspose.BlocksAreTransposed | squidasm/util/ns.py:75-82 | entry (M*j+a, M*k+b) comes from entry (M*j+b, M*k+a) |
| PartialTranspose.HalfSize | squidasm/util/ns.py:59-77 | a system has two equal halves exactly if its side is an even power of the dimension |
| PartialTranspose.PartialTranspose | squidasm/util/ns.py:48-82 | the double loop gives the partial transpose, and fails exactly for other matrices |
| PartialTranspose.Involution | squidasm/util/ns.py:48-82 | the partial transpose is its own inverse |
| PartialTranspose.TraceKept | squidasm/util/ns.py:48-82 | it keeps the trace |

## Left out

- Foreign code: NetSquid, pydynaa, the link layer's internals and the NetQASM SDK are not part of this model. Ports are FIFO queues, the link layer is a rendezvous that delivers one pair with a Bell state to both ends.
- Compilation, transpilation and serialisation: subroutines are lists of instructions, and values stand where the assembler would put them into registers.
- Noise, fidelities, timing, device and link configuration.
- Breakpoint requests: both handlers raise at their first line.
- Two nodes that both create towards each other at once: requests are the projections of one list of (creator, receiver) pairs.
- Remote-state-preparation requests: the network stack accepts their type but handles none.
- The order in which dictionaries are searched: at most one application maps a qubit, so it does not matter.
- QnosStack.Qnos.InterpretMeas: runs without steps of other coroutines in between; `NvMeasurement.InterleavedMappingFollows` has the bookkeeping with them. What the link layer does to the joint state during a measurement is not modelled.
- QnosStack.Qnos.MeasureViaSpare: the same, for its two steps of the bookkeeping.
- QnosStack.Qnos.ClearApplication: requires an idle processor, because the handler reads no message while a subroutine runs; HandlerStack.Handler.StopApplication does, too.
- Lifecycle.EveryRunEnds: which physical qubits an application maps is not part of that state machine; `HandlerStack` and `NodeState` say that stopping an application frees them.
- The branch of the NV measurement without a spare qubit: the code logs an error and then uses a variable that has no value; here it is a measurement that fails.
- Generic hardware's gates and measurement: one device instruction each.
- Nqasm.Interpreter.InterpretBranch: only `jmp` and `beq`; the other branches would only add easy cases.
- Nqasm.Interpreter.InterpretInstruction: dispatches the instructions of the client program only.
- Nqasm.Interpreter.InterpretClassical: `lea`, subtraction and modular arithmetic would only add easy cases.
- Nqasm.Interpreter.InterpretQuantum: the wait is executed only once its slice is defined; `WaitAll` is about the waiting.
- ClientProgram.DeliverKeeps: a delivery needs virtual ID 0 to be unmapped, as on hardware with one communication qubit.
- ClientProgram.Halts: assumes nothing about fairness; whether the link layer ever delivers is not part of this model.
- Results.FulfilKeep: writes all pairs of a request in one go, while the code yields between them; a subroutine that waits for one slice is in `WaitAll` and `ClientProgram`. The response layout of the NetQASM library is a parameter, since its constants are not part of this model.
- Handshake.SomeStepEnabled: takes a communication qubit to be available whenever one is needed.
- Handshake.EveryRunCompletes: communication qubits become available eventually; which application holds them is in `NodeState`.
- Bqc.RunBqc: blindness, and Qkd.RunBoth: secrecy, are about what an adversary knows and are not modelled.
- PartialTranspose.HalfSize: uses an integer logarithm where the source rounds a floating-point one, and the default size of the second half.
- PartialTranspose.PartialTranspose: entries are real; a complex matrix is treated part by part.
- The form of methods for `create_ghz`, the peer handshake of the network stack and the host's loop: they are steps of state machines, because what is proved about them is how several nodes or coroutines interleave; no object that they update in place is modelled beside them.
- The circuits table of the signalling protocol, which hashes addresses, and its lookup of an ID.
- The deprecated `singlethread` simulator, regular-expression rewriting of applications, thread pools, logging and plotting.
