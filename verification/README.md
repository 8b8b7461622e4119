# refault, modelled and proved

refault is a deterministic, single-threaded simulation runtime for asynchronous Rust: a task
executor with nodes that can be stopped and restarted, a virtual clock, a simulated packet
network with an RPC layer, simulation-scoped singletons, and a check that repeated runs emit
the same event trace. This project models those parts and proves what they promise, for
every program that can run on them.

`dafny verify dfyconfig.toml` checks everything. The modules build on each other:

- `Types`, `Time`, `Executor`, `Machine`: the runtime as one labelled state machine. A state is
  the executor (ready queue, task map with its take-able cells, per-node id sets, six task
  states), the clock (deadline queue, Sleep states, both copies of the time), the id counter,
  the recorded events and the call stack of node and simulation stops. User code is arbitrary:
  it may issue any operation at any moment, in particular during its own poll, in a destructor
  or in a simulator callback. What the runtime leaves open (the order of equal deadlines in the
  priority queue, the iteration order of a `HashSet`) is carried by the labels.
- `Safety`: the invariant that the code relies on but never states, and when exactly a label panics.
- `Eager`, `Refinement`: a reference executor that removes tasks at once, and the proof that the
  lazily deleting executor and the reference run in lockstep.
- `Shutdown`, `Wakeups`, `Timing`, `SleepHistory`, `Outcomes`, `Lifecycle`, `StopOrder`: theorems
  about whole runs, proved on the reference executor and carried over by the refinement.
- `Ownership`: which future holds which Sleep, socket or abort guard, over runs; what a dropped
  future takes along, and when dropping it panics. `Leftover`: what a shutdown leaves registered.
- `Runtime`: the runtime once more, as a class whose fields are updated in place by the loops of
  the source. Every method is proved to be a run of the machine; the source's `unwrap`, `assert!`
  and `unreachable!` sites are `assert` statements.
- `Deadlines`: futures that poll a Sleep first: any number of `Timeout`s anywhere in a task, and
  the network's deliveries.
- `Network`, `Delivery`: sockets and inboxes, then the network under `perfect_connectivity` on top
  of the runtime. A program may exchange the `Net` in its simulator for another one.
- `Rpc`, `Correlation`: the RPC clients and servers over an arbitrary network. `RpcOverNet`: the
  same over `Delivery`, so that every run is a run of runtime, network and RPC layer at once.
- `Traces`: event handlers and the determinism checks.
- `Simulators`: slots, sweeps and per-node singletons, under arbitrary programs that borrow, enter
  node scopes, register simulators and create or stop nodes inside each other. `InPlace`: what such
  a program amounts to, as an interpreter that updates simulators in place and knows its node.
  `Ids`: unique ids.

## Conventions

- A panic is a value: `Panic(Internal(n))` is a failing `unwrap`, `assert!`, `debug_assert!` or
  `unreachable!` at line `n` of the modelled file; the other faults are panics that user code
  provokes. After a panic a run does not continue.
- A label says what happened, `Enabled` whether it can, `Next` what comes of it, and `Run` strings
  labels together. A lemma about `Run(Start(start), ops, t)` is a statement about all reachable
  states `t` and everything that led there.
- Labels over-approximate programs: any code may wake any task it could name, poll any Sleep with
  any known waker, and abort any task. Where it matters that only the future that holds a Sleep
  touches it, this is stated (`Ownership.Proper`, `Deadlines.Allowed`, `Delivery.LocalAllowed`).
- A stop visits its snapshot in any order. Visits to tasks that died meanwhile change nothing
  (`Machine.AbortDead`), so only live ones are labels.
- Times are natural numbers of nanoseconds and ids are natural numbers.

## Findings

- src/time.rs:64-67 leaves a Sleep that is ready at its first poll in state `Taken`, and a second
  poll reaches `unreachable!` (src/time.rs:85). A Sleep that was registered first and then became
  ready can be polled again. `SleepHistory.SleepPanicsExactly`: in every run, polling a Sleep
  panics iff its first poll was at or after its deadline. `Safety.SleepPolledAgainIsReachable`
  gives a run.
- src/executor.rs:386 and src/executor.rs:415 drop a future while the context is borrowed.
  `Ownership.BorrowPanicsExactly`: in every run, the end of a poll panics iff the future is dropped
  there (it completed, or was aborted during the poll) and still holds a Sleep, a socket, an abort
  guard or anything else whose destructor uses the context. `Ownership.HeldSleepPanics` gives a run
  that makes a Sleep, keeps it and completes.
- The clock can outlive the simulation (src/executor.rs:326-374): a Sleep registered outside every
  future still advances the time after `stop_simulation`. `Leftover.LateSleepSurvives` is a run, and
  `Leftover.ShutdownEmptiesExactly` the condition: if meanwhile no registered Sleep moves in or out of
  the futures, none is registered outside and none outside is dropped, then nothing is registered at
  the end of the shutdown iff every registered Sleep was inside a future at the call.
- src/tower.rs:108-111 panics on a response whose responder is gone. This happens exactly if the
  send future has not completed yet, completed with an error although the request was delivered,
  an error was delivered to the socket in between, or the response is delivered twice
  (`Correlation.ReceivePanicsExactly`; a run for each in `EarlyResponsePanics`,
  `FailedSendPanics`, `ErrorPanics`, `CopyPanics`). The second also happens with a send function
  that completes synchronously, if it hands on the packet and then reports an error
  (`FailedSyncSendPanics`).
- src/simulator.rs:155-158 asserts that a sweep leaves the number of simulators as it was.
  `Simulators.FinalAssertionExactly`: with at least one simulator, the assertion of a stop or start
  sweep holds for all callbacks iff there is a second node or the simulation is stopping. Otherwise
  a callback that adds a simulator of a new type fails it (`AddingCallbackFails`, and
  `SweepAssertionFails` for one whole program).
- src/simulator.rs:127, 199 and 203 index a `PerNode` by node. `Simulators.OneEntryPerNode`: whatever
  program ran, each `PerNode` has one entry per node, unless `with` left another `PerNode` in its
  place. `Simulators.EntryIsMissing` and `Simulators.CallbackEntryIsMissing`: the index is out of
  range iff the node is not among as many as the `PerNode` was told of, less what the last such
  renewal left it short of; without a renewal, iff the node is being created and the sweep has yet to
  reach this `PerNode`. `Simulators.NewEntryIsMissing` and `Simulators.RenewedEntryIsMissing` are
  programs that fail in the two ways; the latter also cannot stop the node, and another
  `create_node` does not mend it.
- src/net.rs:362 asserts that the `Net` in the simulator still lists the dropped socket.
  `Delivery.DropPanicsExactly`: in every run it fails iff a program exchanged the `Net` since the
  socket was opened and has not put it back. `Delivery.ReplacedNetFails` is a run; without an exchange
  while sockets are open it never fails (`Delivery.SocketsAreListed`).
- The comment at src/simulator.rs:31-32 says that `stop_node` callbacks run before the tasks are
  cancelled. The code does it the other way round (src/executor.rs:535-544), and so does the model.

## Model

| member | source | states |
|---|---|---|
| Time.NewSleepKeeps | src/time.rs:49-55 | making a Sleep gives it the deadline asked for, touches no other, and keeps the clock invariant: both copies of the time agree, and the queue holds exactly the waiting Sleeps, each under its own deadline, strictly in the future |
| Time.DropSleepKeeps | src/time.rs:31-40 | dropping a Sleep in any state takes it, and no other, out of the clock and its queue and keeps the clock invariant |
| Time.PollSleepExact | src/time.rs:57-88 | a Sleep polls Ready exactly from its deadline on, else it is registered with the latest waker; it panics exactly if a first poll found it ready |
| SleepHistory.SleepPanicsExactly | src/time.rs:60-86 | over every run: polling a Sleep panics iff its first poll in the run was at or after its deadline |
| Time.AdvanceExact | src/time.rs:125-150 | advancing moves both clocks by one positive amount to the earliest deadline, finishes exactly the Sleeps due then, and leaves the others strictly in the future |
| Executor.WakeKeeps | src/executor.rs:214-232 | a wake in any state keeps the global invariant: queued iff the state says so, map, cells, node sets and handles agree |
| Executor.SpawnKeeps | src/executor.rs:266-311 | spawning under a fresh id keeps the global invariant |
| Executor.AbortKeeps | src/executor.rs:424-458 | aborting any task in any state, also the running one, keeps the global invariant |
| Executor.DiscardKeeps | src/executor.rs:313-362 | a popped entry that is not ready is aborted or completed, has a map entry, and its removal hits no assertion and keeps the invariant |
| Executor.TakeReady | src/executor.rs:339-347 | a popped ready task has its future in its cell, and taking it keeps the invariant |
| Executor.PopReadyKeeps | src/executor.rs:325-364 | the whole popping loop hits no assertion and keeps the invariant |
| Executor.EndPollStateKeeps | src/executor.rs:379-418 | what follows a poll hits no assertion in any state the poll may have left the task in, and keeps the invariant |
| Executor.EndPollKeeps | src/executor.rs:380-418 | given what the destructor of a future dropped there does, the end of a poll panics exactly if it needs the context; otherwise its wakes take effect and the invariant holds |
| Machine.AbortDead | src/executor.rs:424-432 | aborting a dead or forgotten task changes nothing |
| Machine.BeginStopKeeps | src/executor.rs:501-534 | marking a node stopped and taking the snapshot keeps the machine invariant |
| Machine.TurnKeeps | src/executor.rs:323-374 | every turn of the run loop succeeds and keeps the machine invariant |
| Safety.StepSafe | src/executor.rs:214-588 | each label panics exactly on a misuse that the caller can see beforehand, with that fault, and otherwise keeps the invariant |
| Safety.RunKeeps | src/executor.rs:323-421 | the invariant holds after every run |
| Safety.NoAssertionFires | src/executor.rs:313-421 | in every reachable state no `unreachable!`, `unwrap` or assertion of the runtime can fire, whatever happens next |
| Safety.SleepPolledAgainIsReachable | src/time.rs:60-86 | a run in which polling a Sleep again after it was ready at once panics |
| Ownership.HeldRunIsRun | src/executor.rs:323-421 | every run with futures that hold Sleeps, sockets and abort guards is a run of the machine, also where dropped futures take theirs along |
| Ownership.HeldKeeps | src/executor.rs:424-458 | every label keeps that whatever a future holds exists, and that the future does |
| Ownership.BorrowPanicsExactly | src/executor.rs:380-415 | over every run: the end of a poll panics iff the future is dropped there and still holds a Sleep, a socket, an abort guard or anything else whose destructor uses the context |
| Ownership.HeldSleepPanics | src/executor.rs:398-415 | a run in which a task makes a Sleep, keeps it in its future and completes, which panics the run loop |
| Refinement.DiscardStutters | src/executor.rs:348-360 | popping a dead entry is invisible to the reference executor |
| Refinement.AbsWake | src/executor.rs:214-232 | a lazy wake is an eager wake |
| Refinement.AbsAbort | src/executor.rs:424-458 | a lazy abort removes the task at once in the reference executor |
| Refinement.AbsTurn | src/executor.rs:323-374 | a turn of the lazy loop is a turn of the reference: same task, or same advance of time |
| Refinement.AbsReturn | src/executor.rs:379-418 | the end of a poll does the same in both, including the panic |
| Refinement.Lockstep | src/executor.rs:323-458 | both executors allow the same labels, and each has the same outcome in both, panics included |
| Refinement.Refines | src/executor.rs:323-458 | every run of the lazy executor is a run of the reference with the same labels, trace, handles and clock |
| Refinement.Simulates | src/executor.rs:323-458 | and every run of the reference is a run of the lazy executor |
| Refinement.SameFuture | src/executor.rs:323-458 | states that differ only in dead entries have the same future runs, traces and handles |
| Shutdown.NextGood | src/executor.rs:501-588 | every label keeps that live tasks of stopped nodes are still listed by a stop in progress, and every node is finally stopped unless `stop_simulation` has yet to reach it |
| Shutdown.ReachableGood | src/executor.rs:501-588 | so it holds in every reachable state, under any re-entrant stops, spawns and restarts |
| Shutdown.LiveIsListed | src/executor.rs:529-543 | a live task of a stopped node belongs to a stop of that node in progress |
| Shutdown.StoppedNodeIsEmpty | src/executor.rs:501-546 | once no stop of a stopped node is in progress, it has no waiting or ready task |
| Shutdown.ShutdownIsComplete | src/executor.rs:577-588 | after `stop_simulation` every node is finally stopped, no task is live, and every handle is decided |
| Shutdown.ShutdownIsAbsorbing | src/executor.rs:256-276 | if no Sleep is registered at the end of the shutdown or later, then afterwards no event is emitted, the clock stands still and no node comes back |
| Ownership.ShutdownEmptiesClock | src/executor.rs:535-588 | over every run: if at the call of `stop_simulation` every registered Sleep is inside a future, and none is registered outside or taken out of one meanwhile, the shutdown leaves no Sleep registered and no future holding anything |
| Ownership.ShutdownIsForever | src/executor.rs:256-276 | and from then on, as long as no Sleep is registered outside the futures, no event is emitted, the clock stands still, nothing is registered and every node stays finally stopped |
| Timing.RegisteredSleepMovesClock | src/time.rs:125-150 | with a Sleep still registered when the shutdown is over, the next turn advances the clock |
| Leftover.OutsideStays | src/time.rs:31-88 | over every run: a Sleep registered outside all futures stays registered unless it is dropped, taken into a future, or a turn passes |
| Leftover.ShutdownEmptiesExactly | src/executor.rs:535-588 | over every run, under that discipline: nothing is registered at the end of the shutdown iff every registered Sleep was inside a future at the call of `stop_simulation` |
| Leftover.LateSleepSurvives | src/executor.rs:326-374 | a run in which a task registers a Sleep outside its future and stops the simulation, after which the next turn advances the clock |
| Shutdown.NoRunAfterStop | src/executor.rs:325-328 | once the simulation is stopped it stays so, and no task is run again |
| Wakeups.WakeQueues | src/executor.rs:219-227 | a wake of a waiting task, also in its own poll, queues it last, and a second wake changes nothing |
| Wakeups.WokenTaskRuns | src/executor.rs:325-347 | no lost wakeup: within one turn per ready task ahead of it, at the same instant, a woken task is polled exactly once or has died; if neither it nor a task queued ahead of it is killed, it takes exactly that many turns |
| Timing.TimeIsConserved | src/time.rs:118-140 | in every reachable state both clocks agree and equal start time plus all TimeAdvanced amounts, none of which is zero |
| Timing.TurnChooses | src/executor.rs:323-374 | time advances only if no task is ready or the simulation is stopped, and the loop is left only if no Sleep is registered either |
| Timing.LoopExitIsQuiet | src/executor.rs:364-374 | when the loop is left every live task waits, no Sleep is registered, and the assertion in `destroy` holds |
| Timing.WakeOrderExists | src/time.rs:130-142 | among the registered Sleeps there is always a pop order of those with the earliest deadline |
| Timing.TurnIsPossible | src/executor.rs:323-374 | between polls the loop can always take a turn |
| Timing.SleepsExactly | src/time.rs:57-150 | in every run a registered Sleep that is not dropped waits with its latest waker until the clock is exactly at its deadline, is finished by that very turn, and its live task is ready then |
| Timing.QuietLoopEnds | src/executor.rs:323-374 | if polls no longer spawn, wake a waiting task or register a Sleep, the loop takes at most two turns per registered Sleep and one per ready task; polls of registered or finished Sleeps may go on |
| Outcomes.ValueIffReturned | src/executor.rs:105-121 | a handle holds a value iff some poll of its task returned that value |
| Outcomes.HandleOutcome | src/executor.rs:484-494 | a handle is undecided iff the task lives or is being polled, yields the value iff a poll returned it, and otherwise TaskAborted |
| Outcomes.DecidedForever | src/executor.rs:114-118 | a decided handle never changes |
| Outcomes.DeadStaysDead | src/executor.rs:339-362 | after its abort or completion a task is never run again |
| Lifecycle.StoppedStays | src/executor.rs:271-276 | in every run a node that does not run stays so until it is started, and every spawn on it panics |
| Lifecycle.RunningStays | src/executor.rs:501-523 | in every run a node that runs does so until it is stopped, alone or with the simulation, and every spawn on it succeeds |
| Lifecycle.FinalStays | src/executor.rs:548-563 | in every run a finally stopped node stays so: starting it panics, and so does every spawn on it |
| Lifecycle.StopAndStart | src/executor.rs:501-563 | after a stop, until the next start, every spawn on the node panics; after a start, until the next stop, every spawn succeeds |
| Lifecycle.CanStartAgain | src/executor.rs:548-563 | in every run, until the simulation stops, a node can be started at any time, however often it was stopped, and then runs |
| Lifecycle.SpawnQueuesLast | src/executor.rs:238-311 | a new task has a fresh id, belongs to its node, lives, is undecided, and is queued once behind all others, which stay as they are |
| Lifecycle.TakenIdsAreUnique | src/id.rs:22-57 | in every run, an id that a program took for itself is never a task's |
| Lifecycle.AbortEnds | src/executor.rs:424-458 | an aborted task is at once neither live nor queued, its handle yields TaskAborted unless it is being polled or was decided, and every other task stays as it is |
| Lifecycle.NewNodeRuns | src/executor.rs:256-264 | a new node has the next index, no tasks, and runs until it is stopped |
| Lifecycle.TraceTells | src/event.rs:7-12 | in every run there is one TaskSpawned event per task, the NodeSpawned events name the nodes after the first, each once and in order, and only spawned tasks are run |
| StopOrder.StopTasksExact | src/executor.rs:529-543 | what the stop loop does to tasks, clock and queue, in terms of the set of the snapshot alone |
| StopOrder.StopOrderIsIrrelevant | src/executor.rs:529-543 | any two orders of the snapshot give the same task states, map, node sets, handles, sleeps and ready tasks, if destructors only unregister sleeps |
| StopOrder.StopOrderLeavesNoTrace | src/executor.rs:529-543 | so every continuation, its trace and its handles are the same for both orders |
| StopOrder.StopLoopIsRun | src/executor.rs:535-543 | that loop is a run of the machine |
| Runtime.Context.constructor | src/context_install_guard.rs:21-45 | a new context is the machine's start state, with both clocks at the start time |
| Runtime.Context.WakeByRef | src/executor.rs:215-231 | `wake_by_ref` on the fields is `Wake` |
| Runtime.Context.SpawnTaskOnNode | src/executor.rs:238-311 | spawning takes the next id, emits TaskSpawned and is `Spawn` |
| Runtime.Context.RemoveTaskEntry | src/executor.rs:313-321 | the entry leaves map and node set; the three assertions hold |
| Runtime.Context.TakeNextTask | src/executor.rs:325-364 | the popping loop is `NextTask`, emits TaskRun for the task it takes, and meets its assertions |
| Runtime.Context.PopDue | src/time.rs:141-148 | the loop pops and wakes exactly the entries that are due |
| Runtime.Context.WaitUntilNextFutureReady | src/time.rs:125-150 | the clock advances iff a Sleep is registered, to the earliest deadline, with the wakes and the event of a turn of the machine |
| Runtime.Context.AbortLocally | src/executor.rs:424-458 | `abort_local` on the fields is `AbortLocal` |
| Runtime.Context.PollSleepAt | src/time.rs:60-87 | `Sleep::poll` on the fields is `PollSleep` |
| Runtime.Context.FinishPoll | src/executor.rs:380-418 | the match after a poll is `EndPoll`; its assertions hold |
| Runtime.Context.UserCode | src/executor.rs:105-121 | user code performs the actions it is given, in order, leaving out exactly those that are impossible or would panic; it is a run of the machine and leaves the stops in progress as they were |
| Runtime.Context.MarkStopped | src/executor.rs:503-534 | marking and snapshot are `BeginStop` |
| Runtime.Context.DrainStop | src/executor.rs:535-544 | after the loop over the snapshot and the callbacks no task of the snapshot is live |
| Runtime.Context.StopNodeNow | src/executor.rs:501-546 | stopping a running node is a run of the machine after which none of its tasks lives |
| Runtime.Context.StopSimulationNow | src/executor.rs:577-588 | stopping the simulation is a run of the machine that begins with that label |
| Runtime.Context.PollTask | src/executor.rs:375-420 | a poll is the actions of the task and then its return, with the given result and the wakes of the dropped future |
| Runtime.Context.RunOnce | src/executor.rs:324-420 | a round is exactly one turn: with a task ready it emits TaskRun for the head of the queue and is the poll of that task; otherwise with a Sleep registered it emits one TimeAdvanced by what the clock moves; otherwise it changes nothing of that, and exactly then the loop is left |
| Runtime.Context.RunCurrentContext | src/executor.rs:323-421 | the loop takes exactly one turn per round and, except in the round in which it is left, each emits an event; it is left only if nothing is registered and nothing is queued or the simulation was stopped |
| Runtime.Context.Destroy | src/context_install_guard.rs:47-73 | panics at its assertion iff something is queued and the simulation was not stopped; otherwise the time is reported, does not change during the stop, and afterwards every node is finally stopped and no task lives |
| Runtime.Simulate | src/sim_builder.rs:186-215 | the whole run is the given set-up, one turn per round, and once the loop was left the final stop, after which every node is finally stopped and no task lives; the reported elapsed time is the sum of the TimeAdvanced events of the whole trace |
| Deadlines.GuardStepKeeps | src/agnostic_lite/timeout.rs:68-78 | every label of a program with Timeouts, any number in a task and created at any time, also after the task aborted itself, keeps that each pending one is unpolled, or registered before its deadline with its own task, or due with its task ready or polled |
| Deadlines.FirstPollIsFirst | src/agnostic_lite/timeout.rs:68-70 | in every run the recorded first poll of a Timeout is the first poll of its Sleep |
| Deadlines.TimeoutIsExact | src/agnostic_lite/timeout.rs:65-79 | in every run a Timeout, wherever created and whenever first polled, also in the rest of a poll whose task was aborted, returns Ok only strictly before its deadline, Elapsed exactly at it or at the first poll if later, and once polled is never pending past both |
| Deadlines.PollDecides | src/agnostic_lite/timeout.rs:65-79 | a pending Timeout can be polled in every poll of its task: from its deadline on the result is Elapsed, before it the inner future decides |
| Deadlines.NoneLeftPending | src/executor.rs:364-374 | the run loop is never left with a Timeout that was polled, or a delivery, pending |
| Network.TrySendExact | src/net.rs:427-436 | an arriving packet is buffered iff the inbox of its own address and type exists with fewer than eight packets in it, and is lost for exactly the stated reason otherwise; nothing else changes |
| Network.FirstEightFit | src/net.rs:227-227 | up to eight packets that arrive at an empty listed inbox, with no receive between them, are all buffered, in order |
| Network.NinthIsLost | src/net.rs:427-436 | and the ninth is lost because the inbox is full, while the eight stay |
| Network.OpenKeeps | src/net.rs:291-317 | opening fails exactly if address and type are taken, then changes nothing, and otherwise lists a new empty inbox under them and leaves every other inbox listed and untouched |
| Network.CloseExact | src/net.rs:355-365 | the assertion in the drop of an open socket fails iff the simulator holds another `Net` than when the socket was opened; otherwise its address and type are freed, every other socket stays open and no packet moves |
| Network.ReplaceKeeps | src/simulator.rs:105-107 | exchanging the `Net` moves no packet and closes no socket, and putting the old one back restores its inboxes |
| Network.ReceiveExact | src/net.rs:335-352 | the downcast succeeds, the oldest buffered packet is received, and it has the socket's address and type |
| Network.EmptiedKeeps | src/net.rs:230-237 | emptying inboxes loses exactly the packets buffered in them |
| Network.DrainEmpties | src/net.rs:229-242 | after `start_node` no listed inbox of the node has a packet |
| Network.DrainSparesOthers | src/net.rs:229-242 | and a socket of another node, or of a `Net` that is not in the simulator, keeps all its packets, and so does whatever is in the air |
| Network.Net.OpenSocket | src/net.rs:291-317 | the object's `open` is `Open` |
| Network.Net.DropSocket | src/net.rs:355-365 | dropping an open socket reports the failing assertion iff this is another `Net`, and otherwise unlists its inbox and no other |
| Network.Net.ReplaceNet | src/simulator.rs:105-107 | exchanging the content of the simulator in place is `Replace` |
| Network.Net.Deliver | src/net.rs:430-434 | the end of a delivery on the object is `TrySend` |
| Network.Net.PollReceive | src/net.rs:335-352 | a poll of `receive` on the object is `Receive`, with the sender's address; its downcast is asserted |
| Network.Net.EmptyInbox | src/net.rs:234-234 | the inner loop empties one inbox and loses its packets |
| Network.Net.StartNode | src/net.rs:229-242 | visiting the map in any order drains exactly the inboxes of the node |
| Delivery.NetStepKeeps | src/net.rs:142-147 | every label of runtime and network keeps the correspondence of packets in the air with delivery tasks, the arrival times and the order in inboxes |
| Delivery.PacketsAreConserved | src/net.rs:414-436 | in every run each packet is in exactly one place: in the air iff exactly one delivery task carries it, buffered or received iff in that one inbox, keyed by its own address and type |
| Delivery.DeliveryIsPunctual | src/net.rs:142-147 | in every run a packet reaches the inbox step at exactly send time plus the latency of the `Net` that sent it, unless its delivery was aborted, and is never overdue |
| Delivery.LatencyIsFixed | src/net.rs:142-147 | without an exchange of the `Net` every packet has the one given latency |
| Delivery.DeliveryKeepsOrder | src/net.rs:427-436 | of two packets that one socket got, one sent strictly earlier, over a latency no greater, came first, whatever the order among equal deadlines |
| Delivery.DowncastSucceeds | src/net.rs:338-341 | in no reachable state can the downcast in `receive` fail |
| Delivery.SocketsAreListed | src/net.rs:355-365 | in every run in which the `Net` is not exchanged while a socket is open, the assertion in the drop of an open socket holds |
| Delivery.DropPanicsExactly | src/net.rs:355-365 | over every run: that assertion fails iff the simulator holds another `Net` than when the socket was opened in the run |
| Delivery.ReplacedNetFails | src/net.rs:355-376 | a run that opens a socket, exchanges the `Net`, and fails the assertion when the socket is dropped |
| Delivery.DeliveryCanPoll | src/net.rs:428-435 | a delivery task that is polled performs its poll without a panic |
| Delivery.NothingLeftInFlight | src/executor.rs:364-374 | when the run loop is left, no packet is in the air |
| Delivery.RestartDrains | src/net.rs:229-242 | over every run that does not exchange the `Net` under open sockets: when a start of a stopped node has returned, no packet that was buffered for the node at its begin is still buffered in an open socket |
| Rpc.StepKeeps | src/tower.rs:60-134 | every label keeps that each request is where its phase says, its caller knows exactly that, tokens carry their request's own data, and a caller is told ConnectionReset only if its client is gone and NetworkError only if its own request failed |
| Rpc.RunKeeps | src/tower.rs:75-177 | so it holds after every run |
| Correlation.SyncSendIsSends | src/tower.rs:86-98 | a synchronous send, whether or not it hands on the packet and whatever it reports, is a send whose future completes before anything else happens |
| Correlation.RespondersAreUnanswered | src/tower.rs:88-98 | the responder map holds exactly the requests that are sent and unanswered, each with its own caller |
| Correlation.ReceivePanicsExactly | src/tower.rs:101-116 | for every network: the receive task panics exactly on a response to a request that is still being sent, whose send failed, whose responder an error took, or that was answered before; the address assertion always holds |
| Correlation.ReplyIsOwn | src/tower.rs:150-173 | a reply is the service's result for the caller's own request |
| Correlation.AnsweredOnce | src/tower.rs:60-71 | no label changes an answer once it is given |
| Correlation.AnsweredForever | src/tower.rs:60-71 | so each caller gets at most one answer in every run |
| Correlation.AnswersHaveReasons | src/tower.rs:60-71 | over every run: a caller is told ConnectionReset only if its client is gone, and NetworkError only if the send of its own request failed or an error took its responder |
| Correlation.ClosedHasNoWaiters | src/tower.rs:68-71 | over every run: every caller of a client that is gone has its answer |
| Correlation.ErrorFailsAll | src/tower.rs:117-123 | an error is told to every caller whose request its client awaits, and to nobody else |
| Correlation.SendTaskIsFree | src/tower.rs:83-90 | over every run: a send task that is not sending can take the oldest queued request, with the next id |
| Correlation.RequestsInCallOrder | src/tower.rs:60-90 | over every run: the requests of one client get their ids, and so go out, in the order of the calls |
| Correlation.ResponseFindsResponder | src/tower.rs:101-116 | with synchronous sends that hand on nothing they report as failed, no copies and no errors, every arriving response finds its responder and answers that caller |
| Correlation.AwaitedIsUnderWay | src/tower.rs:83-177 | and if nothing is lost, every awaited request is exactly once under way |
| Correlation.EarlyResponsePanics | src/tower.rs:88-111 | a run without errors and copies in which a response overtakes its send future and panics |
| Correlation.FailedSendPanics | src/tower.rs:95-111 | a run in which a request whose send failed is delivered after all, and its response panics |
| Correlation.FailedSyncSendPanics | src/tower.rs:86-111 | the same with a synchronous send that hands on the packet and reports an error |
| Correlation.ErrorPanics | src/tower.rs:108-123 | a run in which an error takes the responder of a later response |
| Correlation.CopyPanics | src/tower.rs:107-114 | a run in which a response is delivered twice and panics |
| RpcOverNet.ProjectsToBoth | src/tower.rs:75-177 | every run of the RPC layer on the network is a run of the network on the runtime, and a run of `Rpc` with synchronous sends, no copies and no errors |
| RpcOverNet.ReplyFindsResponder | src/tower.rs:101-116 | over every such run: what arrives at an open client's socket comes from the address it sends to, finds its responder, and answers that caller with what the service returned for its request |
| RpcOverNet.RequestIsServed | src/tower.rs:150-160 | and what arrives at a server's socket is a request that its client awaits, unless the client is gone, and can be handled |
| Correlation.ClientTasks.BeginSend | src/tower.rs:84-90 | the send task takes the oldest request, a fresh id, and hands the request to the network |
| Correlation.ClientTasks.SendCompleted | src/tower.rs:88-98 | success enters the responder, an error is told to the caller |
| Correlation.ClientTasks.ReceiveResponse | src/tower.rs:104-116 | the responder is removed and told the result; both assertions hold if the response is expected |
| Correlation.ClientTasks.ReceiveError | src/tower.rs:117-123 | the loop over the taken responders, in any order, tells every one of them and leaves none |
| Traces.ExplanationIsUnique | src/event.rs:67-92 | a reported failure means that the traces differ, and only one failure describes how |
| Traces.ValidatingEventHandler.HandleEvent | src/event.rs:66-82 | an event passes iff it is the next recorded one, and a failure names index, expected and actual event |
| Traces.Record | src/event.rs:42-50 | a recorded run yields exactly its events |
| Traces.Validate | src/event.rs:66-92 | a validating run passes iff its trace equals the recorded one, and otherwise reports the first index at which they differ |
| Traces.RecordHash | src/event.rs:99-107 | hashing event by event yields the digest of the trace |
| Traces.ValidateHash | src/event.rs:123-135 | the hash check passes iff the digests agree, so it never rejects an equal trace |
| Traces.HashMayMiss | src/event.rs:109-135 | traces that differ in a first event with a colliding hash are not told apart |
| Traces.HashDetects | src/event.rs:99-135 | if no two states and events are hashed alike and no two states finished alike, traces of one length with the same digest are equal |
| Traces.Run | src/sim_builder.rs:138-168 | the full check returns iff all later traces equal the first, else it names the first deviating iteration and index; the hash check returns iff all digests agree, else it reports the first iteration whose digest differs; the output is the first iteration's; fewer than two iterations are refused |
| Simulators.TakeKeeps | src/simulator.rs:61-68 | taking a simulator keeps that a slot is empty iff it is on the stack of active borrows |
| Simulators.PutBackKeeps | src/simulator.rs:69-74 | putting it back finds the slot empty and keeps the invariant |
| Simulators.RegisterKeeps | src/simulator.rs:46-57 | a new type keeps that each slot has its own simulator or is borrowed |
| Simulators.TypesAreBijective | src/simulator.rs:50-56 | each slot has exactly one type and each type one slot |
| Simulators.SweepVisitsOnce | src/simulator.rs:141-157 | a sweep visits each slot exactly once, in registration order or in reverse |
| Simulators.DoKeeps | src/simulator.rs:46-159 | every program, nested in any way, keeps the slots, leaves the borrows in progress and the current node as they were, adds simulators only with one node and outside a stop, and never fails the assertion at line 71 |
| Simulators.SweepIsExact | src/simulator.rs:138-159 | a stop or start sweep that does not panic ran outside all borrows, called every simulator once, in reverse and with the affected node as current node, and added none |
| Simulators.FinalAssertionExactly | src/simulator.rs:155-158 | the final assertion of a sweep for an existing node over at least one simulator holds for all callbacks iff there is a second node or the simulation is stopping |
| Simulators.AddingCallbackFails | src/simulator.rs:155-158 | otherwise there is a callback that leaves one slot too many, and the assertion panics |
| Simulators.SweepAssertionFails | src/simulator.rs:138-158 | a whole program from an empty context that fails it |
| Simulators.DoEntries | src/simulator.rs:193-214 | every program keeps that a `PerNode` has as many entries as nodes it was told of, less what the last renewal left it short of |
| Simulators.OneEntryPerNode | src/simulator.rs:193-214 | after any whole program that renews no `PerNode`, each one has exactly one entry per node |
| Simulators.CreateEntries | src/simulator.rs:193-196 | creating a node calls every simulator once, in order and with the new node as current node, and leaves one entry per node everywhere, less what a renewal left it short of |
| Simulators.EntryIsMissing | src/simulator.rs:126-128 | the access to a node's entry is out of range iff the node is not among those the `PerNode` was told of, less what a renewal left it short of; without a renewal, iff it is being created and the sweep has yet to get there |
| Simulators.CallbackEntryIsMissing | src/simulator.rs:198-204 | the same condition for the index in `stop_node` and `start_node`, which then panics |
| Simulators.NewEntryIsMissing | src/simulator.rs:126-128 | a program in which the callback of one `PerNode` accesses the new node's entry in a later one |
| Simulators.RenewedEntryIsMissing | src/simulator.rs:105-128 | a program that renews a `PerNode` after a second node was created: access and stop panic, and creating a third node does not mend it |
| Simulators.SimCx.AddSimulator | src/simulator.rs:46-57 | adding, when its assertions hold, registers one simulator under its type |
| Simulators.SimCx.With | src/simulator.rs:60-79 | whatever nested program runs inside, the slot is empty when the simulator is put back with the data, or the entry, that was written; the object does what `Act` says |
| Simulators.SimCx.NodeScope | src/lib.rs:183-193 | the object does what `Act` says, so by `InPlace.UpdatesAreInPlace` the program inside runs on the node of the scope, and the current node is restored after it |
| Simulators.SimCx.ForAllSimulators | src/simulator.rs:138-159 | the in-place sweep is `ForAll`, with one visit of every simulator in its order; its final assertion is asserted |
| Simulators.SimCx.CreateNode | src/node_id.rs:21-36 | the object does what `CreateNode` says, returns the next id, and afterwards every `PerNode` has one entry per node, less what a renewal left it short of |
| Simulators.SimCx.NodeCallbacks | src/executor.rs:544-570 | stop and start callbacks run in reverse with the affected node as current node, which is restored |
| InPlace.UpdatesAreInPlace | src/simulator.rs:60-159 | over all programs that do not panic: every simulator ends with the data last written to it by its registration, a `with` or a callback, and with the entries of plain in-place updates; every look at the current node finds the node of the innermost enclosing scope or callback |
| InPlace.EvalAgrees | src/simulator.rs:60-159 | the same inside any program, with borrows in progress: meanwhile nothing is written to what is borrowed |
| InPlace.WithWrites | src/simulator.rs:60-79 | `with` replaces the data and keeps the entries, `with_node` replaces one entry and keeps everything else |
| InPlace.CallbackWrites | src/simulator.rs:193-205 | a new node's entry comes last, so that every node keeps its own; a stop or start callback changes the entry of the affected node only |
| InPlace.OthersStay | src/simulator.rs:60-79 | a program that neither borrows a type nor makes callbacks leaves the simulator of that type as it is |
| InPlace.WithBegins | src/simulator.rs:105-118 | `with` begins iff a simulator of the type was added and is not borrowed |
| InPlace.BorrowedTwicePanics | src/simulator.rs:65-67 | inside a borrow, whatever ran since, another borrow of the same simulator panics |
| InPlace.LateRegistrationPanics | src/simulator.rs:41-49 | from the second node or the final stop on, whatever runs, adding a simulator panics; from the final stop on creating a node does |
| InPlace.FinalStopIsFinal | src/simulator.rs:48-49 | and whatever runs after a final stop, it is in force |
| Ids.GetIsExact | src/id.rs:60-67 | `get` yields each id of a range for exactly one index below its length, and ids it does not own from there on |
| Ids.IdSource.New | src/id.rs:22-29 | a new id was never issued before |
| Ids.IdSource.NewRange | src/id.rs:47-57 | a range has the requested length and only ids that were never issued before |

## Left out

- Interception of libc symbols (src/interception.rs): `Instant::now()` is taken to read the time cell.
- src/send_bind.rs and src/send_bind_util.rs: memory safety of moving values between threads and nodes.
- The adapters in src/agnostic_lite.rs and src/agnostic_lite/joinhandle.rs; `Timeout` is modelled.
- Tracing spans, `Display` and `Error` implementations, the random number generator.
- Unwinding: a run ends at a panic, so what destructors do while unwinding is not modelled.
- Overflow of 64-bit ids and of durations.
- The internals of `priority_queue`, of `futures` channels and of `LocalChannel`: a map with a free choice among the least, a cell that is decided once, and a bounded queue of eight.
- Runtime.Context.RunCurrentContext: observes any number of rounds, because the loop of the source need not end; when it does is `Timing.QuietLoopEnds`.
- Runtime.Context.UserCode: stops nest up to any given `depth`, and a call that would panic is left out; the machine itself has no such bound. What destructors and callbacks inside a stop perform is an arbitrary choice, not an argument.
- Runtime.Simulate: the outcome of the root future and its `stop_simulation` are ordinary user code, not a separate step.
- Executor.EndPollKeeps: a destructor that runs while the context is borrowed performs wakes or needs the context, as the label says; which of the two follows from what the future holds in `Ownership.BorrowPanicsExactly`.
- Ownership.BorrowPanicsExactly: what a future holds is Sleeps, and unnamed other values whose destructors use the context; sockets are not tied to the inboxes of `Network` there.
- Deadlines.TimeoutIsExact: a Timeout is polled with the waker of the task that holds it, is not moved to another task, and a poll of that task polls all its Timeouts that were polled before; a future dropped at the end of its poll has none pending, since the drop would panic.
- InPlace.UpdatesAreInPlace: what the `new` function of a `PerNode` returns for a new node is the value its callback leaves; the function's own state is not modelled.
- Simulators.DoKeeps: a program ends at its first panic; that the guards of `with` and `node_scope` also restore their values while unwinding is not modelled.
- StopOrder.StopOrderIsIrrelevant: destructors only unregister sleeps; with destructors that wake or spawn the order can be observed.
- Delivery.PacketsAreConserved: send functions other than `perfect_connectivity`, errors enqueued by a send function and copies of packets are left out here; the RPC layer is proved for all of them.
- RpcOverNet.ReplyFindsResponder: one type of requests and one of responses; a server answers from the node of its socket; a token whose packet was lost stays in the air of the RPC layer, where nothing receives it.
- Correlation.ReceivePanicsExactly: a token fixes the address its response comes from, so a `run_server` future that is moved to a task of another node after its first poll, which fails the assertion at src/tower.rs:105, is not a run.
- Time.PollSleepExact: a waker is the waker of a task; wakers of combinators or of user code, which src/time.rs:147 calls while the context is borrowed, are not modelled.
- Delivery.NetStepKeeps: the Sleep of a delivery is made with its task, while the source makes it at the task's first poll, at the same instant; the wake that a channel performs for a receiver is an ordinary label.
- The assertion in `send_wrapped` that a packet is sent from its own node: a send from another node is not a step of `Delivery`.
- The service readiness of `run_server` and its accept loop: handling and responding are labels, and a server that ends loses tokens.
- The destruction of simulators at the end of a run, and code in their destructors.
