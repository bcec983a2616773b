# disastrOS: kernel, semaphores and message queue, verified

disastrOS is a small single-CPU teaching kernel. Processes are switched by system calls and by a timer tick;
counting semaphores hand a permit straight to the first waiting process; a bounded message queue is built from three
of those semaphores. This project models the three layers, proves each on its own and then proves the queue on top of
the kernel.

## Layers

* **Data structures.** `PoolAllocators` (index-linked free list with address arithmetic, class `PoolAllocator` over an
  array) and `LinkedLists` (intrusive doubly linked list, classes `ListItem` and `ListHead` on the heap).
* **Semaphore.** `HandoffSemaphore`: the kernel's semaphore as a value, compared with a textbook one.
* **Kernel.** `KernelState` holds the global state `K` and one function per handler; `Step` is one system call or tick.
  `KernelInvariant` states what holds between steps: every process is in exactly one place, every waiting process has
  exactly one reason to wait, descriptors and semaphores refer to each other without dangling pointers, no awaited
  child is dead, every pool block is accounted for. `KernelMoves`, `KernelSemMoves` and `KernelFamilyMoves` prove it
  for single list moves, `KernelSteps` for whole handlers. `KernelEffects`, `KernelSemaphores`, `KernelTables`,
  `KernelPlaces`, `KernelFrames`, `KernelStatus`, `KernelResults`, `KernelReturns`, `KernelRuns`, `KernelWaking`,
  `KernelExit` and `KernelChildren` prove what each step changes and leaves alone, what calls return and what runs do;
  `KernelExamples` has the runs in which the code does what one would not expect.
  `Kernels` is the kernel in the program's own form: a class whose methods update the global variables one after the
  other and scan the lists with loops; each method is proved to compute its function.
* **Queue.** `QueueProtocol` is push-back and pop-front cut into instructions and interleaved at will, for any number
  of processes; what each operation was given and must return is told from the calls and instructions alone.
  `MessageQueues` has the queue object: its initialisation, as three system calls on a `Kernel`, and its
  critical sections on the array. `QueueSystems` puts the two together: processes run the protocol's instructions, the
  waits and posts are system calls, and anything else the kernel does happens in between. `StepRefines` and
  `RunRefines` show that such a machine only ever makes protocol moves. `QueueMachines` is that machine as a program: the
  kernel object, the queue object and each process's place in the code, every method one step.

## How the model reads the code

* A handler is one atomic step. For system calls that is so because the alarm signal is masked while they run
  (`disastrOS_semaphores/disastrOS.c:221`). For the tick it is an assumption: its context is set up with an empty mask
  (`disastrOS_semaphores/disastrOS.c:229`), so in C a second alarm could interrupt it.
* Pointers are names. A process is named by its pid, a semaphore or descriptor by a number that is never reused, and
  an object that is freed leaves its map; so a pointer to a freed object is seen as dangling rather than as pointing to
  the block's next owner. The invariant says that there are none, which is what makes reuse of the blocks harmless.
* `Fault` is what C leaves undefined: following a null or dangling pointer, detaching a node from a list that does not
  hold it, inserting a node that is still linked elsewhere. `KernelSteps.StepKeeps` says exactly when it happens.
* The kernel's pools are counts of free blocks, except that a free process or semaphore block keeps the one list field
  that allocation does not initialise: `sem_descriptors` (`disastrOS_semaphores/disastrOS_pcb.c:53-58` sets
  `descriptors` twice instead) and `waiting_descriptors` (`disastrOS_semaphores/disastrOS_semaphore.c:31`). The
  invariant shows that the old contents are always an empty list.
* The descriptor pools hold `MAX_NUM_PROCESSES` blocks for all processes together
  (`disastrOS_semaphores/disastrOS_semdescriptor.c:23-34`), although their buffers are sized for more.
* In a handler that switches, `running` is null between giving up the processor and taking the next process. The order
  of list operations within a handler is the code's where it can be observed.

## Where the code differs from its comments

* `disastrOS_semaphores/disastrOS_wait.c:33-41` announces an error for a process that is not a child. There is one only
  when the caller has no children at all (`WaitForStranger`); a caller with children reaps its last child or sleeps, and
  then for ever (`SleepsForEver`). `StrangerExample` is a two-step run into that.
* `disastrOS_semaphores/disastrOS_exit.c:8-14` announces that children move to init and that a waiting parent is
  awakened. The children's list entries move, their parent pointers do not (`OrphanDangles`, `OrphanExample`). So an
  init that waits for such a child, or for any, is awakened by an exit if and only if the parent pointer is init
  (`ExitWakesInit`); `LostWakeUpExample` is a run after which init sleeps though the child it waits for is dead. Exit
  also leaves semaphores open (`OpenExitExample`). `ExitExact` gives the exact condition under which exit leaves a
  consistent kernel, `ExitFaults` the one under which it faults. That comment also gives init the pid 1; it is 0, the
  first value of `last_pid`.
* Exit takes a process off its awaited parent's children list and does not free the list node
  (`disastrOS_semaphores/disastrOS_exit.c:50-52`): `ChildNodes`, `NodesLost`.
* Nothing stops a process from waiting when nobody is ready (`disastrOS_semaphores/disastrOS_semwait.c:50`):
  `StepKeeps` has the exact condition, `FaultExample` is a two-step run into it.
* `disastrOS_semaphores/FSMQ.c:20` opens `sem_empty` with 4, not with `size_max`. The queue never holds more than 4
  messages, and the permits protect the ring exactly when it has at least 4 slots (`PermitsFitRing`).
* An open that fails leaves everything about semaphores as it was, unless the id was unused and a semaphore block was
  free: then the semaphore it created stays behind (`disastrOS_semaphores/disastrOS_semopen.c:23-36`): `FailedOpen` is
  the exact statement. The next open and close of that id free it, which is the one case in which close does not undo
  open (`CloseUndoesOpen`). `LeftoverExample` is a run into that case.
* An open of an id in use ignores the count (`disastrOS_semaphores/disastrOS_semopen.c:22-30`): `OpenCount`. So whether
  the queue's three opens give a queue in its initial state depends on the ids 1, 2 and 3: `QueueOpens` has the exact
  condition, `TakenIdExample` a run that fails it.
* The status of the running process is not always `Running` after a switch
  (`disastrOS_semaphores/disastrOS_sempost.c:41`): `RunningStatus` says what it is after every step, `MarkedExactly` when
  it is `Running`, `UnmarkedExample` is a two-step run after which it is not.

## Assumptions

* Exiting processes have no children and no open semaphores, and are not init (`CleanExit`), as in
  `disastrOS_semaphores/disastrOS_test.c:95-98`; the cases without that are in `KernelExit`.
* Safety of the unguarded head detaches is derived from one process that never waits, sleeps or exits, like the sleeper
  of `disastrOS_semaphores/disastrOS_test.c:11-18` (`Alive`, `IdleRun`).
* The pools have room when a process is spawned: `PCB_alloc` uses the block before `internal_spawn` checks it.
* All users of a queue share one queue object and have its three semaphores open under the numbers stored there
  (`HasQueue`). `disastrOS_semaphores/FSMQ_test.c:47` copies the object and is not an example of that.
* Integers do not overflow; the memory given to a pool is aligned for its bookkeeping.

## Model

| member | source | states |
|---|---|---|
| PoolAllocators.PoolAllocator.Init | disastrOS_semaphores/pool_allocator.c:19-47 | too small a buffer changes nothing; otherwise the pool is fresh, its free list complete and its bookkeeping inside the buffer |
| PoolAllocators.PoolAllocator.GetBlock | disastrOS_semaphores/pool_allocator.c:49-65 | computes `Get` in place, keeps the pool valid, returns null exactly when no block is free |
| PoolAllocators.PoolAllocator.ReleaseBlock | disastrOS_semaphores/pool_allocator.c:67-91 | computes `Release` in place; succeeds exactly for the address of a block that is handed out, otherwise changes nothing |
| PoolAllocators.GetTakesHead | disastrOS_semaphores/pool_allocator.c:50-64 | get removes exactly the head of the acyclic free chain and marks exactly it detached |
| PoolAllocators.ReleaseReturnsBlock | disastrOS_semaphores/pool_allocator.c:70-90 | release pushes exactly that block on the chain, if and only if the address is aligned, in range and handed out, with truncating division for negative offsets |
| PoolAllocators.ReleaseErrors | disastrOS_semaphores/pool_allocator.c:72-84 | which error release reports: unaligned for an address that is no block's, out of range for a block the buffer does not have, double free for one that is not handed out |
| PoolAllocators.ReleaseUndoesGet | disastrOS_semaphores/pool_allocator.c:49-91 | releasing the block just taken restores the allocator exactly |
| PoolAllocators.BlocksDisjoint | disastrOS_semaphores/pool_allocator.c:36-37 | every block lies between the start of the buffer and the bookkeeping area, and no two share a byte |
| PoolAllocators.HeldBlocks | disastrOS_semaphores/pool_allocator.c:49-91 | over every history of calls, good or bad, the blocks in callers' hands are exactly the detached ones, are never handed out again, are pairwise disjoint and stay clear of the bookkeeping area |
| LinkedLists.ListHead.Find | disastrOS_semaphores/linked_list.c:10-19 | finds the node if and only if it is in the list |
| LinkedLists.ListHead.Insert | disastrOS_semaphores/linked_list.c:21-54 | a linked node is refused and nothing changes; otherwise the list becomes the sequence with the node after `prev`, doubly linked, ends and size exact |
| LinkedLists.ListHead.Detach | disastrOS_semaphores/linked_list.c:56-79 | the list becomes the sequence without the node, whose links are null |
| LinkedLists.DetachUndoesInsert | disastrOS_semaphores/linked_list.c:21-79 | detaching what was inserted restores the original list, wherever it was inserted |
| LinkedLists.MoveToEnd | disastrOS_semaphores/disastrOS_sempost.c:37-38 | moving a node from one list to the end of another keeps both well formed and disjoint |
| HandoffSemaphore.RefinesTextbook | disastrOS_semaphores/disastrOS_sempost.c:34-42 | over every history the hand-off semaphore refines the textbook one: permits are max(count, 0), waiters are the pending waits in order |
| HandoffSemaphore.FirstComeFirstServed | disastrOS_semaphores/disastrOS_semwait.c:42-52 | count is initial + posts - waits; the first callers get the permits, exactly the others are blocked, in call order |
| HandoffSemaphore.PositionAfter | disastrOS_semaphores/disastrOS_sempost.c:34-41 | a blocked process moves up by one per post and by nothing else |
| KernelPlaces.ExactlyOnePlace | disastrOS_semaphores/disastrOS_semwait.c:44-52 | every process is once in exactly one of: running, ready, waiting, zombie; the status of one that does not run names its list |
| KernelPlaces.ExactlyOneReason | disastrOS_semaphores/disastrOS_schedule.c:21-28 | a waiting process has one timer, or one entry in one semaphore's waiting list, or waits for a child, and only one of these; any other process has neither timer nor entry |
| KernelPlaces.DescriptorPlace | disastrOS_semaphores/disastrOS_semwait.c:44-46 | an open descriptor and its list node refer to each other; the node is once in exactly one list of its semaphore, the waiting one if and only if its process sleeps in a semwait on that number |
| KernelPlaces.ChildNodes | disastrOS_semaphores/disastrOS_exit.c:50-52 | free child nodes and entries of children lists add up to the same number in every step except the exit of an awaited process, which loses one |
| KernelPlaces.NodesLost | disastrOS_semaphores/disastrOS_exit.c:50-52 | over every run as many child nodes are lost as awaited processes have exited |
| KernelInvariant.BootInv | disastrOS_semaphores/disastrOS.c:139-238 | the state set up at start satisfies the invariant |
| KernelSteps.StepKeeps | disastrOS_semaphores/disastrOS.c:102-122 | every call and tick faults exactly when it must take the head of an empty ready queue or spawns from an exhausted pool, and otherwise keeps the whole invariant |
| KernelSteps.SemWaitKeeps | disastrOS_semaphores/disastrOS_semwait.c:9-57 | semwait faults exactly without permit and without ready process; otherwise the invariant holds after it |
| KernelExamples.FaultExample | disastrOS_semaphores/disastrOS_semwait.c:50 | a two-step run from boot into a detach from the empty ready queue |
| KernelSteps.SemPostKeeps | disastrOS_semaphores/disastrOS_sempost.c:9-46 | sempost never faults: its detaches always find their node in the list |
| KernelSteps.SemOpenKeeps | disastrOS_semaphores/disastrOS_semopen.c:13-53 | semopen never faults and keeps the invariant, on every error branch too |
| KernelSteps.OpenDescKeeps | disastrOS_semaphores/disastrOS_semopen.c:32-46 | when the first descriptor allocation succeeds so does the second, and both nodes end up linked to each other |
| KernelSteps.SemCloseKeeps | disastrOS_semaphores/disastrOS_semclose.c:12-55 | semclose never faults and leaves no dangling descriptor |
| KernelSteps.CloseShape | disastrOS_semaphores/disastrOS_semclose.c:20-54 | closing an open number always succeeds: none of the three frees reports an error |
| KernelSteps.SleepKeeps | disastrOS_semaphores/disastrOS_sleep.c:7-33 | sleep never fails and hands the processor to the ready head, or to nobody when none is ready |
| KernelMoves.TimerFree | disastrOS_semaphores/disastrOS_timer.c:23-26 | a timer block is always free for the running process, by pigeonhole over sleeping processes |
| KernelMoves.AddTimerSplit | disastrOS_semaphores/disastrOS_timer.c:44-61 | the new timer goes behind all that fire no later, ties included, and before all that fire later |
| KernelSteps.ScheduleKeeps | disastrOS_semaphores/disastrOS_schedule.c:8-43 | the scheduler terminates without fault and keeps the invariant |
| KernelSteps.WaitKeeps | disastrOS_semaphores/disastrOS_wait.c:7-66 | wait faults exactly when it must block and nobody is ready; a process that blocks has no dead child that would answer it |
| KernelSteps.ExitKeeps | disastrOS_semaphores/disastrOS_exit.c:15-95 | a clean exit faults exactly when no parent awaits it and nobody is ready; otherwise no wake-up is lost and the invariant holds |
| KernelExit.ExitExact | disastrOS_semaphores/disastrOS_exit.c:15-95 | exit leaves a consistent kernel if and only if the caller has no children and no open semaphore |
| KernelExit.OrphanDangles | disastrOS_semaphores/disastrOS_exit.c:20-33 | a child handed to init still names the dead process as parent |
| KernelExit.OpenDescDangles | disastrOS_semaphores/disastrOS_exit.c:74-88 | a semaphore left open breaks the invariant, whichever way exit goes |
| KernelExit.InitExitFaults | disastrOS_semaphores/disastrOS_exit.c:19-37 | init can never exit |
| KernelExit.ExitFaults | disastrOS_semaphores/disastrOS_exit.c:35-94 | an exit, clean or not, faults exactly when no parent awaits it and nobody is ready |
| KernelExit.ExitWakesInit | disastrOS_semaphores/disastrOS_exit.c:38-48 | an exit wakes an init that waits for the caller or for any child if and only if the caller's parent pointer is init, whichever list holds the caller |
| KernelExit.ExitHandsOver | disastrOS_semaphores/disastrOS_exit.c:20-27 | an exit puts all of the caller's children, in order, behind init's |
| KernelExit.DropTimersExactly | disastrOS_semaphores/disastrOS_exit.c:63-72 | of the timers exactly the process's own are taken off the list |
| KernelExamples.LostWakeUpExample | disastrOS_semaphores/disastrOS_exit.c:20-48 | an eight-step run from boot after which init waits for a child in its own list that is already a zombie |
| KernelExamples.OpenExitExample | disastrOS_semaphores/disastrOS_exit.c:74-88 | a five-step run from boot that exits with a semaphore open and leaves a zombie with a descriptor |
| KernelChildren.WaitForChild | disastrOS_semaphores/disastrOS_wait.c:22-65 | waiting for any child or for an own one: if a fitting child is dead, it is returned (the first dead one of the list, for any child) and gone from every list; otherwise the caller sleeps |
| KernelChildren.ScanStops | disastrOS_semaphores/disastrOS_wait.c:20-31 | the scan ends at the first child that matches, otherwise at the last child |
| KernelChildren.WaitForStranger | disastrOS_semaphores/disastrOS_wait.c:22-65 | waiting for a non-child is an error exactly for a caller without children; otherwise the last child is reaped, or the caller sleeps |
| KernelChildren.SleepsForEver | disastrOS_semaphores/disastrOS_wait.c:33-65 | in no run is a process that sleeps for a non-child ever woken |
| KernelExamples.StrangerExample | disastrOS_semaphores/disastrOS_wait.c:33-41 | a two-step run from boot in which no error is reported |
| KernelExamples.OrphanExample | disastrOS_semaphores/disastrOS_exit.c:20-33 | a five-step run from boot that leaves a child with a dead parent |
| KernelEffects.ElapsedExactly | disastrOS_semaphores/disastrOS_timer.c:63-70 | the timers at the front of the list that have fired are all the timers that have fired |
| KernelEffects.WakeFirstEffect | disastrOS_semaphores/disastrOS_schedule.c:22-28 | one turn of the wake-up loop never faults: the owner of the first timer, and nobody else, moves from the waiting list to its place in the ready queue |
| KernelEffects.WakeEffect | disastrOS_semaphores/disastrOS_schedule.c:21-29 | the wake-up loop makes the ready queue `woken ++ old`, in timer order, and takes exactly the woken off the waiting and timer lists |
| KernelEffects.StepEffect | disastrOS_semaphores/disastrOS_schedule.c:31-37 | the exact change of ready queue, processor and waiting list in every step |
| KernelStatus.RunningStatus | disastrOS_semaphores/disastrOS_semwait.c:49-51 | what every step leaves in the status of the running process: ready after a blocking call, waiting after a hand-over, running after schedule and exit, unchanged otherwise |
| KernelStatus.MarkedExactly | disastrOS_semaphores/disastrOS_sempost.c:36-41 | the running process is marked running if and only if the scheduler or exit chose it, or it went on running and was marked before |
| KernelExamples.UnmarkedExample | disastrOS_semaphores/disastrOS_wait.c:58-65 | a two-step run from boot after which the running process is marked ready |
| KernelSemaphores.SemStep | disastrOS_semaphores/disastrOS_sempost.c:34-42 | wait and post on a semaphore act on its count and waiters as the hand-off semaphore, and no other step does; only a close without waiters removes it |
| KernelSemaphores.SemBorn | disastrOS_semaphores/disastrOS_semopen.c:22-30 | a semaphore appears only by an open, with exactly that id and count and no stale waiters |
| KernelSemaphores.NoStaleWaiters | disastrOS_semaphores/disastrOS_semaphore.c:24-33 | the list field that allocation does not initialise is empty anyway; both descriptor pools have as many blocks free |
| KernelTables.StepTables | disastrOS_semaphores/disastrOS_semclose.c:15-20 | a number a process has open keeps naming the same semaphore in every step but the process's own close |
| KernelTables.UnusedStays | disastrOS_semaphores/disastrOS_semopen.c:22-30 | an id comes into use only by an open of that id |
| KernelTables.CloseFreesLast | disastrOS_semaphores/disastrOS_semclose.c:35-42 | close frees the semaphore if and only if no other descriptor in any process refers to it |
| KernelResults.WaitPostResult | disastrOS_semaphores/disastrOS_semwait.c:13-56 | wait and post return an error, a negative value, exactly for a number that is not open, and then change nothing about semaphores; otherwise 0; the value goes to whoever runs after the call |
| KernelResults.OpenResult | disastrOS_semaphores/disastrOS_semopen.c:15-50 | open returns the next, unused number, naming the semaphore with that id, exactly when arguments and pools allow it; otherwise an error, and nothing about semaphores has changed unless the open created one |
| KernelResults.FailedOpen | disastrOS_semaphores/disastrOS_semopen.c:15-44 | a failing open leaves semaphores, descriptors, lists and pools unchanged if and only if it did not get as far as creating a semaphore; otherwise exactly that semaphore is left over |
| KernelResults.OpenCount | disastrOS_semaphores/disastrOS_semopen.c:22-30 | the semaphore an open leads to has the count asked for and nobody waiting if and only if the id was unused or its semaphore was like that |
| KernelResults.CloseResult | disastrOS_semaphores/disastrOS_semclose.c:14-54 | close reports an error exactly for a number that is not open, and then changes nothing about semaphores; afterwards the number is not open |
| KernelResults.ClosePools | disastrOS_semaphores/disastrOS_semclose.c:43-53 | a successful close gives back one descriptor and touches no other semaphore |
| KernelResults.CloseUndoesOpen | disastrOS_semaphores/disastrOS_semclose.c:20-54 | an open and a close of its number restore semaphores, descriptors, lists and pools if and only if the semaphore was new or somebody referred to it |
| KernelExamples.LeftoverExample | disastrOS_semaphores/disastrOS_semopen.c:23-36 | a run from boot into an open that fails and leaves its semaphore behind, after which an open and a close do not restore the state |
| KernelRuns.RunInv | disastrOS_semaphores/disastrOS.c:102-137 | the invariant holds in every state of every run |
| KernelRuns.IdleMakesSafe | disastrOS_semaphores/disastrOS_semwait.c:50-51 | with an idle process the ready queue is non-empty whenever another process runs, and every step succeeds |
| KernelRuns.IdleRun | disastrOS_semaphores/disastrOS_test.c:11-18 | so over whole runs: somebody always runs, and no permitted step ever faults |
| KernelRuns.SemAlong | disastrOS_semaphores/disastrOS_sempost.c:34-42 | over every run, a kernel semaphore is the hand-off semaphore executing the run's waits and posts |
| KernelRuns.SemRefinesTextbook | disastrOS_semaphores/disastrOS_sempost.c:34-42 | so over every run a kernel semaphore refines the textbook one: permits are max(count, 0), pending waits are the processes on its list in order |
| KernelRuns.SemHistory | disastrOS_semaphores/disastrOS_semwait.c:42-52 | over every run since creation: count = initial + posts - waits, as many waiters as max(0, -count), and who they are |
| KernelRuns.FifoWakeup | disastrOS_semaphores/disastrOS_sempost.c:34-41 | the process at position i of a waiting list waits through the next i posts, whatever else happens, and the one after makes it run |
| KernelRuns.PostWakesHead | disastrOS_semaphores/disastrOS_sempost.c:37-41 | a post on a semaphore with waiters makes the first of them run |
| KernelRuns.PlaceStep | disastrOS_semaphores/disastrOS_schedule.c:26-36 | per step, a ready process moves by the wake-ups put ahead of it less the head pop; posts and spawns never overtake it |
| KernelRuns.DispatchBound | disastrOS_semaphores/disastrOS_semwait.c:50-51 | the process at index i of the ready queue is dispatched exactly when the head pops reach i + 1 + the wake-ups put ahead |
| KernelWaking.WokenExactly | disastrOS_semaphores/disastrOS_schedule.c:21-28 | a process leaves the waiting list if and only if the step is its own timer, a hand-over on its own semaphore or the exit of an awaited child |
| KernelWaking.SleepStarts | disastrOS_semaphores/disastrOS_sleep.c:15-25 | sleep puts the caller on the waiting list with a timer for now + cycles |
| KernelWaking.SleepsUntilFired | disastrOS_semaphores/disastrOS_schedule.c:21-29 | nobody wakes early, and the first schedule at or after the time wakes the sleeper |
| KernelWaking.ClockCounts | disastrOS_semaphores/disastrOS.c:51-56 | over every run the clock counts the ticks |
| KernelWaking.WokenInTime | disastrOS_semaphores/disastrOS_schedule.c:21-29 | once the ticks have brought the clock to a sleeper's time, the first schedule that saw its timer fired has woken it, and it waited until then |
| KernelWaking.SleepLasts | disastrOS_semaphores/disastrOS_sleep.c:15-25 | a sleep of n cycles, n at least 1, ends exactly at the n-th tick after the call, over every run |
| KernelFrames.ClockStep | disastrOS_semaphores/disastrOS.c:51-56 | the clock advances by one at a tick and in no other step; only a spawn adds a process and uses up a pid |
| KernelFrames.BystanderStep | disastrOS_semaphores/disastrOS.c:102-122 | of a process other than its caller a step changes nothing but its place, except for the result given to whoever runs after a wait or post, and for the parent that awaits an exit |
| KernelFrames.CallerStep | disastrOS_semaphores/disastrOS.c:102-122 | what a step leaves of its caller: parent, children, exit value, open numbers, and a result only if it goes on running |
| KernelFrames.ListsGrow | disastrOS_semaphores/disastrOS_wait.c:60-61 | a caller that goes to sleep joins the waiting list at its end, one that dies the zombie list at its end, and the others keep their order |
| KernelReturns.SpawnCreates | disastrOS_semaphores/disastrOS_spawn.c:19-33 | spawn returns a pid that no process has; that process is the caller's last child, ready, last in the queue, with no children and nothing open |
| KernelReturns.NumbersCount | disastrOS_semaphores/disastrOS_semopen.c:32-38 | a process's semaphore numbers are 0, 1, 2, ... in the order of its successful opens |
| KernelReturns.ExitHandsBack | disastrOS_semaphores/disastrOS_exit.c:46-87 | the exit of an awaited child makes the parent run with the child's pid as result, and the child is gone from processes, zombies and children |
| KernelReturns.SleeperReturns | disastrOS_semaphores/disastrOS_exit.c:54-55 | over every run, a blocked wait returns to its caller the pid of a fitting child that has just exited, a blocked semwait returns 0, a sleep leaves the last result alone |
| KernelReturns.GoneForGood | disastrOS_semaphores/disastrOS_pcb.c:46 | over every run, a pid is never used again |
| KernelReturns.ExitValueStays | disastrOS_semaphores/disastrOS_exit.c:17-36 | over every run after an exit, the dead process keeps its exit value until it is removed |
| Kernels.Kernel.Start | disastrOS_semaphores/disastrOS.c:139-238 | start reaches the boot state, which satisfies the invariant |
| Kernels.Kernel.Handle | disastrOS_semaphores/disastrOS.c:85-122 | for every call that does not fault, trap and handler together compute `Step` on the global variables; all but an exit that is not clean keep the invariant |
| Kernels.Kernel.Trap | disastrOS_semaphores/disastrOS.c:91-97 | stores call number and arguments in the caller's PCB |
| Kernels.Kernel.SemDescriptorListByFd | disastrOS_semaphores/disastrOS_semdescriptor.c:53-62 | the scan finds the first descriptor with that number, or none |
| Kernels.Kernel.SemaphoreListById | disastrOS_semaphores/disastrOS_semaphore.c:41-50 | the scan finds the semaphore with that id, or none |
| Kernels.Kernel.InternalSemWait | disastrOS_semaphores/disastrOS_semwait.c:9-57 | the statements in order compute `SemWait` and keep the invariant |
| Kernels.Kernel.InternalSemPost | disastrOS_semaphores/disastrOS_sempost.c:9-46 | the statements in order compute `SemPost` and keep the invariant |
| Kernels.Kernel.InternalSemOpen | disastrOS_semaphores/disastrOS_semopen.c:13-53 | the statements in order compute `SemOpen` and keep the invariant |
| Kernels.Kernel.OpenDescriptor | disastrOS_semaphores/disastrOS_semopen.c:32-50 | with no free descriptor an error, otherwise both nodes, linked, and the next number |
| Kernels.Kernel.InternalSemClose | disastrOS_semaphores/disastrOS_semclose.c:12-55 | the statements in order compute `SemClose` and keep the invariant |
| Kernels.Kernel.TimerListAdd | disastrOS_semaphores/disastrOS_timer.c:44-61 | the scan inserts where sorted insertion says |
| Kernels.Kernel.InternalSleep | disastrOS_semaphores/disastrOS_sleep.c:7-33 | the statements in order compute `Sleep` and keep the invariant; with nobody ready they leave no process running |
| Kernels.Kernel.InternalSchedule | disastrOS_semaphores/disastrOS_schedule.c:17-37 | the wake-up loop and the rotation compute `Schedule` and keep the invariant |
| Kernels.Kernel.Rotate | disastrOS_semaphores/disastrOS_schedule.c:31-37 | the running process goes to the end and the head runs |
| Kernels.Kernel.TimerInterrupt | disastrOS_semaphores/disastrOS.c:51-56 | a tick advances the clock by one, also when it returns, and schedules |
| Kernels.Kernel.InternalSpawn | disastrOS_semaphores/disastrOS_spawn.c:11-33 | the new process joins the caller's children and the end of the ready queue, with the next pid |
| Kernels.Kernel.ScanFor | disastrOS_semaphores/disastrOS_wait.c:20-31 | the scan stops at the first matching child, otherwise it is left with the last one |
| Kernels.Kernel.InternalWait | disastrOS_semaphores/disastrOS_wait.c:7-66 | the statements in order compute `Wait` and keep the invariant |
| Kernels.Kernel.ReparentChildren | disastrOS_semaphores/disastrOS_exit.c:20-33 | the loop moves all children, in order, to the end of init's list |
| Kernels.Kernel.FreeTimersOf | disastrOS_semaphores/disastrOS_exit.c:63-72 | the scan removes exactly the process's timers and frees as many blocks |
| Kernels.Kernel.InternalExit | disastrOS_semaphores/disastrOS_exit.c:15-95 | the statements in order compute `Exit`; a clean exit keeps the invariant and gives the caller's pid to a parent that awaits it |
| Kernels.Kernel.BuryChild | disastrOS_semaphores/disastrOS_exit.c:46-87 | the awaited child disappears and its parent leaves the waiting list and runs |
| QueueProtocol.NextKeeps | disastrOS_semaphores/FSMQ.c:29-62 | every instruction of every producer and consumer, in any interleaving, keeps the queue's invariant |
| QueueProtocol.ReachableInv | disastrOS_semaphores/FSMQ.c:29-62 | so it holds in every reachable state, for any number of processes |
| QueueProtocol.TokenConservation | disastrOS_semaphores/FSMQ.c:20-59 | free permits, granted operations and messages add up to 4, dually to `size`, and to 1 for the mutex; `0 <= size <= 4 <= size_max` |
| QueueProtocol.MutualExclusion | disastrOS_semaphores/FSMQ.c:31-41 | no two processes that have been let in are ever inside the critical sections, of either kind |
| QueueProtocol.RunTraced | disastrOS_semaphores/FSMQ.c:29-61 | over every run each operation in flight is at the instruction its moves have brought it to; a push carries the argument it was called with, and a pop past its removal the message of its turn |
| QueueProtocol.FirstInFirstOut | disastrOS_semaphores/FSMQ.c:29-62 | over every run the slots from `front_idx` hold exactly the arguments of the pushes that have stored theirs, in that order, less as many from the front as pops have removed; both are told from the calls and instructions alone |
| QueueProtocol.PopsReturn | disastrOS_semaphores/FSMQ.c:46-61 | over every run the pop that was the n-th to remove a message returns, to its own caller, the argument of the push that was the n-th to store |
| QueueProtocol.DeliveredOnce | disastrOS_semaphores/FSMQ.c:52-56 | no two pops, ended or past their removal, have the same turn: no message is returned twice |
| QueueProtocol.NoOverwriteNoUnderflow | disastrOS_semaphores/FSMQ.c:35-54 | the slot being filled holds no live message; the one being read holds the oldest |
| QueueProtocol.DeadlockFree | disastrOS_semaphores/FSMQ.c:31-59 | if all operations in flight are blocked, all are producers and the queue holds 4 messages, or all are consumers and it is empty |
| QueueProtocol.PermitsFitRing | disastrOS_semaphores/FSMQ.c:20 | no run overfills the ring if and only if `size_max` is at least 4 |
| MessageQueues.QueueOpens | disastrOS_semaphores/FSMQ.c:12-27 | whatever the machine does between the three opens, the caller gets three different semaphores, and they make a queue in its initial state if and only if every id was unused when opened or its semaphore was as that open would make it |
| MessageQueues.UnusedIdsFit | disastrOS_semaphores/FSMQ.c:20-24 | the intended use meets that condition: ids unused at the start and not opened by others meanwhile |
| MessageQueues.TakenIdExample | disastrOS_semaphores/FSMQ.c:20 | a run from boot with the first id taken, after which the initialisation succeeds call by call and gives an empty queue without a permit to push |
| MessageQueues.FixedSizeMessageQueue.Init | disastrOS_semaphores/FSMQ.c:12-27 | initialisation, for a ring of any size and with the rest of the machine running between the calls, keeps the numbers the three opens return |
| MessageQueues.FixedSizeMessageQueue.PushCritical | disastrOS_semaphores/FSMQ.c:34-38 | the critical section appends the message in place, and is three protocol instructions |
| MessageQueues.FixedSizeMessageQueue.PopCritical | disastrOS_semaphores/FSMQ.c:52-56 | the critical section removes and returns the oldest message, and is three protocol instructions |
| QueueSystems.StepRefines | disastrOS_semaphores/FSMQ.c:29-62 | on the kernel, every step of a queue user is its protocol move, and everything else (ticks, other processes, closes) leaves the protocol's state alone |
| QueueSystems.RunRefines | disastrOS_semaphores/FSMQ.c:29-62 | every run of kernel and queue together is a run of the protocol |
| QueueSystems.QueueIsFifo | disastrOS_semaphores/FSMQ.c:29-62 | on the kernel, over every run from the opened queue: the ring holds what was passed to push-back and stored, in order, less what was removed, and each pop-front returns to its caller the stored message of its turn, no turn twice |
| QueueSystems.ArgumentsPassed | disastrOS_semaphores/FSMQ.c:29-36 | the argument the protocol gives a push is what its process passed to push-back |
| QueueSystems.RingHoldsRest | disastrOS_semaphores/FSMQ.c:29-62 | from any state of the machine, the ring holds what has been pushed and not popped |
| QueueSystems.QueueNeverStuck | disastrOS_semaphores/FSMQ.c:31-59 | if the kernel can run none of the processes inside queue operations, all of them are producers and the ring holds 4 messages, or all are consumers and it is empty |
| QueueSystems.CriticalSectionsExclude | disastrOS_semaphores/FSMQ.c:34-56 | two processes that are not waiting are never both inside the critical sections |
| QueueSystems.InstructionsRun | disastrOS_semaphores/disastrOS_semwait.c:44-52 | with an idle process, no wait or post of the queue ever faults |
| QueueMachines.QueueMachine.Execute | disastrOS_semaphores/FSMQ.c:29-62 | the next instruction of push-back or pop-front, on the shared array or as a system call of the kernel object, is one step of the machine; the last one of pop-front gives its result |
| QueueMachines.QueueMachine.UseRing | disastrOS_semaphores/FSMQ.c:34-56 | the instructions between the system calls, on the array in place, do what the protocol says |
| QueueMachines.QueueMachine.Elsewhere | disastrOS_semaphores/FSMQ.c:29-62 | anything else on the kernel object is a step that leaves the queue object alone |

## Left out

- `ucontext`, signals, the interval timer, stacks, varargs and shutdown in `disastrOS_semaphores/disastrOS.c`: a call or tick is one step here.
- Printing, logging and status dumps.
- Resources and their descriptors: the same two-way relation as semaphores, without waiting.
- `internal_fork` and `internal_shutdown`: fork repeats spawn's list moves.
- What a post that hands over, or a semwait that blocks, is meant to return to its own caller: the value is written to another process (`WaitPostResult` says to which); `SleeperReturns` says what a blocked caller gets in the end.
- The result pointer through which a parent reads the exit status (`ExitValueStays` says what is there to be read), and the signal bits.
- The kernel's lists as heap nodes: `Kernels` keeps them as sequences and maps in its fields. That detach and insert on real nodes compute the sequence operations is proved in `LinkedLists`, one list at a time; one class that holds all kernel objects on the heap is not built.
- Likewise the pools inside `Kernels` are counts; `PoolAllocators` proves the allocator itself.
- The list library's debug build; inserting a node that is the only member of another list, which the release build does not notice.
- LinkedLists.MoveToEnd: two lists at a time; its frame says that all other nodes are untouched.
- KernelRuns.IdleRun: the idle process itself is an assumption about the programs that run, as is that spawns find free blocks.
- Queue destruction, the memory behind messages, `FixedSizeMessageQueue_size` and `FixedSizeMessageQueue_sizeMax`.
- Liveness beyond the exact bounds above: no fairness of the tick is assumed, so that some process runs at all is not derived.
- Overflow of C integers and alignment of the pools' bookkeeping.
