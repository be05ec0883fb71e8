# Verified model of the Hermit scheduler and its blocking primitives

This project models the scheduling core of the Hermit unikernel and three smaller components, and proves
what holds in every run of them:

- `PerCoreScheduler`: tasks that are current, ready, blocked, new, exiting or retired, on any number of cores
  that wake each other through their inputs; `spawn`, `exit`, `join`, blocking, waking, timer expiry,
  rescheduling and clean-up.
- The two bitmap-indexed priority queues, the sorted blocked queue, and the timer list that shares one
  hardware timer between two sources.
- The wait and wake protocols on top: futex, `TaskNotify`, semaphore and recursive mutex.
- The restart limiter of the supervisor, directory paging (`getdents`), and the transmit credit of vsock
  (section 5.10.6.3 of the Virtio 1.1 specification, Buffer Space Management).

## How it is organised

Every region that the kernel runs under a lock or with interrupts off is one atomic step. Each component has
two forms. The classes (`PriorityTaskQueue`, `TaskHandlePriorityQueue`, `TimerList`, `BlockedTaskQueue`,
`PerCoreScheduler`, `System`, `ParkingLot`, and so on) update their fields in place, with the loops of the
original, and each method is proved equal to a specification function on values. The specification functions
form state machines, and the lemmas about their runs are the main results. Where the original panics (a failed
assertion, `unreachable!()`, an index out of range) the model has an explicit outcome: `Panic` in a
specification function, `ok == false` in a method.

| file | content |
|---|---|
| `Basics`, `Bitmap`, `PriorityLists` | vocabulary; words as bitmaps; lists per priority against one arrival-ordered sequence |
| `ReadyQueue`, `HandleQueue` | the ready queue; the wait queues that share a pool of bitmaps |
| `Timers`, `BlockedQueue` | the timer list; the blocked queue |
| `KernelState` | the kernel as a state machine of steps over all cores |
| `KernelInvariant`, `KernelRegistry`, `KernelTimers`, `KernelLedger` | the four parts of the kernel invariant |
| `KernelSteps`, `KernelQueues`, `KernelRuns`, `KernelProgress`, `KernelDelivery` | every step keeps it; what follows for every run |
| `KernelEffects` | what single steps of a run do to the queues, exactly and in order |
| `KernelPanics` | exactly when a step panics, and the end of a timed wait |
| `Scheduler` | the scheduler objects, composed of the queue objects, refining every step of `KernelState` |
| `Futex`, `FutexRuns`, `FutexPool` | futexes: the operations, their runs, and the same on the real queues and their pool |
| `TaskNotify`, `Semaphore`, `RecursiveMutex` | the other wait and wake protocols |
| `Supervisor`, `Dirents`, `VsockCredit` | the smaller components |

## Where the code differs from what it says

Some expected properties do not hold of the code. The model follows the code and states exactly when the
property holds.

- The first wait queue that allocates a bitmap gets number 0, which also means "none allocated". It loses a
  handle pushed to it before the next use allocates a second bitmap: a handle pushed to a new queue comes back if
  and only if number 0 was taken before (`HandleQueue.FirstQueueLosesItsHandle`). For futexes this means a waiter
  that is never woken (`FutexPool.FirstWaiterIsLost`). The other results are for pools whose number 0 is taken.
- Every queue keeps its bitmap number for ever, and there are 256 of them. A run panics if and only if it uses more
  queues for the first time than there are numbers left (`HandleQueue.RunsAreIndependent`). A futex makes a new
  queue whenever a task parks at a vacant address, so its runs panic if and only if the numbers handed out before and
  these parkings exceed the pool (`FutexPool.RunsOnPool`).
- `create_timer_abs` keeps the minimum of the old and the new time; it does not override
  (`Timers.CreateIsMinimum`).
- A timed wait that runs out is readied while its handle is still in its queue, until the task takes the handle out
  itself. A wake in between panics on the same core (`KernelPanics.TimedWaitThenWakePanics`), or, if it comes from
  another core, makes the task's core panic when it looks at its input (`KernelPanics.TimedWaitThenInputPanics`).
  `KernelPanics.StepPanicsIff` gives the exact condition for every step. The ledger of handles is proved for runs
  whose waits in wait queues have no time limit; the structure of all queues and timers is proved for all runs.
- The restart limiter is documented as a sliding window. The documented rate holds if and only if the count is at
  most 1, the window is at most one tick, or the window is the largest 64-bit value (`Supervisor.SlidingRateIff`).
  The bound that always holds is twice the count less one (`Supervisor.RestartRate`).
- A window that starts at time zero counts as not started, so grants at time zero count in the first later window.
  A call with fewer than `count` grants in the window before it is granted if and only if this has not used up the
  allowance (`Supervisor.RestartIsGranted`); `Supervisor.CarriedOverFromZero` is a call that is refused.
- The vsock writer never overruns its peer if and only if the announced buffer is at most 2^31 bytes
  (`VsockCredit.SafeExactlyUpToHalf`), because the distance of two wrapping counters is taken with `abs_diff`.
- `RecursiveMutex::release` does not look at the caller. Every holder keeps what it holds if and only if the owner
  releases or nobody owns the mutex (`RecursiveMutex.ReleaseKeepsHoldersIff`).
- A directory entry whose record is longer than 65535 bytes makes `getdents` panic if and only if the buffer has room for
  it, and a reader of C strings sees a name up to its first zero byte (`Dirents.MemDirectoryInterface.GetDents`).

## Model

| member | source | states |
|---|---|---|
| Bitmap.MsbIsHighest | src/scheduler/task/mod.rs:97-99 | the position `msb` returns is a set bit and no higher bit is set |
| ReadyQueue.PriorityTaskQueue.Push | src/scheduler/task/mod.rs:359-366 | the task goes to the back of the list of its priority; bit i is set exactly if list i is non-empty |
| ReadyQueue.PriorityTaskQueue.PopFromQueue | src/scheduler/task/mod.rs:368-375 | takes the head of one list, or nothing from an empty one, and keeps the bitmap in agreement |
| ReadyQueue.PriorityTaskQueue.RemoveFromQueue | src/scheduler/task/mod.rs:379-399 | takes out exactly the task at the index, if there is one, and keeps order and bitmap |
| ReadyQueue.PriorityTaskQueue.IsEmpty | src/scheduler/task/mod.rs:402-406 | the bitmap test is true exactly if all 31 lists are empty |
| ReadyQueue.PriorityTaskQueue.Pop | src/scheduler/task/mod.rs:414-418 | takes the head of the highest non-empty list, found by the bitmap |
| ReadyQueue.PriorityTaskQueue.PopWithPrio | src/scheduler/task/mod.rs:421-429 | like `Pop`, but only if the highest priority present is at least the given one |
| ReadyQueue.PriorityTaskQueue.GetHighestPriority | src/scheduler/task/mod.rs:433-439 | no queued task is more urgent than the result, which names a non-empty list unless it is 0 |
| ReadyQueue.PriorityTaskQueue.SetPriority | src/scheduler/task/mod.rs:442-453 | fails exactly if the task is not in the list of the handle's priority, else moves it to the back of the new list |
| ReadyQueue.RunRefines | src/scheduler/task/mod.rs:343-454 | in every run of push, pop, pop_with_prio and set_priority the 31 lists answer like one arrival-ordered sequence from which the earliest task of the highest priority is taken |
| ReadyQueue.FreshQueueRefines | src/scheduler/task/mod.rs:350-356 | in particular every run from a new queue |
| ReadyQueue.OnlyNamedTaskMoves | src/scheduler/task/mod.rs:442-453 | set_priority moves the named task and keeps every other task in its list and in order |
| HandleQueue.TaskHandlePriorityQueue.EnsureBitmap | src/scheduler/task/mod.rs:240-249 | a queue gets the next number of the shared pool at first use and keeps it; fails exactly if it has none and none is left |
| HandleQueue.TaskHandlePriorityQueue.IsEmpty | src/scheduler/task/mod.rs:270-273 | with a bitmap that agrees with the lists the bitmap test is true exactly if all lists are empty; fails exactly if a number is needed and none is left |
| HandleQueue.TaskHandlePriorityQueue.Contains | src/scheduler/task/mod.rs:276-279 | finds a handle by task id in the list of its priority |
| HandleQueue.TaskHandlePriorityQueue.Push | src/scheduler/task/mod.rs:282-294 | sets the bit in the queue's own bitmap and appends to the list, which is created on demand |
| HandleQueue.TaskHandlePriorityQueue.Pop | src/scheduler/task/mod.rs:296-313 | takes the head of the list its bitmap names, and clears the bit when the list becomes empty |
| HandleQueue.TaskHandlePriorityQueue.Remove | src/scheduler/task/mod.rs:317-339 | the loop deletes every entry with the id from the list of its priority, keeps order, and reports whether there was one; an unused list needs no number |
| HandleQueue.StepQueueSim | src/scheduler/task/mod.rs:223-340 | with number 0 taken, one operation answers like an arrival-ordered sequence, touches only its own bitmap, and panics exactly if it needs a number and none is left |
| HandleQueue.StepWorldSim | src/scheduler/task/mod.rs:46-85 | the same with any number of queues on one pool: numbers stay distinct and every other queue keeps its contents |
| HandleQueue.RunsAreIndependent | src/scheduler/task/mod.rs:46-340 | every run over any number of queues answers like that many independent sequences, and panics if and only if more queues are used for the first time than numbers are left |
| HandleQueue.FirstQueueLosesItsHandle | src/scheduler/task/mod.rs:60-67 | a handle pushed to a new queue comes back from the next pop if and only if number 0 was taken before |
| Timers.TimerList.SlotBySource | src/scheduler/timer_interrupts.rs:47-53 | the search finds the slot of the source |
| Timers.TimerList.NextTimer | src/scheduler/timer_interrupts.rs:56-62 | the slot returned has the earliest time, the first of equal ones |
| Timers.TimerList.CreateTimerAbs | src/scheduler/timer_interrupts.rs:101-114 | sets the slot to the minimum and programs the hardware if the new time is now the next one |
| Timers.TimerList.AdjustBy | src/scheduler/timer_interrupts.rs:74-81 | moves every set slot earlier by the offset and leaves unset slots alone |
| Timers.TimerList.ClearActiveAndSetNext | src/scheduler/timer_interrupts.rs:117-153 | clears the slot that fired, adjusts for an early interrupt, and programs the hardware for the next slot |
| Timers.CreateKeepsArmed | src/scheduler/timer_interrupts.rs:101-114 | the hardware stays at the earliest slot, except exactly when the unset value is "set" while nothing is set; it then never fires later than the time asked for |
| Timers.CreateIsMinimum | src/scheduler/timer_interrupts.rs:101-114 | a slot never becomes later, and the other source keeps its time |
| Timers.ClearActiveEffect | src/scheduler/timer_interrupts.rs:117-153 | after an early interrupt the remaining timer is not before now and keeps its distance to the fired one; the adjustment never underflows |
| Timers.AlwaysArmed | src/scheduler/timer_interrupts.rs:101-153 | in every run the hardware timer is the minimum of the slots and off exactly if none is set, so the interrupt never finds all slots unset |
| BlockedQueue.TaskTable.MarkReadyTask | src/scheduler/task/mod.rs:727-779 | a blocked task becomes ready and is reported as newly ready; a ready task is left alone |
| BlockedQueue.BlockedTaskQueue.Add | src/scheduler/task/mod.rs:782-819 | the cursor loop inserts the task before the first strictly later one and sets the timer |
| BlockedQueue.BlockedTaskQueue.CustomWakeup | src/scheduler/task/mod.rs:912-944 | takes the named task out, and sets the timer for its successor if it was the first |
| BlockedQueue.BlockedTaskQueue.HandleWaitingTasks | src/scheduler/task/mod.rs:950-977 | a task stays exactly if it has no wake-up time or one that is not before now; all others go to the ready queue, in order, and the timer is set for the first that remains |
| BlockedQueue.InsertPlace | src/scheduler/task/mod.rs:782-819 | a task is put behind all that wake no later and before all that wake later, untimed ones last |
| BlockedQueue.InsertKeepsOrder | src/scheduler/task/mod.rs:782-819 | the list stays sorted and the scheduler slot is no later than any wake-up time in it, the new one included |
| BlockedQueue.RemoveKeepsOrder | src/scheduler/task/mod.rs:912-944 | the same after a wake by hand |
| BlockedQueue.ExpiredMembers | src/scheduler/task/mod.rs:957-970 | expiry takes a task if and only if its wake-up time is strictly before now |
| BlockedQueue.ExpiryRestoresTimer | src/scheduler/task/mod.rs:950-977 | the elapsed tasks are a prefix, and whatever the timer was before, afterwards it is early enough for those that remain |
| BlockedQueue.SetTimerIsMinimum | src/scheduler/task/mod.rs:782-819 | blocking sets the scheduler slot to the earlier of its value and the time asked for, and leaves the network slot alone |
| BlockedQueue.TimerNeverTooEarly | src/scheduler/task/mod.rs:912-977 | after a wake by hand or an expiry the slot has its old value or the wake-up time of a task that still sleeps, never an earlier one |
| Scheduler.PerCoreScheduler.BlockCurrentTask | src/scheduler/mod.rs:589-594 | the object refines the blocking step; it fails exactly if the current task is not running |
| Scheduler.PerCoreScheduler.WakeHere | src/scheduler/mod.rs:557-567 | refines waking a task of the core, on the bitmap-indexed queue and the timer list |
| Scheduler.PerCoreScheduler.HandleWaitingTasks | src/scheduler/mod.rs:529-554 | refines timer expiry |
| Scheduler.PerCoreScheduler.HandleTimer | src/arch/x86_64/kernel/scheduler.rs:315-323 | refines the timer interrupt: clear the fired slot, then expiry |
| Scheduler.PerCoreScheduler.CleanupTasks | src/scheduler/mod.rs:957-1009 | the loop drops exactly the retired tasks and returns how many there were |
| Scheduler.PerCoreScheduler.Schedule | src/scheduler/mod.rs:1298-1469 | refines the reschedule step: clean-up, pre-emption or retirement, choice of the next task |
| Scheduler.PerCoreScheduler.FpuSwitch | src/scheduler/mod.rs:904-916 | the FPU belongs to the current task afterwards, whoever had it |
| Scheduler.PerCoreScheduler.CheckInputs | src/scheduler/mod.rs:1012-1029 | the two loops empty the input: first all wake-ups, then all new tasks, in order |
| Scheduler.System.WakeUp | src/scheduler/mod.rs:570-586 | refines waking across cores: here, or by a handle in the other core's input |
| Scheduler.System.Exit | src/scheduler/mod.rs:196-237 | refines exit, with the loop that wakes all joiners in order of arrival |
| Scheduler.System.Spawn | src/scheduler/mod.rs:351-414 | refines spawn: the task is registered with the priority and core asked for, and is ready here with that priority or last in the input of the other core; fails exactly if there is no such core |
| Scheduler.System.Join | src/scheduler/mod.rs:1569-1592 | refines one round of join; it is done exactly if the task is no longer known |
| Scheduler.System.Reschedule | src/scheduler/mod.rs:1298-1469 | a reschedule of one core refines the step of the whole kernel |
| Scheduler.System.AddCore | src/scheduler/mod.rs:1500-1541 | a new core starts on its idle task with empty queues |
| Scheduler.System.GetTid | src/scheduler/mod.rs:1472-1482 | the loop ends at an unused number and skips only used ones, over the wrap of the 32-bit counter |
| Scheduler.System.Perform | src/scheduler/mod.rs:196-1592 | the objects of all cores together refine every step of the kernel and fail exactly where it panics |
| KernelInvariant.WakeLocalKeepsCores | src/scheduler/task/mod.rs:912-944 | waking a task panics if and only if it is not blocked on this core, and otherwise keeps every queue consistent |
| KernelInvariant.HandleWaitingKeepsCores | src/scheduler/mod.rs:529-554 | expiry never fails an assertion of `mark_ready`, and readies exactly the elapsed tasks |
| KernelInvariant.DispatchKeepsCores | src/scheduler/mod.rs:1298-1469 | a reschedule never fails and leaves every task in the queue its status names |
| KernelSteps.StepKeepsBase | src/scheduler/mod.rs:196-1592 | every step of any core, timed waits and their end included, leads from a well-formed state to a well-formed one or panics; when it panics is `KernelPanics.StepPanicsIff` |
| KernelSteps.StepKeepsInv | src/scheduler/mod.rs:196-1592 | every step other than a timed wait in a wait queue also keeps the ledger, and does not panic unless it needs a bitmap and the pool is used up |
| KernelRuns.RunsAreWellFormed | src/scheduler/mod.rs:196-1592 | every state of every run satisfies the invariants, and NO_TASKS equals the number of live tasks that are not idle |
| KernelRuns.ExactlyOnePlace | src/scheduler/mod.rs:373-405 | in every run every task that is not idle is in exactly one place (on the CPU, ready, blocked, in an input, retired), on its core, at one index, and the place agrees with its status and priority |
| KernelRuns.IdleIsNeverQueued | src/scheduler/mod.rs:1340-1396 | in every run the idle task is in no queue and the current task is not retired |
| KernelRuns.BlockedIffHandleOnce | src/scheduler/mod.rs:229-236 | in every run without timed waits in wait queues, a task is blocked without a time limit if and only if its handle is in a join queue, a wait queue or an input, and it is there once |
| KernelRuns.HandleMeansAsleep | src/scheduler/mod.rs:570-586 | the task of such a handle is blocked on the core the handle names, and a handle in an input is in the input of its own core |
| KernelRuns.UntimedRunsPanicIff | src/scheduler/task/mod.rs:741-758 | in such a run a step panics if and only if it is the first use of a wait queue and the pool is used up: `custom_wakeup` never reaches its unreachable case and `mark_ready` never runs on the wrong core or status |
| KernelPanics.StepPanicsIff | src/scheduler/task/mod.rs:912-944 | from every well-formed state, timed waits or not, the exact condition for every step to panic: a wake of a handle whose task is not blocked on its core, an input that names a task twice or one that is not blocked, joiners likewise, or the pool used up; no other step ever panics |
| KernelPanics.RunPanicsIff | src/scheduler/mod.rs:1012-1023 | the same in every state of every run |
| KernelPanics.TimedWaitThenWakePanics | src/scheduler/task/mod.rs:957-970 | from every well-formed state, if a task waits with a time limit, is more urgent than all in its queue, and its time runs out, a wake of the queue on its core panics |
| KernelPanics.TimedWaitThenInputPanics | src/scheduler/mod.rs:570-586 | from every well-formed state with an empty queue, a wake from another core in between does not panic, but the look of the task's core at its input does |
| KernelPanics.UnparkTakesOwnHandle | src/synch/futex.rs:65-75 | a waiter whose time is up takes its own handle out and no other; if it was alone no later wake of the queue panics |
| KernelQueues.SelectionIsMaximal | src/scheduler/mod.rs:1340-1396 | after a reschedule the core runs the old task if all ready ones are less urgent, else the first of the most urgent ready ones, and the idle task only if none is ready |
| KernelQueues.StepGrows | src/scheduler/task/mod.rs:359-375 | no step but the core's own reschedule takes a task out of its ready queue or reorders it |
| KernelProgress.BoundedWaiting | src/scheduler/mod.rs:1340-1396 | a ready task with j tasks before it in its list runs at the latest at the core's (j+1)st reschedule while no more urgent task runs or is ready at these, whatever else happens on any core |
| KernelProgress.ReapIsSafe | src/scheduler/mod.rs:957-1009 | clean-up drops only retired tasks, which are not current, idle or FPU owner on any core, not registered, and in no other queue |
| KernelProgress.DroppedLaterThanRetired | src/scheduler/mod.rs:1349-1386 | in every run a task is dropped only by its core's clean-up, in a later call than the one that retired it |
| KernelProgress.FpuOwnerIsPresent | src/scheduler/mod.rs:1349-1386 | in every run the FPU owner is a live task or the task that is exiting on the core |
| KernelProgress.JoinReturnsAfterExit | src/scheduler/mod.rs:1569-1592 | in every run join of a task that was once known returns only after that task exited |
| KernelProgress.JoinerSleepsUntilExit | src/scheduler/mod.rs:1569-1592 | a joiner stays blocked on its core until the task it waits for exits |
| KernelProgress.ExitWakesJoiners | src/scheduler/mod.rs:229-236 | an exit readies every joiner of its core and leaves the handle of every other joiner in the input of its core |
| KernelDelivery.TimerCoversSleepers | src/scheduler/task/mod.rs:782-819 | in every run, over all steps, the hardware timer of a core is on and set no later than the wake-up time of any task that sleeps there |
| KernelDelivery.WakeReachesMostUrgent | src/scheduler/mod.rs:570-586 | in every run a wake takes the task that came first among the most urgent of the queue and no other, and readies it or leaves its handle in the input of its core |
| KernelDelivery.CheckInputDelivers | src/scheduler/mod.rs:1012-1029 | in every run a core that looks at its input readies every task whose handle was left there and leaves none |
| KernelEffects.SpawnQueues | src/scheduler/mod.rs:351-414 | in every run a spawned task is registered with the priority and core asked for; on the same core it is ready with that priority, behind all ready tasks of it, else it is last in the input of its core |
| KernelEffects.SpawnedTaskArrives | src/scheduler/mod.rs:1025-1029 | in every run a task spawned for another core has, after the next look of that core at its input, the priority it was spawned with, whatever happens in between |
| KernelEffects.AddCoreStarts | src/scheduler/mod.rs:1500-1541 | in every run a new core has its idle task registered at priority 0, current and owner of the FPU, empty queues and an unset timer, and no other core changes |
| KernelEffects.BlockingEffect | src/scheduler/mod.rs:589-594 | in every run who sleeps, parks or joins is blocked with exactly the time asked for, behind all that wake no later, and its present handle is at the back of the queue it entered; nothing else changes |
| KernelEffects.SmallEffects | src/scheduler/mod.rs:859-916 | in every run a change of priority gives the running task that priority, an FPU switch makes it the owner, a network timer is set to the minimum, and nothing else changes |
| KernelEffects.CheckInputOrder | src/scheduler/mod.rs:1012-1029 | in every run a look at the input readies first the woken and then the new tasks, each in order of arrival behind all ready tasks of its own priority, and empties the input |
| KernelEffects.ExitOrder | src/scheduler/mod.rs:229-236 | in every run the joiners of an exiting task enter the ready queue, or the inputs of their cores, in the order in which they joined |
| KernelEffects.ExpiryIsExact | src/scheduler/task/mod.rs:957-970 | in every run, at a timer interrupt or a poll, a sleeper of the core stays blocked if and only if it has no wake-up time or one that is not before now, and is ready otherwise |
| KernelEffects.ExpiryOrder | src/scheduler/task/mod.rs:950-977 | the tasks readied are the front of the list, and they enter the ready queue in that order, each behind all of its priority |
| Futex.ParkingLot.FutexWait | src/synch/futex.rs:43-59 | the task is queued exactly if the word has the expected value, else the answer is -EAGAIN |
| Futex.ParkingLot.FutexWaitAndSet | src/synch/futex.rs:112-128 | the same against the old value, and the new value is stored in any case |
| Futex.ParkingLot.CheckWaiter | src/synch/futex.rs:61-95 | one round of the wait loop equals the specified check; an emptied queue leaves the map |
| Futex.ParkingLot.FutexWake | src/synch/futex.rs:172-198 | the counting loop wakes the specified handles in order, with the error and saturation cases |
| Futex.ParkingLot.FutexWakeOrSet | src/synch/futex.rs:204-237 | the same, and the value is stored exactly if nobody was woken |
| FutexRuns.PopsCount | src/synch/futex.rs:184-191 | a wake of n takes min(n, waiters) handles and leaves the others |
| FutexRuns.PopsMostUrgent | src/synch/futex.rs:184-191 | every handle taken is more urgent than, or as urgent and earlier than, every handle left |
| FutexRuns.PopsInOrder | src/synch/futex.rs:184-191 | handles are taken in that same order |
| FutexRuns.RunsKeepInv | src/synch/futex.rs:43-237 | in every run that does not use up the pool no queue is empty, and a waiter is queued, once, exactly until a wake takes it |
| FutexRuns.OutcomesAreExact | src/synch/futex.rs:61-95 | in every run a parked wait returns 0 if and only if it is no longer queued, and -ETIMEDOUT if and only if it is and its wake-up time is not after now |
| FutexRuns.WaitOutcome | src/synch/futex.rs:43-95 | from the call to the return, in every run: a wait that parked returns 0 if and only if a wake in between took it, -ETIMEDOUT if and only if none did and the time it was called with has come, and otherwise sleeps on |
| FutexRuns.WakeTakes | src/synch/futex.rs:172-237 | in every run a wake returns the smaller of its count and the number of waiters, and leaves the others, or none if the count is 2^31 - 1 |
| FutexRuns.WakesAreConserved | src/synch/futex.rs:172-198 | in every run the results of all wakes add up to the waits that returned 0 plus woken waiters that have not returned, short of saturation, and to no more in any case |
| FutexRuns.NoLostWakeup | src/synch/futex.rs:43-59 | on arrival-ordered queues, after a wake of all, while the word stays v, nobody who checked for another value is parked, and whoever checks for another value gets -EAGAIN |
| FutexPool.StepSim | src/synch/futex.rs:43-237 | one operation on the real queues answers like the arrival-ordered model, creates a queue exactly when a task parks at a vacant address, and panics exactly if that finds no number left |
| FutexPool.RunsOnPool | src/scheduler/task/mod.rs:60-67 | with number 0 taken, every run on the real queues gives the same answers, and panics if and only if the numbers handed out and the queues it creates exceed 256 |
| FutexPool.FirstWaiterIsLost | src/synch/futex.rs:172-198 | from boot the wake after a wait finds the waiter if and only if number 0 was taken before |
| FutexPool.RunHasModel | src/synch/futex.rs:43-237 | every run without a panic on the real queues is a run of the arrival-ordered model, state by state |
| FutexPool.NoLostWakeupOnPool | src/synch/futex.rs:43-59 | on the real queues, after a wake of all and while the word stays v, nobody who checked for another value is in the lists |
| TaskNotify.Notify.Wait | src/executor/mod.rs:76-82 | takes the token and returns, or parks; the word is 0 or 2^32 - 1, and 0 while a task is parked |
| TaskNotify.Notify.WakeByRef | src/executor/mod.rs:90-92 | wakes the most urgent parked task, or keeps the token |
| TaskNotify.RunsRefineEvent | src/executor/mod.rs:64-93 | in every interleaving, with any operations on other futexes, the word and its queue refine a one-token event |
| TaskNotify.NotificationIsNeverLost | src/executor/mod.rs:76-92 | every notification is passed to a parked task or makes the next wait return at once |
| Semaphore.CountingSemaphore.Attempt | src/synch/semaphore.rs:77-123 | one round of acquire takes a unit whenever there is one, spinning or not; else it changes nothing while it spins, and then goes to the back of the queue |
| Semaphore.CountingSemaphore.TryAcquire | src/synch/semaphore.rs:126-135 | takes a unit exactly if one is available |
| Semaphore.CountingSemaphore.Release | src/synch/semaphore.rs:141-152 | adds a unit, takes the sleeper that came first among the most urgent out of the queue, and wakes it |
| Semaphore.NoSleeperMissesAUnit | src/synch/semaphore.rs:68-152 | in every run the count is initial + releases - acquires, no more units are handed out than exist, while tasks sleep the count is at most the number of woken tasks still to retry, and none sleeps on an available unit once they have |
| Semaphore.AttemptEffect | src/synch/semaphore.rs:77-123 | the same effect of an attempt in every run, on the totals too |
| Semaphore.NoOvertaking | src/synch/semaphore.rs:141-152 | in every run a sleeper is not woken before one that came earlier and is at least as urgent |
| RecursiveMutex.Mutex.Acquire | src/synch/recmutex.rs:28-63 | one round of acquire succeeds exactly if the mutex is free or already owned by the task, and then counts one level; else the task goes to the back of the queue and nothing else changes |
| RecursiveMutex.Mutex.Release | src/synch/recmutex.rs:65-89 | gives back one level; at the last one frees the mutex, takes the waiter that came first among the most urgent out of the queue, and wakes it |
| RecursiveMutex.MutualExclusion | src/synch/recmutex.rs:28-89 | in every run in which nobody releases what another task owns, at most one task holds the mutex, the count is its acquires minus its releases, and while tasks wait the mutex is owned or a woken task is still to retry |
| RecursiveMutex.HandOver | src/synch/recmutex.rs:28-89 | in every run a task that finds the mutex taken goes to the back of the queue, and exactly the last release takes and wakes the waiter that came first among the most urgent |
| RecursiveMutex.NoOvertaking | src/synch/recmutex.rs:65-89 | in every run a waiter is not woken before one that came earlier and is at least as urgent |
| RecursiveMutex.ReleaseKeepsHoldersIff | src/synch/recmutex.rs:65-81 | every holder keeps what it holds after a release if and only if the owner released or nobody owned the mutex |
| RecursiveMutex.ReleaseByOther | src/synch/recmutex.rs:68-81 | a release by another task frees the mutex under its holder, and the other task can take it |
| Supervisor.RestartEntry.MayRestart | src/scheduler/supervisor.rs:77-104 | over all calls so far, no interval shorter than the window that ends with this call has more than 2 * count - 1 grants; a call with fewer than count grants in the window before it is granted unless grants at time zero are carried over; without a window exactly the first count calls are granted; `Never` grants none and `Always` all |
| Supervisor.RestartRate | src/scheduler/supervisor.rs:77-104 | for non-decreasing times, any interval shorter than the window contains at most 2 * count - 1 grants, over any number of calls |
| Supervisor.RestartIsGranted | src/scheduler/supervisor.rs:83-101 | for non-decreasing times, a call with fewer than count grants in the window before it is granted if and only if it is not the case that calls at time zero used up the allowance and the first later call is within the window |
| Supervisor.RestartIsGrantedAfterZero | src/scheduler/supervisor.rs:83-101 | so with no call at time zero every such call is granted |
| Supervisor.CarriedOverFromZero | src/scheduler/supervisor.rs:93-95 | one grant at time zero makes the limiter refuse a call at time 100 with a window of 10 and no grant in it |
| Supervisor.NeverForgets | src/scheduler/supervisor.rs:87-101 | with a window of zero the count is that of all grants ever |
| Supervisor.BurstAcrossWindows | src/scheduler/supervisor.rs:87-95 | for every count above 1 and window above one tick (below the largest value) a run is granted 2 * count - 1 restarts within two ticks: the bound is reached |
| Supervisor.SlidingRateIff | src/scheduler/supervisor.rs:77-104 | the documented sliding rate holds if and only if count <= 1, window <= 1, or the window is the largest value |
| Dirents.MemDirectoryInterface.GetDents | src/fs/mem.rs:389-432 | for any names, fills the buffer with 8-aligned, in-bounds records that walk back to the next names, until the next one does not fit, moves the cursor past exactly these, returns 0 exactly at the end, fails without a change exactly if the next name does not fit, and panics exactly if a record that fits is too long for its length field |
| Dirents.MemDirectoryInterface.Lseek | src/fs/mem.rs:438-445 | accepts every absolute offset and the relative offset 0, taken as unsigned, and leaves the cursor alone otherwise |
| Dirents.WalkEncoded | src/syscalls/mod.rs:882-894 | walking encoded records by `d_reclen` decodes what a C string shows of each name, in order |
| Dirents.MemDirectoryInterface.ListWith | src/fs/mem.rs:389-432 | calls with any buffers, each page walked by `d_reclen`: the bytes read decode to exactly the names the cursor passed, none twice and none left out, and every call answers 0 exactly at the end and too small exactly if the next name does not fit |
| Dirents.ListAll | src/fs/mem.rs:389-432 | with sufficient buffers the bytes read from a directory of C strings decode to all its names, once, in key order |
| VsockCredit.RawSocket.HandlePacket | src/executor/vsock.rs:85-129 | a request to a listening socket sets the peer to its sender and nothing else ever does; the state changes exactly on that request, on the answer to a call, and on a shutdown of the peer; exactly the payloads of the peer on an open or shut-down stream are appended to the buffer and counted; only the packet that opens the stream sets the peer's buffer size, only packets of the peer move its forward count, and none touches the count of bytes sent |
| VsockCredit.RawSocket.WriteBytes | src/fd/socket/vsock.rs:359-413 | fails exactly if not connected, blocks exactly if the counters differ by the buffer size or more, and else sends at most the credit and advances the wrapping counter by what was sent |
| VsockCredit.RawSocket.PollOut | src/fd/socket/vsock.rs:69-111 | a connected stream is reported writable exactly if a write would send, one that was shut down or not yet accepted always, one still to be connected never |
| VsockCredit.RawSocket.AcceptRequest | src/fd/socket/vsock.rs:243-290 | connects exactly if a request is pending, and then returns its sender; -EAGAIN exactly while listening, a bad descriptor otherwise |
| VsockCredit.OpenedStreamHasCredit | src/fd/socket/vsock.rs:236-286 | a stream that was just accepted or connected, with any peer, has that peer's address, can send into the whole announced buffer, and adopts credit updates of that peer and of no other |
| VsockCredit.PeerIsFixed | src/executor/vsock.rs:85-129 | in every run the peer of a stream that no longer listens never changes |
| VsockCredit.BufferIsDelivered | src/executor/vsock.rs:96-109 | in every run without reads the buffer holds exactly the payloads of the peer, in order, and the forward count is their length modulo 2^32 |
| VsockCredit.WritableIff | src/fd/socket/vsock.rs:359-390 | the writer may send if and only if there is credit and no wrap lies between the two counters |
| VsockCredit.DrainedPeerUnblocks | src/fd/socket/vsock.rs:359-390 | in every run, for every buffer size, a peer with a buffer that has acknowledged everything unblocks the writer |
| VsockCredit.CreditIsNeverExceeded | src/fd/socket/vsock.rs:359-413 | for every honest peer with a buffer of at most 2^31 bytes, no run has more unacknowledged bytes than the buffer |
| VsockCredit.SafeExactlyUpToHalf | src/fd/socket/vsock.rs:359-390 | for incoming and outgoing connections alike, every run is safe if and only if the announced buffer is at most 2^31 bytes |

## Left out

- Slots and eviction on AArch64 (`ensure_slot`, `select_eviction_victim`, `slot_pool.rs`): the scheduler runs the task
  it has chosen at once; a wake deferred by an eviction is not modelled.
- The AArch64 timer interrupt clears the fired slot and leaves expiry to the idle loop. The model has the x86-64 and
  RISC-V order, expiry within the interrupt; `BlockedQueue.ExpiryRestoresTimer` covers a later expiry from any timer state.
- Register contexts, stacks, FPU state and the object maps of tasks: a task is its id, status, priority and core.
- Reference counts: a task control block is an entry of a table. That nothing refers to a dropped one is proved.
- Reuse of a task number while a retired task with that number is still to be cleaned up: a new number is assumed to be
  unused by any task, where `get_tid` looks at registered tasks only. This needs the 32-bit counter to wrap.
- `set_priority` on another task from the system call layer: only the queue operation and the current task's own priority.
- Instruction-level concurrency inside a lock. `RecursiveMutex` uses a lock that does not switch interrupts off; its
  regions are steps all the same.
- BlockedQueue.TaskTable.MarkReadyTask: does not model a task that is being evicted from its slot, whose wake the original
  defers.
- KernelSteps.StepKeepsInv: does not cover timed waits in wait queues, because the ledger does not hold there; what happens
  there is `KernelPanics.StepPanicsIff`.
- Timed semaphore waits, and the wake order of waiters that a time-out has already readied.
- The wait queues of the kernel model, the semaphore and the mutex are arrival-ordered sequences; that the bitmap-indexed
  queues behave like them, once number 0 of the pool is taken and until it is used up, is `HandleQueue`. In
  `FutexPool` only futexes take numbers during a run; those of other queues are the numbers handed out before.
- Semaphore.CountingSemaphore.Release: the count is unbounded, so overflow of `isize` is not modelled.
- RecursiveMutex.Mutex.Acquire: the count is unbounded, so overflow of `usize` is not modelled.
- Waiting loops (`acquire`, `join`, `futex_wait`) as loops: each round between two reschedules is a step of its own.
- Condition variables, event counters, the executor's task queue, the system call layer's argument checks, and the
  deadlines computed from relative time-outs.
- Vsock: `read`, which takes bytes out of the receive buffer, the packets sent in reply, and connection set-up other than its effect on credit.
- Directories: the key order of the map is taken as given, and a directory changed between two calls is not modelled.
- Drivers, network stack, memory management, file systems other than directory paging, and architecture code.
