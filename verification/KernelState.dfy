/**
 * The scheduler of all cores as a state machine. Every region that runs under a lock or with interrupts
 * off is one step. The queues are the ones specified in `PriorityLists` (ready queue, wait queues) and
 * `BlockedQueue`; a failed assertion or an `unreachable!()` of the original is the outcome `Panic`.
 */
module KernelState {
  import opened Basics
  import opened PriorityLists
  import opened BlockedQueue
  import HandleQueue
  import Timers

  /** A task handed to another core that the core has not taken over yet. */
  datatype NewTask = NewTask(id: int, prio: Priority, core: nat)

  /** `PerCoreScheduler` together with the `SchedulerInput` of its core. */
  datatype Core = Core(
    current: int,
    idle: int,
    fpuOwner: int,
    ready: seq<seq<TaskHandle>>,
    finished: seq<int>,
    blocked: seq<Sleeper>,
    timers: Timers.Slots,
    wakeups: seq<TaskHandle>,
    newTasks: seq<NewTask>)

  /**
   * `waiting` is WAITING_TASKS, `registry` is TASKS, `noTasks` is NO_TASKS, and `parked` holds the wait
   * queues of the blocking primitives that have been used, each in order of arrival. A queue that a futex
   * drops once it is empty stays as an empty one; the next queue of that address has another name.
   */
  datatype Kernel = Kernel(
    cores: seq<Core>,
    tasks: TaskMap,
    waiting: map<int, seq<TaskHandle>>,
    registry: map<int, TaskHandle>,
    noTasks: int,
    parked: map<int, seq<TaskHandle>>)

  datatype Outcome = Panic | Next(k: Kernel)

  const Boot: Kernel := Kernel([], map[], map[], map[], 0, map[])

  /** What every operation on core `c` needs to be well-defined. */
  predicate Shape(k: Kernel, c: nat) {
    c < |k.cores| && |k.cores[c].ready| == NO_PRIORITIES && k.cores[c].current in k.tasks
  }

  function SetCore(k: Kernel, c: nat, core: Core): Kernel
    requires c < |k.cores|
  {
    k.(cores := k.cores[c := core])
  }

  function CurrentStatus(k: Kernel, c: nat): Status
    requires Shape(k, c)
  {
    k.tasks[k.cores[c].current].status
  }

  function CurrentHandle(k: Kernel, c: nat): TaskHandle
    requires Shape(k, c)
  {
    HandleOf(k.cores[c].current, k.tasks[k.cores[c].current])
  }

  function QueueAt(k: Kernel, q: int): seq<TaskHandle> {
    if q in k.parked then k.parked[q] else []
  }

  // ---- Blocking and waking ----

  /** `block_current_task`: the current task must be running. */
  function BlockCurrent(k: Kernel, c: nat, wakeup: Option<Time>): Outcome
    requires Shape(k, c)
  {
    var core := k.cores[c];
    if CurrentStatus(k, c) != Running then Panic
    else
      Next(SetCore(k, c, core.(blocked := Insert(core.blocked, Sleeper(core.current, wakeup)),
                               timers := SetTimer(core.timers, wakeup)))
           .(tasks := k.tasks[core.current := k.tasks[core.current].(status := Blocked)]))
  }

  /** `blocked_tasks.custom_wakeup` and the push to the ready queue. */
  function WakeLocal(k: Kernel, c: nat, id: int): Outcome
    requires Shape(k, c)
  {
    var core := k.cores[c];
    var i := IndexOf(core.blocked, id);
    if i == |core.blocked| || !Wakeable(k.tasks, id, c) then Panic
    else
      var r := WakeOne(k.tasks, core.ready, id);
      Next(SetCore(k, c, core.(ready := r.1, blocked := RemoveAt(core.blocked, i),
                               timers := TimerAfterRemove(core.timers, core.blocked, i)))
           .(tasks := r.0))
  }

  /** `custom_wakeup` called on core `c`: wake here, or leave the handle in the other core's input. */
  function CustomWakeup(k: Kernel, c: nat, h: TaskHandle): Outcome
    requires Shape(k, c)
  {
    if h.core == c then WakeLocal(k, c, h.id)
    else if h.core >= |k.cores| then Panic
    else Next(SetCore(k, h.core, k.cores[h.core].(wakeups := k.cores[h.core].wakeups + [h])))
  }

  function WakeEach(k: Kernel, c: nat, hs: seq<TaskHandle>): Outcome
    decreases |hs|
  {
    if hs == [] then Next(k)
    else if !Shape(k, c) then Panic
    else
      var o := CustomWakeup(k, c, hs[0]);
      if o.Panic? then Panic else WakeEach(o.k, c, hs[1..])
  }

  /** Takes the first wake-up out of the input of core `c` and performs it. */
  function TakeWakeup(k: Kernel, c: nat): (o: Outcome)
    requires Shape(k, c) && k.cores[c].wakeups != []
    ensures o.Next? ==> |o.k.cores| == |k.cores| && o.k.cores[c].wakeups == k.cores[c].wakeups[1..]
  {
    var core := k.cores[c];
    WakeLocal(SetCore(k, c, core.(wakeups := core.wakeups[1..])), c, core.wakeups[0].id)
  }

  function DrainWakeups(k: Kernel, c: nat): Outcome
    requires c < |k.cores|
    decreases |k.cores[c].wakeups|
  {
    if k.cores[c].wakeups == [] then Next(k)
    else if !Shape(k, c) then Panic
    else
      var o := TakeWakeup(k, c);
      if o.Panic? then Panic else DrainWakeups(o.k, c)
  }

  function Adopt(k: Kernel, c: nat, n: NewTask): Kernel
    requires Shape(k, c)
  {
    var t := Task(Ready, n.prio, n.core);
    SetCore(k, c, k.cores[c].(ready := PushTo(k.cores[c].ready, n.prio, HandleOf(n.id, t))))
    .(tasks := k.tasks[n.id := t])
  }

  function TakeNewTask(k: Kernel, c: nat): (k': Kernel)
    requires Shape(k, c) && k.cores[c].newTasks != []
    ensures |k'.cores| == |k.cores| && k'.cores[c].newTasks == k.cores[c].newTasks[1..]
  {
    var core := k.cores[c];
    Adopt(SetCore(k, c, core.(newTasks := core.newTasks[1..])), c, core.newTasks[0])
  }

  function DrainNewTasks(k: Kernel, c: nat): Outcome
    requires c < |k.cores|
    decreases |k.cores[c].newTasks|
  {
    if k.cores[c].newTasks == [] then Next(k)
    else if !Shape(k, c) then Panic
    else DrainNewTasks(TakeNewTask(k, c), c)
  }

  /** `check_input`: first the wake-ups, then the new tasks. */
  function CheckInput(k: Kernel, c: nat): Outcome
    requires Shape(k, c)
  {
    var o := DrainWakeups(k, c);
    if o.Panic? || c >= |o.k.cores| then Panic else DrainNewTasks(o.k, c)
  }

  /** `handle_waiting_tasks` at time `now`. */
  function HandleWaiting(k: Kernel, c: nat, now: Time): Outcome
    requires Shape(k, c)
  {
    var core := k.cores[c];
    var expired := Expired(core.blocked, now);
    if !(forall s :: s in expired ==> Wakeable(k.tasks, s.task, c)) then Panic
    else
      var r := WakeAll(k.tasks, core.ready, expired);
      var rest := Remaining(core.blocked, now);
      Next(SetCore(k, c, core.(ready := r.1, blocked := rest, timers := TimerAfterExpiry(core.timers, rest)))
           .(tasks := r.0))
  }

  /** The timer interrupt: clear the slot that fired, then look for elapsed tasks. */
  function TimerInterrupt(k: Kernel, c: nat, now: Time): Outcome
    requires Shape(k, c)
  {
    var core := k.cores[c];
    if Timers.Earliest(core.timers) == U64_MAX then Panic
    else HandleWaiting(SetCore(k, c, core.(timers := Timers.ClearActive(core.timers, now))), c, now)
  }

  // ---- Creating and ending tasks ----

  /** `add_current_core`: a core starts on its idle task. */
  function AddCore(k: Kernel, id: int): Kernel {
    var c := |k.cores|;
    k.(cores := k.cores + [Core(id, id, id, EmptyLists(), [], [], Timers.NoTimers, [], [])],
       tasks := k.tasks[id := Task(Idle, 0, c)],
       waiting := k.waiting[id := []],
       registry := k.registry[id := TaskHandle(id, 0, c)])
  }

  /** `spawn` called on core `c` for core `target`. */
  function Spawn(k: Kernel, c: nat, id: int, prio: Priority, target: nat): Outcome
    requires Shape(k, c)
  {
    if target >= |k.cores| then Panic
    else
      var k1 := k.(waiting := k.waiting[id := []], registry := k.registry[id := TaskHandle(id, prio, target)],
                   noTasks := k.noTasks + 1);
      if target == c then Next(Adopt(k1, c, NewTask(id, prio, c)))
      else
        var core := k.cores[target];
        Next(SetCore(k1, target, core.(newTasks := core.newTasks + [NewTask(id, prio, target)])))
  }

  /** `exit` of the current task, up to the reschedule: its joiners are woken. */
  function Exit(k: Kernel, c: nat): Outcome
    requires Shape(k, c)
  {
    var id := k.cores[c].current;
    if CurrentStatus(k, c) == Idle then Panic
    else
      var k1 := k.(tasks := k.tasks[id := k.tasks[id].(status := Finished)], noTasks := k.noTasks - 1,
                   waiting := k.waiting - {id});
      var o := WakeEach(k1, c, if id in k.waiting then k.waiting[id] else []);
      if o.Panic? then Panic else Next(o.k.(registry := o.k.registry - {id}))
  }

  /** One round of `join`: done if `id` is gone, else wait in its queue. */
  function Join(k: Kernel, c: nat, id: int): Outcome
    requires Shape(k, c)
  {
    if id !in k.waiting then Next(k)
    else BlockCurrent(k.(waiting := k.waiting[id := k.waiting[id] + [CurrentHandle(k, c)]]), c, None)
  }

  /**
   * Wait queue `q` has no bitmap yet and the pool has none left. A queue gets its bitmap when it is first
   * used and keeps it, so `parked` has an entry for every number in use but number 0.
   */
  predicate OutOfBitmaps(k: Kernel, q: int) {
    q !in k.parked && |k.parked| + 1 >= HandleQueue.MAX_BITMAP_POOL
  }

  /** The blocking part of futex, semaphore and mutex: enter wait queue `q` and block. */
  function Park(k: Kernel, c: nat, q: int, wakeup: Option<Time>): Outcome
    requires Shape(k, c)
  {
    if OutOfBitmaps(k, q) then Panic
    else BlockCurrent(k.(parked := k.parked[q := QueueAt(k, q) + [CurrentHandle(k, c)]]), c, wakeup)
  }

  /** The waking part: take the most urgent handle of `q` and wake it. */
  function Wake(k: Kernel, c: nat, q: int): Outcome
    requires Shape(k, c)
  {
    var hs := QueueAt(k, q);
    if OutOfBitmaps(k, q) then Panic
    else if hs == [] then Next(k.(parked := k.parked[q := []]))
    else
      var i := Earliest(hs);
      CustomWakeup(k.(parked := k.parked[q := RemoveAt(hs, i)]), c, hs[i])
  }

  /** A waiter whose time is up takes the handle it made when it had priority `prio` out of `q`. */
  function Unpark(k: Kernel, c: nat, q: int, prio: Priority): Kernel
    requires Shape(k, c)
  {
    if q !in k.parked then k
    else k.(parked := k.parked[q := Without(k.parked[q], CurrentHandle(k, c).(prio := prio))])
  }

  // ---- Dispatching ----

  /** `cleanup_tasks`: drop every retired task. */
  function Reap(k: Kernel, c: nat): Kernel
    requires c < |k.cores|
  {
    var core := k.cores[c];
    SetCore(k, c, core.(finished := [])).(tasks := k.tasks - (set id | id in core.finished))
  }

  function SetStatus(tasks: TaskMap, id: int, s: Status): TaskMap
    requires id in tasks
  {
    tasks[id := tasks[id].(status := s)]
  }

  /** Makes `id` the current task; every task but the idle task runs from now on. */
  function SwitchTo(k: Kernel, c: nat, id: int): Kernel
    requires c < |k.cores| && id in k.tasks
  {
    var k1 := if k.tasks[id].status == Idle then k else k.(tasks := SetStatus(k.tasks, id, Running));
    SetCore(k1, c, k1.cores[c].(current := id))
  }

  /** Takes the next ready task, whose list is `p`, out of the queue. */
  function TakeReady(k: Kernel, c: nat, p: nat): Kernel
    requires c < |k.cores| && p < |k.cores[c].ready| && k.cores[c].ready[p] != []
  {
    SetCore(k, c, k.cores[c].(ready := PopFrom(k.cores[c].ready, p)))
  }

  /** A finished task gives up the FPU and is queued for the next clean-up. */
  function Retire(k: Kernel, c: nat): Kernel
    requires Shape(k, c)
  {
    var core := k.cores[c];
    SetCore(k, c, core.(fpuOwner := if core.fpuOwner == core.current then core.idle else core.fpuOwner,
                        finished := core.finished + [core.current]))
    .(tasks := SetStatus(k.tasks, core.current, Invalid))
  }

  /** A running task gives way only to a ready task of its own or a higher priority. */
  function Preempt(k: Kernel, c: nat): (o: Outcome)
    requires Shape(k, c)
    ensures o.Next? ==> |o.k.cores| == |k.cores|
  {
    var core := k.cores[c];
    var top := Top(core.ready);
    var prio := k.tasks[core.current].prio;
    if top.None? || top.value < prio then Next(k)
    else
      var next := core.ready[top.value][0].id;
      var k1 := TakeReady(k, c, top.value);
      var k2 := SetCore(k1, c, k1.cores[c].(ready := PushTo(k1.cores[c].ready, prio, CurrentHandle(k, c))))
                .(tasks := SetStatus(k1.tasks, core.current, Ready));
      if next in k2.tasks then Next(SwitchTo(k2, c, next)) else Panic
  }

  /** Nobody is running: take the most urgent ready task, else the idle task unless that is current. */
  function RunNext(k: Kernel, c: nat, idling: bool): (o: Outcome)
    requires c < |k.cores|
    ensures o.Next? ==> |o.k.cores| == |k.cores|
  {
    var core := k.cores[c];
    var top := Top(core.ready);
    if top.Some? then
      var next := core.ready[top.value][0].id;
      if next in k.tasks then Next(SwitchTo(TakeReady(k, c, top.value), c, next)) else Panic
    else if idling then Next(k)
    else if core.idle in k.tasks then Next(SwitchTo(k, c, core.idle)) else Panic
  }

  /** `scheduler()` without the clean-up at its start. */
  function Dispatch(k: Kernel, c: nat): (o: Outcome)
    requires Shape(k, c)
    ensures o.Next? ==> |o.k.cores| == |k.cores|
  {
    var status := CurrentStatus(k, c);
    if status == Running then Preempt(k, c)
    else RunNext(if status == Finished then Retire(k, c) else k, c, status == Idle)
  }

  function Reschedule(k: Kernel, c: nat): (o: Outcome)
    requires Shape(k, c)
    ensures o.Next? ==> |o.k.cores| == |k.cores|
  {
    var k1 := Reap(k, c);
    if Shape(k1, c) then Dispatch(k1, c) else Panic
  }

  // ---- Steps ----

  datatype Step =
    | DoAddCore(id: int)
    | DoSpawn(c: nat, id: int, prio: Priority, target: nat)
    | DoExit(c: nat)
    | DoJoin(c: nat, id: int)
    | DoPark(c: nat, q: int)
    | DoParkTimed(c: nat, q: int, wt: Time)
    | DoUnpark(c: nat, q: int, prio: Priority)
    | DoSleep(c: nat, wt: Time)
    | DoWake(c: nat, q: int)
    | DoCheckInput(c: nat)
    | DoTimerInterrupt(c: nat, now: Time)
    | DoPollTimers(c: nat, now: Time)
    | DoNetworkTimer(c: nat, wt: Time)
    | DoReschedule(c: nat)
    | DoReap(c: nat)
    | DoFpuSwitch(c: nat)
    | DoSetPriority(c: nat, prio: Priority)

  /**
   * What the environment guarantees: calls that block or end a task come from a running task, task
   * numbers are unused, a timer interrupt comes only while the timer is on, and times are below the
   * value that means "never".
   */
  predicate Enabled(k: Kernel, s: Step) {
    if s.DoAddCore? then s.id !in k.registry && s.id !in k.tasks
    else
      && Shape(k, s.c)
      && match s
         case DoSpawn(_, id, _, target) => id !in k.registry && id !in k.tasks && target < |k.cores|
         case DoExit(c) => CurrentStatus(k, c) == Running
         case DoJoin(c, _) => CurrentStatus(k, c) == Running
         case DoPark(c, _) => CurrentStatus(k, c) == Running
         case DoParkTimed(c, _, wt) => CurrentStatus(k, c) == Running && wt < U64_MAX
         case DoUnpark(c, _, _) => CurrentStatus(k, c) == Running
         case DoSleep(c, wt) => CurrentStatus(k, c) == Running && wt < U64_MAX
         case DoTimerInterrupt(c, _) => k.cores[c].timers.armed.Some?
         case DoNetworkTimer(_, wt) => wt < U64_MAX
         case DoSetPriority(c, _) => CurrentStatus(k, c) == Running
         case _ => true
  }

  function Apply(k: Kernel, s: Step): Outcome
    requires Enabled(k, s)
  {
    match s
    case DoAddCore(id) => Next(AddCore(k, id))
    case DoSpawn(c, id, prio, target) => Spawn(k, c, id, prio, target)
    case DoExit(c) => Exit(k, c)
    case DoJoin(c, id) => Join(k, c, id)
    case DoPark(c, q) => Park(k, c, q, None)
    case DoParkTimed(c, q, wt) => Park(k, c, q, Some(wt))
    case DoUnpark(c, q, prio) => Next(Unpark(k, c, q, prio))
    case DoSleep(c, wt) => BlockCurrent(k, c, Some(wt))
    case DoWake(c, q) => Wake(k, c, q)
    case DoCheckInput(c) => CheckInput(k, c)
    case DoTimerInterrupt(c, now) => TimerInterrupt(k, c, now)
    case DoPollTimers(c, now) => HandleWaiting(k, c, now)
    case DoNetworkTimer(c, wt) =>
      Next(SetCore(k, c, k.cores[c].(timers := Timers.Create(k.cores[c].timers, Timers.Network, wt))))
    case DoReschedule(c) => Reschedule(k, c)
    case DoReap(c) => Next(Reap(k, c))
    case DoFpuSwitch(c) => Next(SetCore(k, c, k.cores[c].(fpuOwner := k.cores[c].current)))
    case DoSetPriority(c, prio) =>
      Next(k.(tasks := k.tasks[k.cores[c].current := k.tasks[k.cores[c].current].(prio := prio)]))
  }

  /** A run: each state follows from the one before by an enabled step that does not panic. */
  ghost predicate Run(ks: seq<Kernel>, ss: seq<Step>) {
    && |ks| == |ss| + 1
    && ks[0] == Boot
    && forall i :: 0 <= i < |ss| ==> Follows(ks[i], ss[i], ks[i + 1])
  }

  predicate Follows(k: Kernel, s: Step, k': Kernel) {
    Enabled(k, s) && Apply(k, s) == Next(k')
  }
}
