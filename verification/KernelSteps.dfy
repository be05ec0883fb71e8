/** Every step of every core keeps the structure of the kernel, and untimed steps never panic. */
module KernelSteps {
  import opened Basics
  import opened PriorityLists
  import opened BlockedQueue
  import opened KernelState
  import opened KernelInvariant
  import opened KernelLedger
  import opened KernelRegistry
  import opened KernelTimers
  import Timers

  ghost predicate Sound(k: Kernel) {
    CoresOk(k) && TimersOk(k)
  }

  /** The invariant of all steps, timed waits included. */
  ghost predicate Base(k: Kernel) {
    Sound(k) && RegistryOk(k)
  }

  /** The invariant of runs without timed waits in wait queues. */
  ghost predicate Inv(k: Kernel) {
    Base(k) && Ledger(k, [])
  }

  lemma ShapeHolds(k: Kernel, c: nat)
    requires CoresOk(k) && c < |k.cores|
    ensures Shape(k, c)
  {
    assert CoreOk(k.tasks, k.cores[c], c);
  }

  // ---- Wake-ups ----

  lemma CustomWakeupSound(k: Kernel, c: nat, h: TaskHandle)
    requires Sound(k) && Shape(k, c) && CustomWakeup(k, c, h).Next?
    ensures Sound(CustomWakeup(k, c, h).k) && Neutral(k, CustomWakeup(k, c, h).k)
  {
    CustomWakeupNeutral(k, c, h);
    if h.core == c {
      WakeLocalKeepsCores(k, c, h.id);
      WakeKeepsTimers(k, c, h.id);
    } else {
      PushInbox(k, c, h, []);
    }
  }

  lemma {:induction false} WakeEachSound(k: Kernel, c: nat, hs: seq<TaskHandle>)
    requires Sound(k) && WakeEach(k, c, hs).Next?
    ensures Sound(WakeEach(k, c, hs).k) && Neutral(k, WakeEach(k, c, hs).k)
    decreases |hs|
  {
    if hs != [] {
      CustomWakeupSound(k, c, hs[0]);
      WakeEachSound(CustomWakeup(k, c, hs[0]).k, c, hs[1..]);
    }
  }

  lemma TakeWakeupSound(k: Kernel, c: nat)
    requires Sound(k) && Shape(k, c) && k.cores[c].wakeups != [] && TakeWakeup(k, c).Next?
    ensures Sound(TakeWakeup(k, c).k) && Neutral(k, TakeWakeup(k, c).k)
  {
    TakeWakeupNeutral(k, c);
    ShortenInbox(k, c);
    var core := k.cores[c];
    var k1 := SetCore(k, c, core.(wakeups := core.wakeups[1..]));
    OneTimerChanged(k, k1, c);
    WakeLocalKeepsCores(k1, c, core.wakeups[0].id);
    WakeKeepsTimers(k1, c, core.wakeups[0].id);
  }

  lemma {:induction false} DrainWakeupsSound(k: Kernel, c: nat)
    requires Sound(k) && c < |k.cores| && DrainWakeups(k, c).Next?
    ensures Sound(DrainWakeups(k, c).k) && Neutral(k, DrainWakeups(k, c).k)
    decreases |k.cores[c].wakeups|
  {
    if k.cores[c].wakeups != [] {
      ShapeHolds(k, c);
      TakeWakeupSound(k, c);
      DrainWakeupsSound(TakeWakeup(k, c).k, c);
    }
  }

  lemma TakeNewTaskBase(k: Kernel, c: nat)
    requires Base(k) && c < |k.cores| && k.cores[c].newTasks != []
    ensures Shape(k, c) && Base(TakeNewTask(k, c))
  {
    ShapeHolds(k, c);
    TakeNewTaskKeepsRegistry(k, c);
    var core := k.cores[c];
    var k1 := SetCore(k, c, core.(newTasks := core.newTasks[1..]));
    assert CoreOk(k.tasks, core, c);
    LocalChange(k, k1, c);
    AdoptKeepsCores(k1, c, core.newTasks[0]);
    OneTimerChanged(k, TakeNewTask(k, c), c);
  }

  /** Taking over new tasks never panics. */
  lemma {:induction false} DrainNewTasksBase(k: Kernel, c: nat)
    requires Base(k) && c < |k.cores|
    ensures DrainNewTasks(k, c).Next? && Base(DrainNewTasks(k, c).k)
    decreases |k.cores[c].newTasks|
  {
    if k.cores[c].newTasks != [] {
      TakeNewTaskBase(k, c);
      DrainNewTasksBase(TakeNewTask(k, c), c);
    }
  }

  // ---- Each step keeps the base ----

  lemma BlockBase(k: Kernel, c: nat, wakeup: Option<Time>)
    requires Base(k) && Shape(k, c) && CurrentStatus(k, c) == Running
    requires wakeup.Some? ==> wakeup.value < U64_MAX
    ensures BlockCurrent(k, c, wakeup).Next? && Base(BlockCurrent(k, c, wakeup).k)
  {
    BlockKeepsCores(k, c, wakeup);
    BlockNeutral(k, c, wakeup);
    BlockKeepsTimers(k, c, wakeup);
    RegistryFrame(k, BlockCurrent(k, c, wakeup).k);
  }

  /** Changes to the wait queues alone. */
  lemma QueuesBase(k: Kernel, k1: Kernel)
    requires Base(k) && k1.cores == k.cores && k1.tasks == k.tasks && k1.registry == k.registry
    requires k1.noTasks == k.noTasks && k1.waiting.Keys == k.waiting.Keys
    ensures Base(k1)
  {
    RegistryFrame(k, k1);
  }

  lemma JoinBase(k: Kernel, c: nat, id: int)
    requires Base(k) && Shape(k, c) && CurrentStatus(k, c) == Running
    ensures Join(k, c, id).Next? && Base(Join(k, c, id).k)
  {
    if id in k.waiting {
      var k1 := k.(waiting := k.waiting[id := k.waiting[id] + [CurrentHandle(k, c)]]);
      QueuesBase(k, k1);
      BlockBase(k1, c, None);
    }
  }

  lemma ParkBase(k: Kernel, c: nat, q: int, wakeup: Option<Time>)
    requires Base(k) && Shape(k, c) && CurrentStatus(k, c) == Running
    requires (wakeup.Some? ==> wakeup.value < U64_MAX) && !OutOfBitmaps(k, q)
    ensures Park(k, c, q, wakeup).Next? && Base(Park(k, c, q, wakeup).k)
  {
    var k1 := k.(parked := k.parked[q := QueueAt(k, q) + [CurrentHandle(k, c)]]);
    QueuesBase(k, k1);
    BlockBase(k1, c, wakeup);
  }

  lemma WakeBase(k: Kernel, c: nat, q: int)
    requires Base(k) && Shape(k, c) && Wake(k, c, q).Next?
    ensures Base(Wake(k, c, q).k)
  {
    var hs := QueueAt(k, q);
    if hs != [] {
      var i := Earliest(hs);
      var k1 := k.(parked := k.parked[q := RemoveAt(hs, i)]);
      QueuesBase(k, k1);
      CustomWakeupSound(k1, c, hs[i]);
      RegistryFrame(k1, Wake(k, c, q).k);
    } else {
      QueuesBase(k, Wake(k, c, q).k);
    }
  }

  lemma CheckInputBase(k: Kernel, c: nat)
    requires Base(k) && Shape(k, c) && CheckInput(k, c).Next?
    ensures Base(CheckInput(k, c).k)
  {
    DrainWakeupsSound(k, c);
    var k1 := DrainWakeups(k, c).k;
    RegistryFrame(k, k1);
    DrainNewTasksBase(k1, c);
  }

  lemma HandleWaitingBase(k: Kernel, c: nat, now: Time)
    requires Base(k) && Shape(k, c)
    ensures HandleWaiting(k, c, now).Next? && Base(HandleWaiting(k, c, now).k)
  {
    HandleWaitingKeepsCores(k, c, now);
    HandleWaitingNeutral(k, c, now);
    ExpiryKeepsTimers(k, c, now);
    RegistryFrame(k, HandleWaiting(k, c, now).k);
  }

  lemma TimerInterruptBase(k: Kernel, c: nat, now: Time)
    requires Base(k) && Shape(k, c) && k.cores[c].timers.armed.Some?
    ensures TimerInterrupt(k, c, now).Next? && Base(TimerInterrupt(k, c, now).k)
  {
    var core := k.cores[c];
    var k1 := SetCore(k, c, core.(timers := Timers.ClearActive(core.timers, now)));
    assert CoreOk(k.tasks, core, c);
    LocalChange(k, k1, c);
    HandleWaitingKeepsCores(k1, c, now);
    HandleWaitingNeutral(k1, c, now);
    InterruptKeepsTimers(k, c, now);
    RegistryFrame(k, k1);
    RegistryFrame(k1, TimerInterrupt(k, c, now).k);
  }

  /** Changes to one core outside its queues. */
  lemma CoreBase(k: Kernel, c: nat, core: Core)
    requires Base(k) && c < |k.cores|
    requires core.newTasks == k.cores[c].newTasks
    requires CoreOk(k.tasks, core, c) && TimerOk(core.timers, core.blocked)
    ensures Base(SetCore(k, c, core))
  {
    var k' := SetCore(k, c, core);
    LocalChange(k, k', c);
    OneTimerChanged(k, k', c);
    RegistryFrame(k, k');
  }

  lemma ReapBase(k: Kernel, c: nat)
    requires Base(k) && c < |k.cores|
    ensures Base(Reap(k, c))
  {
    ReapKeepsCores(k, c);
    ReapNeutral(k, c);
    RegistryFrame(k, Reap(k, c));
    OneTimerChanged(k, Reap(k, c), c);
  }

  /** Between the two states core `c` has only picked another task. */
  ghost predicate Quiet(k: Kernel, k': Kernel, c: nat) {
    && c < |k.cores| == |k'.cores| && k'.cores == k.cores[c := k'.cores[c]]
    && k'.cores[c].timers == k.cores[c].timers && k'.cores[c].blocked == k.cores[c].blocked
    && k'.cores[c].wakeups == k.cores[c].wakeups
    && k'.waiting == k.waiting && k'.parked == k.parked && k'.registry == k.registry && k'.noTasks == k.noTasks
  }

  lemma PreemptQuiet(k: Kernel, c: nat)
    requires Shape(k, c) && Preempt(k, c).Next?
    ensures Quiet(k, Preempt(k, c).k, c)
  {}

  lemma RunNextQuiet(k: Kernel, c: nat, idling: bool)
    requires c < |k.cores| && RunNext(k, c, idling).Next?
    ensures Quiet(k, RunNext(k, c, idling).k, c)
  {}

  lemma RescheduleQuiet(k: Kernel, c: nat)
    requires Shape(k, c) && Reschedule(k, c).Next?
    ensures Quiet(k, Reschedule(k, c).k, c)
  {
    var k1 := Reap(k, c);
    assert Quiet(k, k1, c);
    var status := CurrentStatus(k1, c);
    if status == Running {
      PreemptQuiet(k1, c);
    } else {
      var k2 := if status == Finished then Retire(k1, c) else k1;
      assert Quiet(k1, k2, c);
      RunNextQuiet(k2, c, status == Idle);
    }
  }

  lemma RescheduleBase(k: Kernel, c: nat)
    requires Base(k) && c < |k.cores|
    ensures Shape(k, c) && Reschedule(k, c).Next? && Base(Reschedule(k, c).k)
  {
    DispatchKeepsCores(k, c);
    RescheduleNeutral(k, c);
    RescheduleQuiet(k, c);
    OneTimerChanged(k, Reschedule(k, c).k, c);
    RegistryFrame(k, Reschedule(k, c).k);
  }

  lemma PriorityBase(k: Kernel, c: nat, prio: Priority)
    requires Base(k) && Shape(k, c) && CurrentStatus(k, c) == Running
    ensures Base(k.(tasks := k.tasks[k.cores[c].current := k.tasks[k.cores[c].current].(prio := prio)]))
  {
    PriorityKeepsCores(k, c, prio);
    RegistryFrame(k, k.(tasks := k.tasks[k.cores[c].current := k.tasks[k.cores[c].current].(prio := prio)]));
  }

  lemma AddCoreBase(k: Kernel, id: int)
    requires Base(k) && id !in k.registry && id !in k.tasks
    ensures Base(AddCore(k, id))
  {
    AddCoreKeepsCores(k, id);
    AddCoreKeepsRegistry(k, id);
  }

  lemma SpawnBase(k: Kernel, c: nat, id: int, prio: Priority, target: nat)
    requires Base(k) && Shape(k, c) && id !in k.registry && id !in k.tasks && target < |k.cores|
    ensures Base(Spawn(k, c, id, prio, target).k)
  {
    SpawnKeepsRegistry(k, c, id, prio, target);
    var k' := Spawn(k, c, id, prio, target).k;
    if target == c {
      var k1 := k.(waiting := k'.waiting, registry := k'.registry, noTasks := k'.noTasks);
      AdoptKeepsCores(k1, c, NewTask(id, prio, c));
    } else {
      assert CoreOk(k.tasks, k.cores[target], target);
      LocalChange(k, k', target);
    }
    OneTimerChanged(k, k', target);
  }

  /** The state in which the joiners of an exiting task are woken. */
  function Exiting(k: Kernel, id: int): Kernel
    requires id in k.tasks
  {
    k.(tasks := SetStatus(k.tasks, id, Finished), noTasks := k.noTasks - 1, waiting := k.waiting - {id})
  }

  lemma ExitingSound(k: Kernel, c: nat)
    requires Sound(k) && Shape(k, c) && CurrentStatus(k, c) == Running
    ensures Sound(Exiting(k, k.cores[c].current))
  {
    FinishKeepsCores(k, c);
    assert CoresOk(k.(tasks := SetStatus(k.tasks, k.cores[c].current, Finished)));
  }

  lemma ExitBase(k: Kernel, c: nat)
    requires Base(k) && Shape(k, c) && CurrentStatus(k, c) == Running && Exit(k, c).Next?
    ensures Base(Exit(k, c).k)
  {
    var id := k.cores[c].current;
    ExitingSound(k, c);
    var k1 := Exiting(k, id);
    var hs := if id in k.waiting then k.waiting[id] else [];
    WakeEachSound(k1, c, hs);
    ExitKeepsRegistry(k, k1, WakeEach(k1, c, hs).k, id);
  }

  /** No step ever takes the kernel out of the base: a state reached without a panic is well-formed. */
  lemma StepKeepsBase(k: Kernel, s: Step)
    requires Base(k) && Enabled(k, s) && Apply(k, s).Next?
    ensures Base(Apply(k, s).k)
  {
    match s
    case DoAddCore(id) => AddCoreBase(k, id);
    case DoSpawn(c, id, prio, target) => SpawnBase(k, c, id, prio, target);
    case DoExit(c) => ExitBase(k, c);
    case DoJoin(c, id) => JoinBase(k, c, id);
    case DoPark(c, q) => ParkBase(k, c, q, None);
    case DoParkTimed(c, q, wt) => ParkBase(k, c, q, Some(wt));
    case DoUnpark(c, q, prio) => QueuesBase(k, Unpark(k, c, q, prio));
    case DoSleep(c, wt) => BlockBase(k, c, Some(wt));
    case DoWake(c, q) => WakeBase(k, c, q);
    case DoCheckInput(c) => CheckInputBase(k, c);
    case DoTimerInterrupt(c, now) => TimerInterruptBase(k, c, now);
    case DoPollTimers(c, now) => HandleWaitingBase(k, c, now);
    case DoNetworkTimer(c, wt) => NetworkBase(k, c, wt);
    case DoReschedule(c) => RescheduleBase(k, c);
    case DoReap(c) => ReapBase(k, c);
    case DoFpuSwitch(c) => FpuBase(k, c);
    case DoSetPriority(c, prio) => PriorityBase(k, c, prio);
  }

  lemma NetworkBase(k: Kernel, c: nat, wt: Time)
    requires Base(k) && c < |k.cores| && wt < U64_MAX
    ensures Base(SetCore(k, c, k.cores[c].(timers := Timers.Create(k.cores[c].timers, Timers.Network, wt))))
  {
    var core := k.cores[c];
    assert CoreOk(k.tasks, core, c);
    NetworkTimerOk(core.timers, core.blocked, wt);
    CoreBase(k, c, core.(timers := Timers.Create(core.timers, Timers.Network, wt)));
  }

  /** The FPU is always handed to the current task. */
  lemma FpuBase(k: Kernel, c: nat)
    requires Base(k) && c < |k.cores|
    ensures Base(SetCore(k, c, k.cores[c].(fpuOwner := k.cores[c].current)))
  {
    var core := k.cores[c];
    assert CoreOk(k.tasks, core, c);
    CoreBase(k, c, core.(fpuOwner := core.current));
  }

  // ---- Steps without timed waits keep the ledger and never panic ----

  lemma JoinLedger(k: Kernel, c: nat, id: int)
    requires Inv(k) && Shape(k, c) && CurrentStatus(k, c) == Running
    ensures Join(k, c, id).Next? && Ledger(Join(k, c, id).k, [])
  {
    if id in k.waiting {
      var k1 := k.(waiting := k.waiting[id := k.waiting[id] + [CurrentHandle(k, c)]]);
      assert WithHandle(k, k1, c, JoinQueue(id));
      SleepWithHandle(k, k1, c, JoinQueue(id));
    }
  }

  lemma ParkLedger(k: Kernel, c: nat, q: int)
    requires Inv(k) && Shape(k, c) && CurrentStatus(k, c) == Running
    ensures !OutOfBitmaps(k, q) ==> Park(k, c, q, None).Next? && Ledger(Park(k, c, q, None).k, [])
  {
    var k1 := k.(parked := k.parked[q := QueueAt(k, q) + [CurrentHandle(k, c)]]);
    assert WithHandle(k, k1, c, WaitQueue(q));
    SleepWithHandle(k, k1, c, WaitQueue(q));
  }

  lemma WakeLedger(k: Kernel, c: nat, q: int)
    requires Inv(k) && Shape(k, c) && !OutOfBitmaps(k, q)
    ensures Wake(k, c, q).Next? && Ledger(Wake(k, c, q).k, [])
  {
    var hs := QueueAt(k, q);
    if hs != [] {
      var i := Earliest(hs);
      TakeOne(k, q, i);
      var k1 := k.(parked := k.parked[q := RemoveAt(hs, i)]);
      assert CoresOk(k1);
      assert [hs[i]] + [] == [hs[i]];
      Deliver(k1, c, hs[i], []);
    } else {
      SameQueuesLedger(k, Wake(k, c, q).k);
    }
  }

  /** Wait queues with the same contents. */
  lemma SameQueuesLedger(k: Kernel, k': Kernel)
    requires Ledger(k, []) && k'.cores == k.cores && k'.waiting == k.waiting
    requires forall q :: QueueAt(k', q) == QueueAt(k, q)
    ensures Ledger(k', [])
  {
    assert forall pl :: HandlesAt(k', [], pl) == HandlesAt(k, [], pl);
    LedgerFrame(k, k', []);
  }

  /** A running task has no handle in any queue. */
  lemma RunningNotQueued(k: Kernel, c: nat, q: int, h: TaskHandle)
    requires CoresOk(k) && Ledger(k, []) && Shape(k, c) && CurrentStatus(k, c) == Running && h.id == k.cores[c].current
    ensures !Queued(QueueAt(k, q), h)
  {
    var hs := QueueAt(k, q);
    if Queued(hs, h) {
      var i :| 0 <= i < |hs| && Same(hs[i], h);
      QueuedIsBlocked(k, q, i);
    }
  }

  /** So there is nothing for it to take out. */
  lemma UnparkLedger(k: Kernel, c: nat, q: int, prio: Priority)
    requires Inv(k) && Shape(k, c) && CurrentStatus(k, c) == Running
    ensures Ledger(Unpark(k, c, q, prio), [])
  {
    var h := CurrentHandle(k, c).(prio := prio);
    RunningNotQueued(k, c, q, h);
    WithoutShrinks(QueueAt(k, q), h);
    SameQueuesLedger(k, Unpark(k, c, q, prio));
  }

  lemma {:induction false} DrainWakeupsLedger(k: Kernel, c: nat)
    requires CoresOk(k) && c < |k.cores| && Ledger(k, [])
    ensures DrainWakeups(k, c).Next? && |DrainWakeups(k, c).k.cores| == |k.cores|
    ensures Ledger(DrainWakeups(k, c).k, [])
    decreases |k.cores[c].wakeups|
  {
    if k.cores[c].wakeups != [] {
      TakeWakeupOk(k, c);
      DrainWakeupsLedger(TakeWakeup(k, c).k, c);
    }
  }

  /** A step that moves no handle and leaves the blocked queues alone. */
  lemma QuietLedger(k: Kernel, k': Kernel)
    requires Ledger(k, []) && |k'.cores| == |k.cores|
    requires forall c :: 0 <= c < |k.cores| ==>
      k'.cores[c].blocked == k.cores[c].blocked && k'.cores[c].wakeups == k.cores[c].wakeups
    requires k'.waiting == k.waiting && k'.parked == k.parked
    ensures Ledger(k', [])
  {
    assert forall pl :: HandlesAt(k', [], pl) == HandlesAt(k, [], pl);
    LedgerFrame(k, k', []);
  }

  lemma {:induction false} DrainNewTasksLedger(k: Kernel, c: nat)
    requires Base(k) && c < |k.cores| && Ledger(k, []) && DrainNewTasks(k, c).Next?
    ensures Ledger(DrainNewTasks(k, c).k, [])
    decreases |k.cores[c].newTasks|
  {
    if k.cores[c].newTasks != [] {
      TakeNewTaskBase(k, c);
      var k1 := TakeNewTask(k, c);
      QuietLedger(k, k1);
      DrainNewTasksLedger(k1, c);
    }
  }

  lemma CheckInputLedger(k: Kernel, c: nat)
    requires Inv(k) && Shape(k, c)
    ensures CheckInput(k, c).Next? && Ledger(CheckInput(k, c).k, [])
  {
    DrainWakeupsLedger(k, c);
    DrainWakeupsSound(k, c);
    var k1 := DrainWakeups(k, c).k;
    RegistryFrame(k, k1);
    DrainNewTasksBase(k1, c);
    DrainNewTasksLedger(k1, c);
  }

  /** Expiry wakes timed sleepers only. */
  lemma AsleepAfterExpiry(k: Kernel, c: nat, now: Time)
    requires Shape(k, c) && HandleWaiting(k, c, now).Next?
    ensures forall x, i :: Asleep(HandleWaiting(k, c, now).k, x, i) <==> Asleep(k, x, i)
  {
    ExpiredMembers(k.cores[c].blocked, now);
  }

  lemma HandlesAfterExpiry(k: Kernel, c: nat, now: Time)
    requires Shape(k, c) && HandleWaiting(k, c, now).Next?
    ensures forall pl :: HandlesAt(HandleWaiting(k, c, now).k, [], pl) == HandlesAt(k, [], pl)
  {}

  lemma HandleWaitingLedger(k: Kernel, c: nat, now: Time)
    requires Inv(k) && Shape(k, c)
    ensures HandleWaiting(k, c, now).Next? && Ledger(HandleWaiting(k, c, now).k, [])
  {
    HandleWaitingBase(k, c, now);
    AsleepAfterExpiry(k, c, now);
    HandlesAfterExpiry(k, c, now);
    LedgerFrame(k, HandleWaiting(k, c, now).k, []);
  }

  lemma TimerInterruptLedger(k: Kernel, c: nat, now: Time)
    requires Inv(k) && Shape(k, c) && k.cores[c].timers.armed.Some?
    ensures TimerInterrupt(k, c, now).Next? && Ledger(TimerInterrupt(k, c, now).k, [])
  {
    TimerInterruptBase(k, c, now);
    var core := k.cores[c];
    var k1 := SetCore(k, c, core.(timers := Timers.ClearActive(core.timers, now)));
    QuietLedger(k, k1);
    AsleepAfterExpiry(k1, c, now);
    HandlesAfterExpiry(k1, c, now);
    LedgerFrame(k1, TimerInterrupt(k, c, now).k, []);
  }

  lemma RescheduleLedger(k: Kernel, c: nat)
    requires Inv(k) && Shape(k, c)
    ensures Reschedule(k, c).Next? && Ledger(Reschedule(k, c).k, [])
  {
    RescheduleBase(k, c);
    RescheduleQuiet(k, c);
    QuietLedger(k, Reschedule(k, c).k);
  }

  lemma AddCoreLedger(k: Kernel, id: int)
    requires Inv(k) && id !in k.registry
    ensures Ledger(AddCore(k, id), [])
  {
    var k' := AddCore(k, id);
    assert forall pl :: HandlesAt(k', [], pl) == HandlesAt(k, [], pl);
    LedgerFrame(k, k', []);
  }

  lemma SpawnLedger(k: Kernel, c: nat, id: int, prio: Priority, target: nat)
    requires Inv(k) && Shape(k, c) && id !in k.registry && target < |k.cores|
    ensures Ledger(Spawn(k, c, id, prio, target).k, [])
  {
    var k' := Spawn(k, c, id, prio, target).k;
    assert forall pl :: HandlesAt(k', [], pl) == HandlesAt(k, [], pl);
    LedgerFrame(k, k', []);
  }

  lemma ExitLedger(k: Kernel, c: nat)
    requires Inv(k) && Shape(k, c) && CurrentStatus(k, c) == Running
    ensures Exit(k, c).Next? && Ledger(Exit(k, c).k, [])
  {
    var id := k.cores[c].current;
    assert Alive(k, id);
    ExitingSound(k, c);
    var k1 := Exiting(k, id);
    TakeJoiners(k, k1, id);
    DeliverAll(k1, c, k.waiting[id]);
    var k2 := WakeEach(k1, c, k.waiting[id]).k;
    QuietLedger(k2, k2.(registry := k2.registry - {id}));
  }

  /**
   * Without timed waits in wait queues a step panics only for want of a bitmap: no wake-up reaches the
   * unreachable case, none runs on the wrong core, and the ledger stays balanced.
   */
  lemma StepKeepsInv(k: Kernel, s: Step)
    requires Inv(k) && Enabled(k, s) && !s.DoParkTimed? && !NeedsBitmap(k, s)
    ensures Apply(k, s).Next? && Inv(Apply(k, s).k)
  {
    StepKeepsLedger(k, s);
    StepKeepsBase(k, s);
  }

  /** The step is the first use of a wait queue, and there is no bitmap left for it. */
  predicate NeedsBitmap(k: Kernel, s: Step) {
    (s.DoPark? || s.DoParkTimed? || s.DoWake?) && OutOfBitmaps(k, s.q)
  }

  lemma StepKeepsLedger(k: Kernel, s: Step)
    requires Inv(k) && Enabled(k, s) && !s.DoParkTimed? && !NeedsBitmap(k, s)
    ensures Apply(k, s).Next? && Ledger(Apply(k, s).k, [])
  {
    match s
    case DoAddCore(id) => AddCoreLedger(k, id);
    case DoSpawn(c, id, prio, target) => SpawnLedger(k, c, id, prio, target);
    case DoExit(c) => ExitLedger(k, c);
    case DoJoin(c, id) => JoinLedger(k, c, id);
    case DoPark(c, q) => ParkLedger(k, c, q);
    case DoUnpark(c, q, prio) => UnparkLedger(k, c, q, prio);
    case DoSleep(c, wt) => TimedSleep(k, c, wt);
    case DoWake(c, q) => WakeLedger(k, c, q);
    case DoCheckInput(c) => CheckInputLedger(k, c);
    case DoTimerInterrupt(c, now) => TimerInterruptLedger(k, c, now);
    case DoPollTimers(c, now) => HandleWaitingLedger(k, c, now);
    case DoReschedule(c) => RescheduleLedger(k, c);
    case DoParkTimed(_, _, _) => assert false;
    case _ => QuietStepLedger(k, s);
  }

  lemma QuietStepLedger(k: Kernel, s: Step)
    requires Inv(k) && Enabled(k, s) && (s.DoReap? || s.DoNetworkTimer? || s.DoFpuSwitch? || s.DoSetPriority?)
    ensures Apply(k, s).Next? && Ledger(Apply(k, s).k, [])
  {
    QuietLedger(k, Apply(k, s).k);
  }
}
