/**
 * `PerCoreScheduler` in its own form: an object per core that owns a bitmap-indexed ready queue, a blocked
 * queue and a timer list, and shares the table of tasks with the other cores. Each method is proved
 * against the step of `KernelState` it implements. A method returns `ok` false where the original panics.
 */
module Scheduler {
  import opened Basics
  import opened PriorityLists
  import opened ReadyQueue
  import opened BlockedQueue
  import opened KernelState
  import HandleQueue
  import KernelSteps
  import Timers

  class PerCoreScheduler {
    const coreId: nat
    var current: int
    var idle: int
    var fpuOwner: int
    const ready: PriorityTaskQueue
    var finished: seq<int>
    const blocked: BlockedTaskQueue
    /** The input of the core, filled by other cores. */
    var wakeups: seq<TaskHandle>
    var newTasks: seq<NewTask>

    ghost function Repr(): set<object> {
      {this, ready, ready.queues, blocked, blocked.timers, blocked.timers.slots}
    }

    ghost predicate Valid()
      reads Repr()
    {
      ready.Valid() && blocked.timers.Valid()
    }

    ghost function View(): Core
      requires Valid()
      reads Repr()
    {
      Core(current, idle, fpuOwner, ready.queues[..], finished, blocked.list, blocked.timers.View(), wakeups, newTasks)
    }

    constructor (coreId: nat, idle: int)
      ensures Valid() && fresh(Repr()) && this.coreId == coreId
      ensures View() == Core(idle, idle, idle, EmptyLists(), [], [], Timers.NoTimers, [], [])
    {
      this.coreId := coreId;
      this.current, this.idle, this.fpuOwner := idle, idle, idle;
      ready := new PriorityTaskQueue();
      var timers := new Timers.TimerList();
      blocked := new BlockedTaskQueue(timers);
      finished, wakeups, newTasks := [], [], [];
    }

    /** The object and the table are core `coreId` of kernel `k`. */
    ghost predicate Matches(k: Kernel, table: TaskTable)
      reads Repr(), table
    {
      Valid() && coreId < |k.cores| && View() == k.cores[coreId] && table.tasks == k.tasks
    }

    method BlockCurrentTask(ghost k: Kernel, table: TaskTable, wakeup: Option<Time>) returns (ok: bool)
      requires Matches(k, table) && Shape(k, coreId)
      modifies Repr(), table
      ensures ok <==> BlockCurrent(k, coreId, wakeup).Next?
      ensures Matches(if ok then BlockCurrent(k, coreId, wakeup).k else k, table)
    {
      if table.tasks[current].status != Running { return false; }
      blocked.Add(table, current, wakeup);
      return true;
    }

    /** Wakes a task of this core by hand. */
    method WakeHere(ghost k: Kernel, table: TaskTable, id: int) returns (ok: bool)
      requires Matches(k, table) && Shape(k, coreId)
      modifies Repr(), table
      ensures ok <==> WakeLocal(k, coreId, id).Next?
      ensures Matches(if ok then WakeLocal(k, coreId, id).k else k, table)
    {
      if IndexOf(blocked.list, id) == |blocked.list| { return false; }
      if !Wakeable(table.tasks, id, coreId) { return false; }
      var handle := HandleOf(id, table.tasks[id]);
      var completed := blocked.CustomWakeup(table, id, coreId);
      if completed { ready.Push(handle); }
      return true;
    }

    /** Takes the elapsed tasks to the ready queue. */
    method HandleWaitingTasks(ghost k: Kernel, table: TaskTable, now: Time) returns (ok: bool)
      requires Matches(k, table) && Shape(k, coreId)
      modifies Repr(), table
      ensures ok <==> HandleWaiting(k, coreId, now).Next?
      ensures Matches(if ok then HandleWaiting(k, coreId, now).k else k, table)
    {
      if exists s :: s in Expired(blocked.list, now) && !Wakeable(table.tasks, s.task, coreId) { return false; }
      blocked.HandleWaitingTasks(table, ready, now, coreId);
      return true;
    }

    /** The timer interrupt. */
    method HandleTimer(ghost k: Kernel, table: TaskTable, now: Time) returns (ok: bool)
      requires Matches(k, table) && Shape(k, coreId)
      modifies Repr(), table
      ensures ok <==> TimerInterrupt(k, coreId, now).Next?
      ensures ok ==> Matches(TimerInterrupt(k, coreId, now).k, table)
    {
      var i := blocked.timers.NextTimer();
      assert blocked.timers.slots[i].wakeupTime == Timers.Earliest(blocked.timers.View());
      if blocked.timers.slots[i].wakeupTime == U64_MAX { return false; }
      blocked.timers.ClearActiveAndSetNext(now);
      ok := HandleWaitingTasks(SetCore(k, coreId, View()), table, now);
    }

    /** Drops the retired tasks one by one. */
    method CleanupTasks(ghost k: Kernel, table: TaskTable) returns (reaped: nat)
      requires Matches(k, table)
      modifies Repr(), table
      ensures Matches(Reap(k, coreId), table) && reaped == |k.cores[coreId].finished|
    {
      reaped := 0;
      ghost var gone: set<int> := {};
      while finished != []
        invariant Valid() && View() == k.cores[coreId].(finished := finished)
        invariant gone + (set id | id in finished) == set id | id in k.cores[coreId].finished
        invariant table.tasks == k.tasks - gone
        invariant reaped + |finished| == |k.cores[coreId].finished|
        decreases |finished|
      {
        var task := finished[0];
        assert finished == [task] + finished[1..];
        finished := finished[1..];
        table.tasks := table.tasks - {task};
        gone := gone + {task};
        reaped := reaped + 1;
      }
    }

    /** Tells the scheduler about the new task; the idle task keeps its status. */
    method SwitchTask(ghost k: Kernel, table: TaskTable, next: int)
      requires Matches(k, table) && next in k.tasks
      modifies this`current, table
      ensures Matches(SwitchTo(k, coreId, next), table)
    {
      if table.tasks[next].status != Idle {
        table.tasks := SetStatus(table.tasks, next, Running);
      }
      current := next;
    }

    method RetireCurrent(ghost k: Kernel, table: TaskTable)
      requires Matches(k, table) && Shape(k, coreId)
      modifies this, table
      ensures Matches(Retire(k, coreId), table)
    {
      if fpuOwner == current { fpuOwner := idle; }
      table.tasks := SetStatus(table.tasks, current, Invalid);
      finished := finished + [current];
    }

    /** The branch of `scheduler()` for a running task. */
    method PreemptCurrent(ghost k: Kernel, table: TaskTable) returns (ok: bool)
      requires Matches(k, table) && Shape(k, coreId)
      modifies Repr(), table
      ensures ok <==> Preempt(k, coreId).Next?
      ensures ok ==> Matches(Preempt(k, coreId).k, table)
    {
      var task := ready.PopWithPrio(table.tasks[current].prio);
      if task.None? { return true; }
      ghost var k1 := TakeReady(k, coreId, Top(k.cores[coreId].ready).value);
      RequeueCurrent(k1, table);
      if task.value.id !in table.tasks { return false; }
      SwitchTask(Requeued(k1, coreId), table, task.value.id);
      return true;
    }

    /** The running task is ready again and goes to the back of its list. */
    method RequeueCurrent(ghost k: Kernel, table: TaskTable)
      requires Matches(k, table) && Shape(k, coreId)
      modifies Repr(), table
      ensures Matches(Requeued(k, coreId), table)
    {
      ready.Push(HandleOf(current, table.tasks[current]));
      table.tasks := SetStatus(table.tasks, current, Ready);
    }

    /** The branch for a task that cannot go on. */
    method RunAnother(ghost k: Kernel, table: TaskTable, idling: bool) returns (ok: bool)
      requires Matches(k, table)
      modifies Repr(), table
      ensures ok <==> RunNext(k, coreId, idling).Next?
      ensures ok ==> Matches(RunNext(k, coreId, idling).k, table)
    {
      var task := ready.Pop();
      var next: int;
      if task.Some? {
        next := task.value.id;
      } else if !idling {
        next := idle;
      } else {
        return true;
      }
      if next !in table.tasks { return false; }
      SwitchTask(SetCore(k, coreId, View()), table, next);
      return true;
    }

    /** `scheduler()`: clean up, then pick the next task. */
    method Schedule(ghost k: Kernel, table: TaskTable) returns (ok: bool)
      requires Matches(k, table) && Shape(k, coreId)
      modifies Repr(), table
      ensures ok <==> Reschedule(k, coreId).Next?
      ensures ok ==> Matches(Reschedule(k, coreId).k, table)
    {
      var _ := CleanupTasks(k, table);
      ghost var k1 := Reap(k, coreId);
      if current !in table.tasks { return false; }
      var status := table.tasks[current].status;
      if status == Running {
        ok := PreemptCurrent(k1, table);
        return;
      }
      if status == Finished {
        RetireCurrent(k1, table);
        k1 := Retire(k1, coreId);
      }
      ok := RunAnother(k1, table, status == Idle);
    }

    method FpuSwitch(ghost k: Kernel, table: TaskTable)
      requires Matches(k, table)
      modifies this`fpuOwner
      ensures Matches(SetCore(k, coreId, k.cores[coreId].(fpuOwner := k.cores[coreId].current)), table)
    {
      if current != fpuOwner { fpuOwner := current; }
    }

    method SetCurrentPriority(ghost k: Kernel, table: TaskTable, prio: Priority)
      requires Matches(k, table) && Shape(k, coreId)
      modifies table
      ensures Matches(k.(tasks := k.tasks[k.cores[coreId].current := k.tasks[k.cores[coreId].current].(prio := prio)]), table)
    {
      table.tasks := table.tasks[current := table.tasks[current].(prio := prio)];
    }

    /** The network stack asks to be polled at `wt`. */
    method SetNetworkTimer(ghost k: Kernel, table: TaskTable, wt: Time)
      requires Matches(k, table)
      modifies Repr()
      ensures Matches(SetCore(k, coreId, k.cores[coreId].(timers := Timers.Create(k.cores[coreId].timers, Timers.Network, wt))), table)
    {
      blocked.timers.CreateTimerAbs(Timers.Network, wt);
    }

    /** Another core leaves a wake-up in the input. */
    method LeaveWakeup(ghost k: Kernel, table: TaskTable, h: TaskHandle)
      requires Matches(k, table)
      modifies this`wakeups
      ensures Matches(SetCore(k, coreId, k.cores[coreId].(wakeups := k.cores[coreId].wakeups + [h])), table)
    {
      wakeups := wakeups + [h];
    }

    /** Another core leaves a new task in the input. */
    method LeaveNewTask(ghost k: Kernel, table: TaskTable, n: NewTask)
      requires Matches(k, table)
      modifies this`newTasks
      ensures Matches(SetCore(k, coreId, k.cores[coreId].(newTasks := k.cores[coreId].newTasks + [n])), table)
    {
      newTasks := newTasks + [n];
    }

    /** Makes a control block for a new task and queues it. */
    method AdoptTask(ghost k: Kernel, table: TaskTable, n: NewTask)
      requires Matches(k, table) && Shape(k, coreId)
      modifies Repr(), table
      ensures Matches(Adopt(k, coreId, n), table)
    {
      var task := Task(Ready, n.prio, n.core);
      table.tasks := table.tasks[n.id := task];
      ready.Push(HandleOf(n.id, task));
    }

    /** The wake-ups other cores left in the input. */
    method TakeWakeups(ghost k: Kernel, table: TaskTable) returns (ok: bool)
      requires Matches(k, table) && Shape(k, coreId)
      modifies Repr(), table
      ensures ok <==> DrainWakeups(k, coreId).Next?
      ensures ok ==> Matches(DrainWakeups(k, coreId).k, table) && Shape(DrainWakeups(k, coreId).k, coreId)
    {
      ghost var now := k;
      while wakeups != []
        invariant Matches(now, table) && Shape(now, coreId) && |now.cores| == |k.cores|
        invariant DrainWakeups(now, coreId) == DrainWakeups(k, coreId)
        decreases |wakeups|
      {
        var h := wakeups[0];
        wakeups := wakeups[1..];
        ghost var shorter := SetCore(now, coreId, View());
        ok := WakeHere(shorter, table, h.id);
        if !ok { return false; }
        now := WakeLocal(shorter, coreId, h.id).k;
      }
      return true;
    }

    method TakeNewTasks(ghost k: Kernel, table: TaskTable)
      requires Matches(k, table) && Shape(k, coreId)
      modifies Repr(), table
      ensures DrainNewTasks(k, coreId).Next? && Matches(DrainNewTasks(k, coreId).k, table)
    {
      ghost var now := k;
      while newTasks != []
        invariant Matches(now, table) && Shape(now, coreId) && |now.cores| == |k.cores|
        invariant DrainNewTasks(now, coreId) == DrainNewTasks(k, coreId)
        decreases |newTasks|
      {
        var n := newTasks[0];
        newTasks := newTasks[1..];
        ghost var shorter := SetCore(now, coreId, View());
        AdoptTask(shorter, table, n);
        now := Adopt(shorter, coreId, n);
      }
    }

    /** `check_input`. */
    method CheckInputs(ghost k: Kernel, table: TaskTable) returns (ok: bool)
      requires Matches(k, table) && Shape(k, coreId)
      modifies Repr(), table
      ensures ok <==> CheckInput(k, coreId).Next?
      ensures ok ==> Matches(CheckInput(k, coreId).k, table)
    {
      ok := TakeWakeups(k, table);
      if !ok { return; }
      TakeNewTasks(DrainWakeups(k, coreId).k, table);
    }
  }

  /** All cores with the tables they share (TASKS, WAITING_TASKS, NO_TASKS) and the wait queues. */
  class System {
    const table: TaskTable
    var cores: seq<PerCoreScheduler>
    var waiting: map<int, seq<TaskHandle>>
    var registry: map<int, TaskHandle>
    var noTasks: int
    var parked: map<int, seq<TaskHandle>>
    var tidCounter: int

    /** The objects that belong to the cores. */
    ghost var parts: set<object>

    /** The scheduler objects are the cores `ks`, and no two of them share anything. */
    ghost predicate Views(ks: seq<Core>)
      reads this, parts
    {
      && |ks| == |cores|
      && this !in parts && table !in parts
      && (forall i :: 0 <= i < |cores| ==> cores[i].Repr() <= parts)
      && (forall i, j :: 0 <= i < j < |cores| ==> cores[i].Repr() !! cores[j].Repr())
      && forall i :: 0 <= i < |cores| ==> cores[i].coreId == i && cores[i].Valid() && cores[i].View() == ks[i]
    }

    /** The objects are the kernel state `k`. */
    ghost predicate Represents(k: Kernel)
      reads this, table, parts
    {
      && Views(k.cores) && table.tasks == k.tasks
      && waiting == k.waiting && registry == k.registry && noTasks == k.noTasks && parked == k.parked
    }

    constructor ()
      ensures Represents(Boot) && tidCounter == 0
    {
      table := new TaskTable();
      cores, waiting, registry, noTasks := [], map[], map[], 0;
      parked, tidCounter := map[], 0;
      parts := {};
    }

    method WakeOn(ghost k: Kernel, c: nat, id: int) returns (ok: bool)
      requires Represents(k) && Shape(k, c)
      modifies parts, table
      ensures ok <==> WakeLocal(k, c, id).Next?
      ensures ok ==> Represents(WakeLocal(k, c, id).k)
    {
      ok := cores[c].WakeHere(k, table, id);
      forall i | 0 <= i < |cores| && i != c ensures cores[i].Valid() && cores[i].View() == k.cores[i] {
        assert cores[i].Repr() !! cores[c].Repr();
      }
    }

    method SendWakeup(ghost k: Kernel, target: nat, h: TaskHandle)
      requires Represents(k) && target < |k.cores|
      modifies parts
      ensures Represents(SetCore(k, target, k.cores[target].(wakeups := k.cores[target].wakeups + [h])))
    {
      assert cores[target] in cores[target].Repr();
      cores[target].LeaveWakeup(k, table, h);
      forall i | 0 <= i < |cores| && i != target ensures cores[i].Valid() && cores[i].View() == k.cores[i] {
        assert cores[i].Repr() !! cores[target].Repr();
      }
    }

    /** Wakes a task of this core, or leaves the handle in the input of its own core. */
    method WakeUp(ghost k: Kernel, c: nat, h: TaskHandle) returns (ok: bool)
      requires Represents(k) && Shape(k, c)
      modifies parts, table
      ensures ok <==> CustomWakeup(k, c, h).Next?
      ensures ok ==> Represents(CustomWakeup(k, c, h).k)
    {
      if h.core == c {
        ok := WakeOn(k, c, h.id);
      } else if h.core >= |cores| {
        ok := false;
      } else {
        SendWakeup(k, h.core, h);
        ok := true;
      }
    }

    method WakeFirst(ghost k: Kernel, c: nat, queue: seq<TaskHandle>) returns (ok: bool, ghost k': Kernel)
      requires Represents(k) && Shape(k, c) && queue != []
      modifies parts, table
      ensures !ok ==> WakeEach(k, c, queue).Panic?
      ensures ok ==> Represents(k') && Shape(k', c) && WakeEach(k', c, queue[1..]) == WakeEach(k, c, queue)
    {
      WakeEachStep(k, c, queue);
      ok := WakeUp(k, c, queue[0]);
      k' := if ok then CustomWakeup(k, c, queue[0]).k else k;
    }

    /** Wakes the joiners of an exiting task, in order of arrival. */
    method WakeJoiners(ghost k: Kernel, c: nat, queue: seq<TaskHandle>) returns (ok: bool)
      requires Represents(k) && Shape(k, c)
      modifies parts, table
      ensures ok <==> WakeEach(k, c, queue).Next?
      ensures ok ==> Represents(WakeEach(k, c, queue).k)
    {
      ghost var now := k;
      var left := queue;
      while left != []
        invariant Represents(now) && Shape(now, c)
        invariant WakeEach(now, c, left) == WakeEach(k, c, queue)
        decreases |left|
      {
        ok, now := WakeFirst(now, c, left);
        if !ok { return false; }
        left := left[1..];
      }
      return true;
    }

    /** `exit` of the current task of core `c`, up to the reschedule. */
    method Exit(ghost k: Kernel, c: nat) returns (ok: bool)
      requires Represents(k) && Shape(k, c)
      modifies this`waiting, this`registry, this`noTasks, parts, table
      ensures ok <==> KernelState.Exit(k, c).Next?
      ensures ok ==> Represents(KernelState.Exit(k, c).k)
    {
      var id := cores[c].current;
      if table.tasks[id].status == Idle { return false; }
      var queue := MarkFinished(k, id);
      ok := WakeJoiners(KernelSteps.Exiting(k, id), c, queue);
      if ok { Unregister(WakeEach(KernelSteps.Exiting(k, id), c, queue).k, id); }
    }

    method MarkFinished(ghost k: Kernel, id: int) returns (queue: seq<TaskHandle>)
      requires Represents(k) && id in k.tasks
      modifies this`waiting, this`noTasks, table
      ensures Represents(KernelSteps.Exiting(k, id))
      ensures queue == if id in k.waiting then k.waiting[id] else []
    {
      table.tasks := SetStatus(table.tasks, id, Finished);
      noTasks := noTasks - 1;
      queue := if id in waiting then waiting[id] else [];
      waiting := waiting - {id};
    }

    method Unregister(ghost k: Kernel, id: int)
      requires Represents(k)
      modifies this`registry
      ensures Represents(k.(registry := k.registry - {id}))
    {
      registry := registry - {id};
    }

    method AdoptOn(ghost k: Kernel, c: nat, n: NewTask)
      requires Represents(k) && Shape(k, c)
      modifies parts, table
      ensures Represents(Adopt(k, c, n))
    {
      cores[c].AdoptTask(k, table, n);
      forall i | 0 <= i < |cores| && i != c ensures cores[i].Valid() && cores[i].View() == k.cores[i] {
        assert cores[i].Repr() !! cores[c].Repr();
      }
    }

    method SendTask(ghost k: Kernel, target: nat, n: NewTask)
      requires Represents(k) && target < |k.cores|
      modifies parts
      ensures Represents(SetCore(k, target, k.cores[target].(newTasks := k.cores[target].newTasks + [n])))
    {
      assert cores[target] in cores[target].Repr();
      cores[target].LeaveNewTask(k, table, n);
      forall i | 0 <= i < |cores| && i != target ensures cores[i].Valid() && cores[i].View() == k.cores[i] {
        assert cores[i].Repr() !! cores[target].Repr();
      }
    }

    /** `spawn` on core `c` for core `target`. */
    method Spawn(ghost k: Kernel, c: nat, id: int, prio: Priority, target: nat) returns (ok: bool)
      requires Represents(k) && Shape(k, c)
      modifies this`waiting, this`registry, this`noTasks, parts, table
      ensures ok <==> KernelState.Spawn(k, c, id, prio, target).Next?
      ensures ok ==> Represents(KernelState.Spawn(k, c, id, prio, target).k)
      ensures ok <==> target < |k.cores|
      ensures ok ==> id in registry && registry[id] == TaskHandle(id, prio, target)
      ensures ok && target == c ==> id in table.tasks && table.tasks[id] == Task(Ready, prio, c)
      ensures ok && target != c ==>
        target < |cores| && cores[target].newTasks == k.cores[target].newTasks + [NewTask(id, prio, target)]
    {
      if target >= |cores| { return false; }
      waiting := waiting[id := []];
      registry := registry[id := TaskHandle(id, prio, target)];
      noTasks := noTasks + 1;
      ghost var k1 := k.(waiting := waiting, registry := registry, noTasks := noTasks);
      assert Represents(k1);
      if target == c {
        AdoptOn(k1, c, NewTask(id, prio, c));
      } else {
        SendTask(k1, target, NewTask(id, prio, target));
      }
      return true;
    }

    /** One round of `join`. */
    method Join(ghost k: Kernel, c: nat, id: int) returns (ok: bool, done: bool)
      requires Represents(k) && Shape(k, c)
      modifies this`waiting, parts, table
      ensures ok <==> KernelState.Join(k, c, id).Next?
      ensures ok ==> Represents(KernelState.Join(k, c, id).k)
      ensures done <==> id !in k.waiting
    {
      if id !in waiting { return true, true; }
      var h := HandleOf(cores[c].current, table.tasks[cores[c].current]);
      waiting := waiting[id := waiting[id] + [h]];
      ok := Block(k.(waiting := waiting), c, None);
      done := false;
    }

    method Reschedule(ghost k: Kernel, c: nat) returns (ok: bool)
      requires Represents(k) && Shape(k, c)
      modifies parts, table
      ensures ok <==> KernelState.Reschedule(k, c).Next?
      ensures ok ==> Represents(KernelState.Reschedule(k, c).k)
    {
      ok := cores[c].Schedule(k, table);
      forall i | 0 <= i < |cores| && i != c ensures cores[i].Valid() && cores[i].View() == k.cores[i] {
        assert cores[i].Repr() !! cores[c].Repr();
      }
      if ok { KernelSteps.RescheduleQuiet(k, c); }
    }

    /** Blocks the current task of core `c`. */
    method Block(ghost k: Kernel, c: nat, wakeup: Option<Time>) returns (ok: bool)
      requires Represents(k) && Shape(k, c)
      modifies parts, table
      ensures ok <==> BlockCurrent(k, c, wakeup).Next?
      ensures ok ==> Represents(BlockCurrent(k, c, wakeup).k)
    {
      ok := cores[c].BlockCurrentTask(k, table, wakeup);
      forall i | 0 <= i < |cores| && i != c ensures cores[i].Valid() && cores[i].View() == k.cores[i] {
        assert cores[i].Repr() !! cores[c].Repr();
      }
    }

    method Attach(ghost ks: seq<Core>, core: PerCoreScheduler)
      requires Views(ks) && core.Valid() && core.coreId == |cores| && core.Repr() !! parts
      modifies this`cores, this`parts
      ensures Views(ks + [core.View()])
    {
      cores := cores + [core];
      parts := parts + core.Repr();
    }

    /**
     * The next unused task number; the counter is 32 bits wide and wraps around. The loop ends because
     * some number is unused, and it skips only numbers in use.
     */
    method GetTid(ghost free: int) returns (id: int)
      requires IsI32(tidCounter) && IsI32(free) && free !in registry
      modifies this`tidCounter
      ensures IsI32(id) && id !in registry && tidCounter == Successor(id)
      ensures forall x :: IsI32(x) && Distance(old(tidCounter), x) < Distance(old(tidCounter), id) ==> x in registry
    {
      id := tidCounter;
      tidCounter := Successor(tidCounter);
      while id in registry
        invariant IsI32(id) && tidCounter == Successor(id)
        invariant forall x :: IsI32(x) && Distance(old(tidCounter), x) < Distance(old(tidCounter), id) ==> x in registry
        decreases Distance(old(tidCounter), free) - Distance(old(tidCounter), id)
      {
        SuccessorDistance(old(tidCounter), id, free);
        id := tidCounter;
        tidCounter := Successor(tidCounter);
      }
    }

    /** Parks the current task of core `c` in wait queue `q`. */
    method Park(ghost k: Kernel, c: nat, q: int, wakeup: Option<Time>) returns (ok: bool)
      requires Represents(k) && Shape(k, c)
      modifies this`parked, parts, table
      ensures ok <==> KernelState.Park(k, c, q, wakeup).Next?
      ensures ok ==> Represents(KernelState.Park(k, c, q, wakeup).k)
    {
      if q !in parked && |parked| + 1 >= HandleQueue.MAX_BITMAP_POOL { return false; }
      var queue := if q in parked then parked[q] else [];
      var h := HandleOf(cores[c].current, table.tasks[cores[c].current]);
      parked := parked[q := queue + [h]];
      ok := Block(k.(parked := parked), c, wakeup);
    }

    /** Wakes the most urgent task of wait queue `q`. */
    method Wake(ghost k: Kernel, c: nat, q: int) returns (ok: bool)
      requires Represents(k) && Shape(k, c)
      modifies this`parked, parts, table
      ensures ok <==> KernelState.Wake(k, c, q).Next?
      ensures ok ==> Represents(KernelState.Wake(k, c, q).k)
    {
      if q !in parked && |parked| + 1 >= HandleQueue.MAX_BITMAP_POOL { return false; }
      var queue := if q in parked then parked[q] else [];
      if queue == [] {
        parked := parked[q := []];
        return true;
      }
      var i := Earliest(queue);
      parked := parked[q := RemoveAt(queue, i)];
      ok := WakeUp(k.(parked := parked), c, queue[i]);
    }

    /** The current task of core `c` takes the handle it made with priority `prio` out of `q`. */
    method Unpark(ghost k: Kernel, c: nat, q: int, prio: Priority)
      requires Represents(k) && Shape(k, c)
      modifies this`parked
      ensures Represents(KernelState.Unpark(k, c, q, prio))
    {
      if q in parked {
        var h := HandleOf(cores[c].current, table.tasks[cores[c].current]).(prio := prio);
        parked := parked[q := Without(parked[q], h)];
      }
    }

    method CheckInput(ghost k: Kernel, c: nat) returns (ok: bool)
      requires Represents(k) && Shape(k, c)
      modifies parts, table
      ensures ok <==> KernelState.CheckInput(k, c).Next?
      ensures ok ==> Represents(KernelState.CheckInput(k, c).k)
    {
      ok := cores[c].CheckInputs(k, table);
      forall i | 0 <= i < |cores| && i != c ensures cores[i].Valid() && cores[i].View() == k.cores[i] {
        assert cores[i].Repr() !! cores[c].Repr();
      }
      if ok { CheckInputLocal(k, c); }
    }

    method Tick(ghost k: Kernel, c: nat, now: Time, interrupt: bool) returns (ok: bool)
      requires Represents(k) && Shape(k, c)
      modifies parts, table
      ensures ok <==> Ticked(k, c, now, interrupt).Next?
      ensures ok ==> Represents(Ticked(k, c, now, interrupt).k)
    {
      if interrupt {
        ok := cores[c].HandleTimer(k, table, now);
      } else {
        ok := cores[c].HandleWaitingTasks(k, table, now);
      }
      forall i | 0 <= i < |cores| && i != c ensures cores[i].Valid() && cores[i].View() == k.cores[i] {
        assert cores[i].Repr() !! cores[c].Repr();
      }
      if ok { TickLocal(k, c, now, interrupt); }
    }

    method CleanUp(ghost k: Kernel, c: nat)
      requires Represents(k) && c < |k.cores|
      modifies parts, table
      ensures Represents(Reap(k, c))
    {
      var _ := cores[c].CleanupTasks(k, table);
      forall i | 0 <= i < |cores| && i != c ensures cores[i].Valid() && cores[i].View() == k.cores[i] {
        assert cores[i].Repr() !! cores[c].Repr();
      }
    }

    method SetNetworkTimer(ghost k: Kernel, c: nat, wt: Time)
      requires Represents(k) && c < |k.cores|
      modifies parts
      ensures Represents(SetCore(k, c, k.cores[c].(timers := Timers.Create(k.cores[c].timers, Timers.Network, wt))))
    {
      cores[c].SetNetworkTimer(k, table, wt);
      forall i | 0 <= i < |cores| && i != c ensures cores[i].Valid() && cores[i].View() == k.cores[i] {
        assert cores[i].Repr() !! cores[c].Repr();
      }
    }

    method FpuSwitch(ghost k: Kernel, c: nat)
      requires Represents(k) && c < |k.cores|
      modifies parts
      ensures Represents(SetCore(k, c, k.cores[c].(fpuOwner := k.cores[c].current)))
    {
      assert cores[c] in cores[c].Repr();
      cores[c].FpuSwitch(k, table);
      forall i | 0 <= i < |cores| && i != c ensures cores[i].Valid() && cores[i].View() == k.cores[i] {
        assert cores[i].Repr() !! cores[c].Repr();
      }
    }

    method SetPriority(ghost k: Kernel, c: nat, prio: Priority)
      requires Represents(k) && Shape(k, c)
      modifies table
      ensures Represents(k.(tasks := k.tasks[k.cores[c].current := k.tasks[k.cores[c].current].(prio := prio)]))
    {
      cores[c].SetCurrentPriority(k, table, prio);
    }

    /** The objects refine every step of the kernel, and fail exactly where it panics. */
    method Perform(ghost k: Kernel, s: Step) returns (ok: bool)
      requires Represents(k) && Enabled(k, s)
      modifies this, parts, table
      ensures ok <==> Apply(k, s).Next?
      ensures ok ==> Represents(Apply(k, s).k)
    {
      ok := true;
      match s {
        case DoAddCore(id) => AddCore(k, id);
        case DoSpawn(c, id, prio, target) => ok := Spawn(k, c, id, prio, target);
        case DoExit(c) => ok := Exit(k, c);
        case DoJoin(c, id) => var done; ok, done := Join(k, c, id);
        case DoPark(c, q) => ok := Park(k, c, q, None);
        case DoParkTimed(c, q, wt) => ok := Park(k, c, q, Some(wt));
        case DoUnpark(c, q, prio) => Unpark(k, c, q, prio);
        case DoSleep(c, wt) => ok := Block(k, c, Some(wt));
        case DoWake(c, q) => ok := Wake(k, c, q);
        case DoCheckInput(c) => ok := CheckInput(k, c);
        case DoTimerInterrupt(c, now) => ok := Tick(k, c, now, true);
        case DoPollTimers(c, now) => ok := Tick(k, c, now, false);
        case DoReschedule(c) => ok := Reschedule(k, c);
        case DoReap(c) => CleanUp(k, c);
        case DoNetworkTimer(c, wt) => SetNetworkTimer(k, c, wt);
        case DoFpuSwitch(c) => FpuSwitch(k, c);
        case DoSetPriority(c, prio) => SetPriority(k, c, prio);
      }
    }

    /** A core starts on its idle task. */
    method AddCore(ghost k: Kernel, id: int)
      requires Represents(k)
      modifies this, table
      ensures Represents(KernelState.AddCore(k, id))
    {
      table.tasks := table.tasks[id := Task(Idle, 0, |cores|)];
      waiting := waiting[id := []];
      registry := registry[id := TaskHandle(id, 0, |cores|)];
      var core := new PerCoreScheduler(|cores|, id);
      Attach(k.cores, core);
    }
  }

  function Ticked(k: Kernel, c: nat, now: Time, interrupt: bool): KernelState.Outcome
    requires Shape(k, c)
  {
    if interrupt then TimerInterrupt(k, c, now) else HandleWaiting(k, c, now)
  }

  /** The two states differ in core `c` and in the tasks only. */
  ghost predicate LocalTo(k: Kernel, k': Kernel, c: nat) {
    && c < |k.cores| == |k'.cores| && k'.cores == k.cores[c := k'.cores[c]]
    && k'.waiting == k.waiting && k'.registry == k.registry && k'.noTasks == k.noTasks && k'.parked == k.parked
  }

  lemma TickLocal(k: Kernel, c: nat, now: Time, interrupt: bool)
    requires Shape(k, c) && Ticked(k, c, now, interrupt).Next?
    ensures LocalTo(k, Ticked(k, c, now, interrupt).k, c)
  {}

  lemma TakeWakeupLocal(k: Kernel, c: nat)
    requires Shape(k, c) && k.cores[c].wakeups != [] && TakeWakeup(k, c).Next?
    ensures LocalTo(k, TakeWakeup(k, c).k, c)
  {}

  lemma {:induction false} DrainWakeupsLocal(k: Kernel, c: nat)
    requires c < |k.cores| && DrainWakeups(k, c).Next?
    ensures LocalTo(k, DrainWakeups(k, c).k, c)
    decreases |k.cores[c].wakeups|
  {
    if k.cores[c].wakeups != [] {
      TakeWakeupLocal(k, c);
      DrainWakeupsLocal(TakeWakeup(k, c).k, c);
    }
  }

  lemma {:induction false} DrainNewTasksLocal(k: Kernel, c: nat)
    requires c < |k.cores| && DrainNewTasks(k, c).Next?
    ensures LocalTo(k, DrainNewTasks(k, c).k, c)
    decreases |k.cores[c].newTasks|
  {
    if k.cores[c].newTasks != [] { DrainNewTasksLocal(TakeNewTask(k, c), c); }
  }

  lemma CheckInputLocal(k: Kernel, c: nat)
    requires Shape(k, c) && KernelState.CheckInput(k, c).Next?
    ensures LocalTo(k, KernelState.CheckInput(k, c).k, c)
  {
    DrainWakeupsLocal(k, c);
    DrainNewTasksLocal(DrainWakeups(k, c).k, c);
  }

  /** Kernel `k` after the running task of core `c` was queued again. */
  function Requeued(k: Kernel, c: nat): Kernel
    requires Shape(k, c)
  {
    SetCore(k, c, k.cores[c].(ready := PushTo(k.cores[c].ready, k.tasks[k.cores[c].current].prio, CurrentHandle(k, c))))
    .(tasks := SetStatus(k.tasks, k.cores[c].current, Ready))
  }

  predicate IsI32(x: int) {
    -0x8000_0000 <= x <= 0x7FFF_FFFF
  }

  function Successor(x: int): int {
    if x == 0x7FFF_FFFF then -0x8000_0000 else x + 1
  }

  /** How many steps the wrapping counter takes from `a` to `b`. */
  function Distance(a: int, b: int): int {
    if b >= a then b - a else b - a + 0x1_0000_0000
  }

  lemma SuccessorDistance(a: int, x: int, free: int)
    requires IsI32(a) && IsI32(x) && IsI32(free) && x != free && Distance(a, x) <= Distance(a, free)
    ensures Distance(a, Successor(x)) == Distance(a, x) + 1 <= Distance(a, free)
    ensures forall y :: IsI32(y) && Distance(a, y) < Distance(a, Successor(x)) ==> Distance(a, y) < Distance(a, x) || y == x
  {}

  lemma WakeEachStep(k: Kernel, c: nat, hs: seq<TaskHandle>)
    requires hs != [] && Shape(k, c)
    ensures var o := CustomWakeup(k, c, hs[0]);
      WakeEach(k, c, hs) == if o.Panic? then Panic else WakeEach(o.k, c, hs[1..])
    ensures CustomWakeup(k, c, hs[0]).Next? ==> Shape(CustomWakeup(k, c, hs[0]).k, c)
  {}
}
