/**
 * What single operations do to the queues, exactly and in order: new tasks keep the priority they were
 * spawned with, tasks enter the ready queue in the order of the queue they come from, and nobody is woken
 * before the time asked for.
 */
module KernelEffects {
  import opened Basics
  import opened PriorityLists
  import opened BlockedQueue
  import opened KernelState
  import opened KernelInvariant
  import opened KernelLedger
  import opened KernelRegistry
  import opened KernelSteps
  import opened KernelRuns
  import opened KernelDelivery
  import Timers

  // ---- Several pushes ----

  /** `after` is `before` with the tasks `hs` added, in this order, each behind all of its priority. */
  ghost predicate Pushed(before: seq<seq<TaskHandle>>, after: seq<seq<TaskHandle>>, hs: seq<TaskHandle>) {
    && |after| == |before| == NO_PRIORITIES
    && forall p :: 0 <= p < NO_PRIORITIES ==> after[p] == before[p] + OfPrio(hs, p)
  }

  lemma PushedNone(ready: seq<seq<TaskHandle>>)
    requires |ready| == NO_PRIORITIES
    ensures Pushed(ready, ready, [])
  {
    assert forall p :: 0 <= p < NO_PRIORITIES ==> ready[p] + [] == ready[p];
  }

  lemma PushedOne(ready: seq<seq<TaskHandle>>, h: TaskHandle)
    requires |ready| == NO_PRIORITIES
    ensures Pushed(ready, PushTo(ready, h.prio, h), [h])
  {
    forall p | 0 <= p < NO_PRIORITIES ensures PushTo(ready, h.prio, h)[p] == ready[p] + OfPrio([h], p) {
      assert OfPrio([h], p) == if h.prio == p then [h] else [];
      assert ready[p] + [] == ready[p];
    }
  }

  lemma PushedThen(a: seq<seq<TaskHandle>>, b: seq<seq<TaskHandle>>, c: seq<seq<TaskHandle>>,
                   hs: seq<TaskHandle>, gs: seq<TaskHandle>)
    requires Pushed(a, b, hs) && Pushed(b, c, gs)
    ensures Pushed(a, c, hs + gs)
  {
    forall p | 0 <= p < NO_PRIORITIES ensures c[p] == a[p] + OfPrio(hs + gs, p) {
      OfPrioConcat(hs, gs, p);
      assert (a[p] + OfPrio(hs, p)) + OfPrio(gs, p) == a[p] + (OfPrio(hs, p) + OfPrio(gs, p));
    }
  }

  function PresentHandle(tasks: TaskMap, id: int): seq<TaskHandle> {
    if id in tasks then [HandleOf(id, tasks[id])] else []
  }

  /** The present handles of the tasks `ids`. */
  function HandlesOf(tasks: TaskMap, ids: seq<int>): seq<TaskHandle> {
    if ids == [] then [] else PresentHandle(tasks, ids[0]) + HandlesOf(tasks, ids[1..])
  }

  /** A change of status changes no handle. */
  lemma {:induction false} SameHandles(tasks: TaskMap, id: int, s: Status, ids: seq<int>)
    requires id in tasks
    ensures HandlesOf(SetStatus(tasks, id, s), ids) == HandlesOf(tasks, ids)
  {
    if ids != [] { SameHandles(tasks, id, s, ids[1..]); }
  }

  // ---- Blocking ----

  predicate Blocks(k: Kernel, s: Step) {
    s.DoSleep? || s.DoPark? || s.DoParkTimed? || (s.DoJoin? && s.id in k.waiting)
  }

  /** The time at which the caller wants to be woken. */
  function Asked(s: Step): Option<Time> {
    if s.DoSleep? || s.DoParkTimed? then Some(s.wt) else None
  }

  /** The task blocks with exactly the time asked for, behind all that wake no later. */
  ghost predicate BlockedAt(core: Core, core': Core, wakeup: Option<Time>, p: nat) {
    && p <= |core.blocked|
    && core'.blocked == core.blocked[..p] + [Sleeper(core.current, wakeup)] + core.blocked[p..]
    && (forall i :: 0 <= i < p ==> NotAfter(core.blocked[i].wakeup, wakeup))
    && (forall i :: p <= i < |core.blocked| ==> !NotAfter(core.blocked[i].wakeup, wakeup))
    && core'.timers.network == core.timers.network
    && core'.timers.scheduler
         == if wakeup.Some? && wakeup.value < core.timers.scheduler then wakeup.value else core.timers.scheduler
  }

  /** The state in which the task has entered the queue it waits in and is about to block. */
  function Entered(k: Kernel, s: Step): Kernel
    requires Enabled(k, s) && Blocks(k, s)
  {
    var t := k.tasks[k.cores[s.c].current];
    var h := TaskHandle(k.cores[s.c].current, t.prio, t.core);
    match s
    case DoJoin(_, id) => k.(waiting := k.waiting[id := k.waiting[id] + [h]])
    case DoPark(_, q) => k.(parked := k.parked[q := QueueAt(k, q) + [h]])
    case DoParkTimed(_, q, _) => k.(parked := k.parked[q := QueueAt(k, q) + [h]])
    case _ => k
  }

  lemma BlocksAfterEntering(k: Kernel, s: Step)
    requires Enabled(k, s) && Blocks(k, s) && Apply(k, s).Next?
    ensures Shape(Entered(k, s), s.c) && Apply(k, s) == BlockCurrent(Entered(k, s), s.c, Asked(s))
  {}

  lemma BlockCurrentEffect(k: Kernel, c: nat, wakeup: Option<Time>) returns (p: nat)
    requires Shape(k, c) && Sorted(k.cores[c].blocked) && BlockCurrent(k, c, wakeup).Next?
    ensures var k' := BlockCurrent(k, c, wakeup).k;
      var id := k.cores[c].current;
      && |k'.cores| == |k.cores|
      && BlockedAt(k.cores[c], k'.cores[c], wakeup, p) && k'.cores[c].ready == k.cores[c].ready
      && k'.tasks == k.tasks[id := Task(Blocked, k.tasks[id].prio, k.tasks[id].core)]
      && k'.waiting == k.waiting && k'.parked == k.parked
  {
    var core := k.cores[c];
    p := InsertPlace(core.blocked, Sleeper(core.current, wakeup));
    SetTimerIsMinimum(core.timers, wakeup);
  }

  /**
   * Who blocks is blocked on its own core until the time it asked for and waits, with its present handle, at
   * the back of the queue it entered and in no other.
   */
  lemma BlockingEffect(ks: seq<Kernel>, ss: seq<Step>, n: nat) returns (p: nat)
    requires Run(ks, ss) && n < |ss| && Blocks(ks[n], ss[n])
    ensures Enabled(ks[n], ss[n]) && |ks[n].cores| == |ks[n + 1].cores|
    ensures var k, k', c := ks[n], ks[n + 1], ss[n].c;
      var id := k.cores[c].current;
      && BlockedAt(k.cores[c], k'.cores[c], Asked(ss[n]), p) && k'.cores[c].ready == k.cores[c].ready
      && k'.tasks == k.tasks[id := Task(Blocked, k.tasks[id].prio, k.tasks[id].core)]
      && k'.waiting == Entered(k, ss[n]).waiting && k'.parked == Entered(k, ss[n]).parked
  {
    RunsAreWellFormed(ks, ss, n);
    assert Follows(ks[n], ss[n], ks[n + 1]);
    BlocksAfterEntering(ks[n], ss[n]);
    p := BlockCurrentEffect(Entered(ks[n], ss[n]), ss[n].c, Asked(ss[n]));
  }

  /** The smaller steps change what they name and nothing else. */
  lemma SmallEffects(ks: seq<Kernel>, ss: seq<Step>, n: nat)
    requires Run(ks, ss) && n < |ss| && (ss[n].DoSetPriority? || ss[n].DoFpuSwitch? || ss[n].DoNetworkTimer?)
    ensures ss[n].c < |ks[n].cores| == |ks[n + 1].cores| && ks[n].cores[ss[n].c].current in ks[n].tasks
    ensures var k, k', c := ks[n], ks[n + 1], ss[n].c;
      var core, t := k.cores[c], k.tasks[k.cores[c].current];
      && (ss[n].DoSetPriority? ==> k' == k.(tasks := k.tasks[core.current := Task(Running, ss[n].prio, t.core)]))
      && (ss[n].DoFpuSwitch? ==> k' == k.(cores := k.cores[c := core.(fpuOwner := core.current)]))
      && (ss[n].DoNetworkTimer? ==>
            var timers := k'.cores[c].timers;
            && k' == k.(cores := k.cores[c := core.(timers := timers)])
            && timers.network == (if ss[n].wt < core.timers.network then ss[n].wt else core.timers.network)
            && timers.scheduler == core.timers.scheduler)
  {
    assert Follows(ks[n], ss[n], ks[n + 1]);
  }

  // ---- Spawning ----

  /**
   * A new task has the priority asked for and is behind all ready tasks of that priority, or is last in the
   * input of its core. TASKS knows it by the same handle.
   */
  lemma SpawnQueues(ks: seq<Kernel>, ss: seq<Step>, n: nat, c: nat, id: int, prio: Priority, target: nat)
    requires Run(ks, ss) && n < |ss| && ss[n] == DoSpawn(c, id, prio, target)
    ensures c < |ks[n].cores| == |ks[n + 1].cores| && target < |ks[n].cores|
    ensures id in ks[n + 1].registry && ks[n + 1].registry[id] == TaskHandle(id, prio, target)
    ensures target == c ==>
      && id in ks[n + 1].tasks && ks[n + 1].tasks[id] == Task(Ready, prio, c)
      && Pushed(ks[n].cores[c].ready, ks[n + 1].cores[c].ready, [TaskHandle(id, prio, c)])
    ensures target != c ==>
      && id !in ks[n + 1].tasks
      && ks[n + 1].cores[target].newTasks == ks[n].cores[target].newTasks + [NewTask(id, prio, target)]
  {
    assert Follows(ks[n], ss[n], ks[n + 1]);
    PushedOne(ks[n].cores[c].ready, TaskHandle(id, prio, c));
  }

  /** A core starts with its idle task registered at priority 0, current, and owner of the FPU. */
  lemma AddCoreStarts(ks: seq<Kernel>, ss: seq<Step>, n: nat, id: int)
    requires Run(ks, ss) && n < |ss| && ss[n] == DoAddCore(id)
    ensures var c, k' := |ks[n].cores|, ks[n + 1];
      && |k'.cores| == c + 1 && k'.cores[..c] == ks[n].cores
      && id in k'.registry && k'.registry[id] == TaskHandle(id, 0, c)
      && k'.cores[c].current == k'.cores[c].idle == k'.cores[c].fpuOwner == id
      && k'.cores[c].blocked == [] && k'.cores[c].wakeups == [] && k'.cores[c].newTasks == []
      && k'.cores[c].timers == Timers.Slots(U64_MAX, U64_MAX, None)
  {
    assert Follows(ks[n], ss[n], ks[n + 1]);
  }

  // ---- The input of a core ----

  function IdsIn(hs: seq<TaskHandle>): (r: seq<int>)
    ensures |r| == |hs| && forall i :: 0 <= i < |hs| ==> r[i] == hs[i].id
  {
    seq(|hs|, i requires 0 <= i < |hs| => hs[i].id)
  }

  function NewHandles(ns: seq<NewTask>): (r: seq<TaskHandle>)
    ensures |r| == |ns| && forall i :: 0 <= i < |ns| ==> r[i] == TaskHandle(ns[i].id, ns[i].prio, ns[i].core)
  {
    seq(|ns|, i requires 0 <= i < |ns| => TaskHandle(ns[i].id, ns[i].prio, ns[i].core))
  }

  /** A task that is woken by hand goes behind all ready tasks of its priority. */
  lemma WakeLocalPushes(k: Kernel, c: nat, id: int)
    requires CoresOk(k) && Shape(k, c) && WakeLocal(k, c, id).Next?
    ensures id in k.tasks && WakeLocal(k, c, id).k.tasks == SetStatus(k.tasks, id, Ready)
    ensures Pushed(k.cores[c].ready, WakeLocal(k, c, id).k.cores[c].ready, [HandleOf(id, k.tasks[id])])
  {
    WakeLocalKeepsCores(k, c, id);
    PushedOne(k.cores[c].ready, HandleOf(id, k.tasks[id]));
  }

  lemma TakeWakeupPushes(k: Kernel, c: nat)
    requires Sound(k) && Shape(k, c) && k.cores[c].wakeups != [] && TakeWakeup(k, c).Next?
    ensures var id := k.cores[c].wakeups[0].id;
      && id in k.tasks && TakeWakeup(k, c).k.tasks == SetStatus(k.tasks, id, Ready)
      && Pushed(k.cores[c].ready, TakeWakeup(k, c).k.cores[c].ready, [HandleOf(id, k.tasks[id])])
      && TakeWakeup(k, c).k.cores[c].newTasks == k.cores[c].newTasks
  {
    ShortenInbox(k, c);
    var core := k.cores[c];
    WakeLocalPushes(SetCore(k, c, core.(wakeups := core.wakeups[1..])), c, core.wakeups[0].id);
  }

  /** The tasks in the input are readied in the order in which they were woken. */
  lemma {:induction false} DrainWakeupsPushes(k: Kernel, c: nat)
    requires Sound(k) && c < |k.cores| && DrainWakeups(k, c).Next?
    ensures var k' := DrainWakeups(k, c).k;
      && c < |k'.cores| && k'.cores[c].wakeups == [] && k'.cores[c].newTasks == k.cores[c].newTasks
      && Pushed(k.cores[c].ready, k'.cores[c].ready, HandlesOf(k.tasks, IdsIn(k.cores[c].wakeups)))
    decreases |k.cores[c].wakeups|
  {
    ShapeHolds(k, c);
    var ws := k.cores[c].wakeups;
    if ws == [] {
      PushedNone(k.cores[c].ready);
    } else {
      var id := ws[0].id;
      TakeWakeupPushes(k, c);
      TakeWakeupSound(k, c);
      var k1 := TakeWakeup(k, c).k;
      DrainWakeupsPushes(k1, c);
      SameHandles(k.tasks, id, Ready, IdsIn(ws[1..]));
      var h, rest := HandleOf(id, k.tasks[id]), HandlesOf(k.tasks, IdsIn(ws[1..]));
      PushedThen(k.cores[c].ready, k1.cores[c].ready, DrainWakeups(k1, c).k.cores[c].ready, [h], rest);
      assert IdsIn(ws)[1..] == IdsIn(ws[1..]);
    }
  }

  lemma TakeNewTaskPushes(k: Kernel, c: nat)
    requires Base(k) && c < |k.cores| && Shape(k, c) && k.cores[c].newTasks != []
    ensures var t, k' := k.cores[c].newTasks[0], TakeNewTask(k, c);
      && c < |k'.cores| && k'.cores[c].wakeups == k.cores[c].wakeups && k'.cores[c].newTasks == k.cores[c].newTasks[1..]
      && Pushed(k.cores[c].ready, k'.cores[c].ready, NewHandles([t]))
  {
    TakeNewTaskBase(k, c);
    var t := k.cores[c].newTasks[0];
    PushedOne(k.cores[c].ready, TaskHandle(t.id, t.prio, t.core));
    assert NewHandles([t]) == [TaskHandle(t.id, t.prio, t.core)];
  }

  /** The input was emptied of new tasks, and these were readied in the order in which they came. */
  ghost predicate TookOver(core: Core, core': Core) {
    && core'.wakeups == core.wakeups && core'.newTasks == []
    && Pushed(core.ready, core'.ready, NewHandles(core.newTasks))
  }

  lemma TookOverThen(a: Core, b: Core, c: Core)
    requires a.newTasks != [] && b.wakeups == a.wakeups && b.newTasks == a.newTasks[1..] && TookOver(b, c)
    requires Pushed(a.ready, b.ready, NewHandles([a.newTasks[0]]))
    ensures TookOver(a, c)
  {
    PushedThen(a.ready, b.ready, c.ready, NewHandles([a.newTasks[0]]), NewHandles(b.newTasks));
    assert NewHandles(a.newTasks) == NewHandles([a.newTasks[0]]) + NewHandles(b.newTasks);
  }

  lemma {:induction false} DrainNewTasksPushes(k: Kernel, c: nat)
    requires Base(k) && c < |k.cores| && DrainNewTasks(k, c).Next?
    ensures c < |DrainNewTasks(k, c).k.cores| && TookOver(k.cores[c], DrainNewTasks(k, c).k.cores[c])
    decreases |k.cores[c].newTasks|
  {
    ShapeHolds(k, c);
    if k.cores[c].newTasks == [] {
      PushedNone(k.cores[c].ready);
    } else {
      TakeNewTaskBase(k, c);
      TakeNewTaskPushes(k, c);
      var k1 := TakeNewTask(k, c);
      DrainNewTasksPushes(k1, c);
      TookOverThen(k.cores[c], k1.cores[c], DrainNewTasks(k1, c).k.cores[c]);
    }
  }

  /** A task already in the table keeps its entry while new ones are taken over. */
  lemma {:induction false} DrainNewTasksKeeps(k: Kernel, c: nat, id: int)
    requires Base(k) && c < |k.cores| && DrainNewTasks(k, c).Next? && id in k.tasks
    ensures id in DrainNewTasks(k, c).k.tasks && DrainNewTasks(k, c).k.tasks[id] == k.tasks[id]
    decreases |k.cores[c].newTasks|
  {
    if k.cores[c].newTasks != [] {
      TakeNewTaskBase(k, c);
      TakeNewTaskKeepsRegistry(k, c);
      DrainNewTasksKeeps(TakeNewTask(k, c), c, id);
    }
  }

  /** A new task gets the priority it was spawned with. */
  lemma {:induction false} DrainNewTasksAdopts(k: Kernel, c: nat, t: NewTask)
    requires Base(k) && c < |k.cores| && DrainNewTasks(k, c).Next? && t in k.cores[c].newTasks
    ensures t.id in DrainNewTasks(k, c).k.tasks && DrainNewTasks(k, c).k.tasks[t.id] == Task(Ready, t.prio, c)
    decreases |k.cores[c].newTasks|
  {
    var ns := k.cores[c].newTasks;
    TakeNewTaskBase(k, c);
    TakeNewTaskKeepsRegistry(k, c);
    assert ns == [ns[0]] + ns[1..];
    if t == ns[0] {
      DrainNewTasksKeeps(TakeNewTask(k, c), c, t.id);
    } else {
      DrainNewTasksAdopts(TakeNewTask(k, c), c, t);
    }
  }

  lemma CheckInputPushes(k: Kernel, c: nat)
    requires Base(k) && Shape(k, c) && CheckInput(k, c).Next?
    ensures var core, k' := k.cores[c], CheckInput(k, c).k;
      && c < |k'.cores| && k'.cores[c].wakeups == [] && k'.cores[c].newTasks == []
      && Pushed(core.ready, k'.cores[c].ready, HandlesOf(k.tasks, IdsIn(core.wakeups)) + NewHandles(core.newTasks))
      && forall t :: t in core.newTasks ==> t.id in k'.tasks && k'.tasks[t.id] == Task(Ready, t.prio, c)
  {
    DrainWakeupsPushes(k, c);
    DrainWakeupsSound(k, c);
    var core, k1 := k.cores[c], DrainWakeups(k, c).k;
    RegistryFrame(k, k1);
    DrainNewTasksPushes(k1, c);
    PushedThen(core.ready, k1.cores[c].ready, DrainNewTasks(k1, c).k.cores[c].ready,
               HandlesOf(k.tasks, IdsIn(core.wakeups)), NewHandles(core.newTasks));
    forall t | t in core.newTasks
      ensures t.id in DrainNewTasks(k1, c).k.tasks && DrainNewTasks(k1, c).k.tasks[t.id] == Task(Ready, t.prio, c)
    {
      DrainNewTasksAdopts(k1, c, t);
    }
  }

  /**
   * A look at the input readies first the woken tasks, then the new ones, both in order of arrival and with
   * their own priorities, and empties the input.
   */
  lemma CheckInputOrder(ks: seq<Kernel>, ss: seq<Step>, n: nat, c: nat)
    requires Run(ks, ss) && n < |ss| && ss[n] == DoCheckInput(c)
    ensures c < |ks[n].cores| && c < |ks[n + 1].cores|
    ensures var core, k' := ks[n].cores[c], ks[n + 1];
      && k'.cores[c].wakeups == [] && k'.cores[c].newTasks == []
      && Pushed(core.ready, k'.cores[c].ready, HandlesOf(ks[n].tasks, IdsIn(core.wakeups)) + NewHandles(core.newTasks))
      && forall t :: t in core.newTasks ==> t.id in k'.tasks && k'.tasks[t.id] == Task(Ready, t.prio, c)
  {
    RunsAreWellFormed(ks, ss, n);
    assert Follows(ks[n], ss[n], ks[n + 1]);
    CheckInputPushes(ks[n], c);
  }

  // ---- From the spawn to the core of the task ----

  /** No core loses a new task from its input. */
  ghost predicate KeepsNew(k: Kernel, k': Kernel) {
    |k'.cores| >= |k.cores| && forall d :: 0 <= d < |k.cores| ==> k.cores[d].newTasks <= k'.cores[d].newTasks
  }

  lemma {:induction false} WakeEachKeepsNew(k: Kernel, c: nat, hs: seq<TaskHandle>)
    requires WakeEach(k, c, hs).Next?
    ensures KeepsNew(k, WakeEach(k, c, hs).k)
    decreases |hs|
  {
    if hs != [] {
      var k1 := CustomWakeup(k, c, hs[0]).k;
      assert KeepsNew(k, k1);
      WakeEachKeepsNew(k1, c, hs[1..]);
    }
  }

  lemma PreemptKeepsNew(k: Kernel, c: nat)
    requires Shape(k, c) && Preempt(k, c).Next?
    ensures KeepsNew(k, Preempt(k, c).k)
  {}

  lemma RunNextKeepsNew(k: Kernel, c: nat, idling: bool)
    requires c < |k.cores| && RunNext(k, c, idling).Next?
    ensures KeepsNew(k, RunNext(k, c, idling).k)
  {}

  lemma DispatchKeepsNew(k: Kernel, c: nat)
    requires Shape(k, c) && Dispatch(k, c).Next?
    ensures KeepsNew(k, Dispatch(k, c).k)
  {
    var status := CurrentStatus(k, c);
    if status == Running {
      PreemptKeepsNew(k, c);
    } else {
      var k1 := if status == Finished then Retire(k, c) else k;
      assert KeepsNew(k, k1);
      RunNextKeepsNew(k1, c, status == Idle);
    }
  }

  lemma ExitKeepsNew(k: Kernel, c: nat)
    requires Shape(k, c) && Exit(k, c).Next?
    ensures KeepsNew(k, Exit(k, c).k)
  {
    var id := k.cores[c].current;
    WakeEachKeepsNew(Exiting(k, id), c, if id in k.waiting then k.waiting[id] else []);
  }

  lemma TickKeepsNew(k: Kernel, c: nat, now: Time)
    requires Shape(k, c)
    ensures HandleWaiting(k, c, now).Next? ==> KeepsNew(k, HandleWaiting(k, c, now).k)
    ensures TimerInterrupt(k, c, now).Next? ==> KeepsNew(k, TimerInterrupt(k, c, now).k)
  {}

  lemma BlockingKeepsNew(k: Kernel, s: Step)
    requires Enabled(k, s) && (s.DoSleep? || s.DoPark? || s.DoParkTimed? || s.DoJoin?) && Apply(k, s).Next?
    ensures KeepsNew(k, Apply(k, s).k)
  {}

  lemma WakeKeepsNew(k: Kernel, c: nat, q: int)
    requires Shape(k, c) && Wake(k, c, q).Next?
    ensures KeepsNew(k, Wake(k, c, q).k)
  {}

  lemma StepKeepsNew(k: Kernel, s: Step, k': Kernel)
    requires Follows(k, s, k') && !s.DoCheckInput?
    ensures KeepsNew(k, k')
  {
    match s
    case DoExit(c) => ExitKeepsNew(k, c);
    case DoReschedule(c) => DispatchKeepsNew(Reap(k, c), c);
    case DoTimerInterrupt(c, now) => TickKeepsNew(k, c, now);
    case DoPollTimers(c, now) => TickKeepsNew(k, c, now);
    case DoSleep(_, _) => BlockingKeepsNew(k, s);
    case DoPark(_, _) => BlockingKeepsNew(k, s);
    case DoParkTimed(_, _, _) => BlockingKeepsNew(k, s);
    case DoJoin(_, _) => BlockingKeepsNew(k, s);
    case DoWake(c, q) => WakeKeepsNew(k, c, q);
    case _ =>
  }

  lemma {:induction false} DrainWakeupsKeepsNew(k: Kernel, c: nat)
    requires c < |k.cores| && DrainWakeups(k, c).Next?
    ensures KeepsNew(k, DrainWakeups(k, c).k)
    decreases |k.cores[c].wakeups|
  {
    if k.cores[c].wakeups != [] {
      assert KeepsNew(k, TakeWakeup(k, c).k);
      DrainWakeupsKeepsNew(TakeWakeup(k, c).k, c);
    }
  }

  lemma {:induction false} DrainNewTasksKeepsNew(k: Kernel, c: nat, d: nat)
    requires c < |k.cores| && DrainNewTasks(k, c).Next? && d < |k.cores| && d != c
    ensures d < |DrainNewTasks(k, c).k.cores| && DrainNewTasks(k, c).k.cores[d].newTasks == k.cores[d].newTasks
    decreases |k.cores[c].newTasks|
  {
    if k.cores[c].newTasks != [] { DrainNewTasksKeepsNew(TakeNewTask(k, c), c, d); }
  }

  /** A look at the input of another core takes nothing from this one. */
  lemma CheckInputKeepsNew(k: Kernel, c: nat, d: nat)
    requires Shape(k, c) && CheckInput(k, c).Next? && d < |k.cores| && d != c
    ensures d < |CheckInput(k, c).k.cores| && k.cores[d].newTasks <= CheckInput(k, c).k.cores[d].newTasks
  {
    DrainWakeupsKeepsNew(k, c);
    DrainNewTasksKeepsNew(DrainWakeups(k, c).k, c, d);
  }

  ghost predicate InInput(k: Kernel, d: nat, t: NewTask) {
    d < |k.cores| && t in k.cores[d].newTasks
  }

  lemma NewTaskStep(ks: seq<Kernel>, ss: seq<Step>, n: nat, d: nat, t: NewTask)
    requires Run(ks, ss) && n < |ss| && ss[n] != DoCheckInput(d) && InInput(ks[n], d, t)
    ensures InInput(ks[n + 1], d, t)
  {
    assert Follows(ks[n], ss[n], ks[n + 1]);
    if ss[n].DoCheckInput? { CheckInputKeepsNew(ks[n], ss[n].c, d); } else { StepKeepsNew(ks[n], ss[n], ks[n + 1]); }
  }

  lemma {:induction false} NewTaskStays(ks: seq<Kernel>, ss: seq<Step>, m: nat, n: nat, d: nat, t: NewTask)
    requires Run(ks, ss) && m <= n < |ks| && InInput(ks[m], d, t)
    requires forall i :: m <= i < n ==> ss[i] != DoCheckInput(d)
    ensures InInput(ks[n], d, t)
    decreases n
  {
    if n > m {
      NewTaskStays(ks, ss, m, n - 1, d, t);
      NewTaskStep(ks, ss, n - 1, d, t);
    }
  }

  /**
   * A task spawned for another core has, after the next look of that core at its input, the priority it was
   * spawned with, whatever happens in between.
   */
  lemma SpawnedTaskArrives(ks: seq<Kernel>, ss: seq<Step>, m: nat, n: nat, c: nat, id: int, prio: Priority, target: nat)
    requires Run(ks, ss) && m < n < |ss| && ss[m] == DoSpawn(c, id, prio, target) && target != c
    requires ss[n] == DoCheckInput(target) && forall i :: m < i < n ==> ss[i] != DoCheckInput(target)
    ensures id in ks[n + 1].tasks && ks[n + 1].tasks[id] == Task(Ready, prio, target)
  {
    SpawnQueues(ks, ss, m, c, id, prio, target);
    NewTaskStays(ks, ss, m + 1, n, target, NewTask(id, prio, target));
    CheckInputOrder(ks, ss, n, target);
  }

  // ---- Exit ----

  /** The handles of `hs` for core `d`, in order. */
  function ForCore(hs: seq<TaskHandle>, d: nat): seq<TaskHandle> {
    if hs == [] then [] else (if hs[0].core == d then [hs[0]] else []) + ForCore(hs[1..], d)
  }

  lemma ForCoreOne(h: TaskHandle, d: nat)
    ensures ForCore([h], d) == if h.core == d then [h] else []
  {
    assert [h][1..] == [];
  }

  lemma ForCoreCons(hs: seq<TaskHandle>, d: nat)
    requires hs != []
    ensures ForCore(hs, d) == ForCore([hs[0]], d) + ForCore(hs[1..], d)
  {
    ForCoreOne(hs[0], d);
  }

  lemma HandlesOfCons(tasks: TaskMap, id: int, ids: seq<int>)
    ensures HandlesOf(tasks, [id] + ids) == PresentHandle(tasks, id) + HandlesOf(tasks, ids)
  {
    assert ([id] + ids)[1..] == ids;
  }

  lemma {:induction false} HandlesOfConcat(tasks: TaskMap, a: seq<int>, b: seq<int>)
    ensures HandlesOf(tasks, a + b) == HandlesOf(tasks, a) + HandlesOf(tasks, b)
    decreases |a|
  {
    if a == [] {
      assert a + b == b;
    } else {
      var id, rest := a[0], a[1..];
      HandlesOfConcat(tasks, rest, b);
      HandlesOfCons(tasks, id, rest + b);
      assert a + b == [id] + (rest + b);
      Associative(PresentHandle(tasks, id), HandlesOf(tasks, rest), HandlesOf(tasks, b));
    }
  }

  lemma Associative<T>(a: seq<T>, b: seq<T>, c: seq<T>)
    ensures (a + b) + c == a + (b + c)
  {}

  /** The handles under which the tasks of `hs` on core `c` are readied. */
  function Readied(tasks: TaskMap, hs: seq<TaskHandle>, c: nat): seq<TaskHandle> {
    HandlesOf(tasks, IdsIn(ForCore(hs, c)))
  }

  lemma ReadiedCons(tasks: TaskMap, hs: seq<TaskHandle>, c: nat)
    requires hs != []
    ensures Readied(tasks, hs, c) == Readied(tasks, [hs[0]], c) + Readied(tasks, hs[1..], c)
  {
    var a, b := IdsIn(ForCore([hs[0]], c)), IdsIn(ForCore(hs[1..], c));
    ForCoreCons(hs, c);
    assert IdsIn(ForCore(hs, c)) == a + b;
    HandlesOfConcat(tasks, a, b);
  }

  /** Every core other than `c` is sent its handles of `hs`, in order. */
  ghost predicate SentOn(k: Kernel, k': Kernel, c: nat, hs: seq<TaskHandle>) {
    && |k'.cores| == |k.cores|
    && forall d :: 0 <= d < |k.cores| && d != c ==> k'.cores[d].wakeups == k.cores[d].wakeups + ForCore(hs, d)
  }

  lemma SentOnThen(k: Kernel, k1: Kernel, k': Kernel, c: nat, hs: seq<TaskHandle>)
    requires hs != [] && SentOn(k, k1, c, [hs[0]]) && SentOn(k1, k', c, hs[1..])
    ensures SentOn(k, k', c, hs)
  {
    forall d | 0 <= d < |k.cores| && d != c ensures k'.cores[d].wakeups == k.cores[d].wakeups + ForCore(hs, d) {
      var a, b := ForCore([hs[0]], d), ForCore(hs[1..], d);
      ForCoreCons(hs, d);
      assert (k.cores[d].wakeups + a) + b == k.cores[d].wakeups + (a + b);
    }
  }

  lemma CustomWakeupSends(k: Kernel, c: nat, h: TaskHandle)
    requires Sound(k) && Shape(k, c) && CustomWakeup(k, c, h).Next?
    ensures SentOn(k, CustomWakeup(k, c, h).k, c, [h])
  {
    var k' := CustomWakeup(k, c, h).k;
    if h.core == c { WakeLocalKeepsCores(k, c, h.id); }
    forall d | 0 <= d < |k.cores| && d != c ensures k'.cores[d].wakeups == k.cores[d].wakeups + ForCore([h], d) {
      ForCoreOne(h, d);
    }
  }

  lemma ReadiedOne(tasks: TaskMap, h: TaskHandle, c: nat)
    ensures Readied(tasks, [h], c) == if h.core == c && h.id in tasks then [HandleOf(h.id, tasks[h.id])] else []
  {
    ForCoreOne(h, c);
    if h.core == c {
      assert IdsIn([h]) == [h.id];
      assert HandlesOf(tasks, [h.id]) == if h.id in tasks then [HandleOf(h.id, tasks[h.id])] else [] by {
        assert [h.id][1..] == [];
      }
    }
  }

  lemma CustomWakeupPushes(k: Kernel, c: nat, h: TaskHandle, ids: seq<int>)
    requires Sound(k) && Shape(k, c) && CustomWakeup(k, c, h).Next?
    ensures var k' := CustomWakeup(k, c, h).k;
      && c < |k'.cores|
      && Pushed(k.cores[c].ready, k'.cores[c].ready, Readied(k.tasks, [h], c))
      && HandlesOf(k'.tasks, ids) == HandlesOf(k.tasks, ids)
  {
    ReadiedOne(k.tasks, h, c);
    if h.core == c {
      WakeLocalPushes(k, c, h.id);
      SameHandles(k.tasks, h.id, Ready, ids);
    } else {
      PushedNone(k.cores[c].ready);
    }
  }

  /** Handles woken one after the other: those of this core are readied in order, the others sent on in order. */
  lemma {:induction false} WakeEachPushes(k: Kernel, c: nat, hs: seq<TaskHandle>)
    requires Sound(k) && c < |k.cores| && WakeEach(k, c, hs).Next?
    ensures SentOn(k, WakeEach(k, c, hs).k, c, hs)
    ensures Pushed(k.cores[c].ready, WakeEach(k, c, hs).k.cores[c].ready, Readied(k.tasks, hs, c))
    decreases |hs|
  {
    ShapeHolds(k, c);
    if hs == [] {
      PushedNone(k.cores[c].ready);
    } else {
      CustomWakeupSound(k, c, hs[0]);
      CustomWakeupPushes(k, c, hs[0], IdsIn(ForCore(hs[1..], c)));
      CustomWakeupSends(k, c, hs[0]);
      var k1 := CustomWakeup(k, c, hs[0]).k;
      WakeEachPushes(k1, c, hs[1..]);
      var k' := WakeEach(k1, c, hs[1..]).k;
      SentOnThen(k, k1, k', c, hs);
      ReadiedCons(k.tasks, hs, c);
      PushedThen(k.cores[c].ready, k1.cores[c].ready, k'.cores[c].ready,
                 Readied(k.tasks, [hs[0]], c), Readied(k.tasks, hs[1..], c));
    }
  }

  /** The joiners of an exiting task are woken in the order in which they joined. */
  lemma ExitOrder(ks: seq<Kernel>, ss: seq<Step>, n: nat, c: nat)
    requires Run(ks, ss) && n < |ss| && ss[n] == DoExit(c)
    ensures c < |ks[n].cores| == |ks[n + 1].cores| && ks[n].cores[c].current in ks[n].waiting
    ensures var k, k', hs := ks[n], ks[n + 1], ks[n].waiting[ks[n].cores[c].current];
      SentOn(k, k', c, hs) && Pushed(k.cores[c].ready, k'.cores[c].ready, Readied(k.tasks, hs, c))
  {
    RunsAreWellFormed(ks, ss, n);
    assert Follows(ks[n], ss[n], ks[n + 1]);
    var k := ks[n];
    var id := k.cores[c].current;
    assert Alive(k, id);
    ExitingSound(k, c);
    WakeEachPushes(Exiting(k, id), c, k.waiting[id]);
    SameHandles(k.tasks, id, Finished, IdsIn(ForCore(k.waiting[id], c)));
  }

  // ---- Expiry ----

  lemma {:induction false} WakeAllPushes(tasks: TaskMap, ready: seq<seq<TaskHandle>>, c: nat, e: seq<Sleeper>)
    requires |ready| == NO_PRIORITIES && NoDup(Ids(e))
    requires forall i :: 0 <= i < |e| ==> Here(tasks, e[i].task, c, Blocked)
    ensures Pushed(ready, WakeAll(tasks, ready, e).1, HandlesOf(tasks, Ids(e)))
    decreases |e|
  {
    if e == [] {
      PushedNone(ready);
      assert Ids(e) == [];
    } else {
      var id := e[0].task;
      var w, h := WakeOne(tasks, ready, id), HandleOf(id, tasks[id]);
      PushedOne(ready, h);
      assert w.0 == SetStatus(tasks, id, Ready) && Ids(e)[1..] == Ids(e[1..]) && Ids(e)[0] == id;
      forall i | 0 <= i < |e[1..]| ensures Here(w.0, e[1..][i].task, c, Blocked) {
        assert Ids(e)[i + 1] == e[1..][i].task && Here(tasks, e[i + 1].task, c, Blocked);
      }
      WakeAllPushes(w.0, w.1, c, e[1..]);
      SameHandles(tasks, id, Ready, Ids(e[1..]));
      PushedThen(ready, w.1, WakeAll(tasks, ready, e).1, [h], HandlesOf(tasks, Ids(e[1..])));
    }
  }

  lemma HandleWaitingPushes(k: Kernel, c: nat, now: Time)
    requires CoresOk(k) && Shape(k, c) && Sorted(k.cores[c].blocked) && HandleWaiting(k, c, now).Next?
    ensures Pushed(k.cores[c].ready, HandleWaiting(k, c, now).k.cores[c].ready,
                   HandlesOf(k.tasks, Ids(Expired(k.cores[c].blocked, now))))
  {
    var l := k.cores[c].blocked;
    var e, r := Expired(l, now), Remaining(l, now);
    assert CoreOk(k.tasks, k.cores[c], c);
    ElapsedIsPrefix(l, now);
    PrefixIsBlocked(k.tasks, l, c, e, r);
    assert forall i :: 0 <= i < |e| ==> Ids(e)[i] == Ids(l)[i] && e[i] in e;
    WakeAllPushes(k.tasks, k.cores[c].ready, c, e);
  }

  predicate IsTick(s: Step, c: nat, now: Time) {
    s == DoTimerInterrupt(c, now) || s == DoPollTimers(c, now)
  }

  /** The state in which a tick looks for elapsed tasks. */
  function BeforeExpiry(k: Kernel, s: Step): Kernel
    requires Enabled(k, s) && (s.DoTimerInterrupt? || s.DoPollTimers?)
  {
    var core := k.cores[s.c];
    if s.DoPollTimers? || Timers.Earliest(core.timers) == U64_MAX then k
    else SetCore(k, s.c, core.(timers := Timers.ClearActive(core.timers, s.now)))
  }

  lemma TickIsExpiry(k: Kernel, s: Step, c: nat, now: Time)
    requires Base(k) && Enabled(k, s) && IsTick(s, c, now) && Apply(k, s).Next?
    ensures var k1 := BeforeExpiry(k, s);
      && CoresOk(k1) && Shape(k1, c) && k1.tasks == k.tasks
      && k1.cores[c].blocked == k.cores[c].blocked && k1.cores[c].ready == k.cores[c].ready
      && Apply(k, s) == HandleWaiting(k1, c, now)
  {
    assert CoreOk(k.tasks, k.cores[c], c);
    LocalChange(k, BeforeExpiry(k, s), c);
  }

  /**
   * At a tick a sleeper of the core stays blocked if and only if it has no time limit or its time is not yet
   * past; everyone else is ready, in the order of their times.
   */
  lemma ExpiryIsExact(ks: seq<Kernel>, ss: seq<Step>, n: nat, c: nat, now: Time, s: Sleeper)
    requires Run(ks, ss) && n < |ss| && IsTick(ss[n], c, now)
    requires c < |ks[n].cores| && s in ks[n].cores[c].blocked
    ensures c < |ks[n + 1].cores|
    ensures s in ks[n + 1].cores[c].blocked <==> s.wakeup.None? || s.wakeup.value >= now
    ensures s !in ks[n + 1].cores[c].blocked ==> Here(ks[n + 1].tasks, s.task, c, Ready)
  {
    RunsAreWellFormed(ks, ss, n);
    assert Follows(ks[n], ss[n], ks[n + 1]);
    TickIsExpiry(ks[n], ss[n], c, now);
    var k1 := BeforeExpiry(ks[n], ss[n]);
    ExpiredMembers(k1.cores[c].blocked, now);
    if s.wakeup.Some? && s.wakeup.value < now { ExpiryReadies(k1, c, now, s); }
  }

  /** The tasks a tick readies enter the ready queue in the order of their wake-up times. */
  lemma ExpiryOrder(ks: seq<Kernel>, ss: seq<Step>, n: nat, c: nat, now: Time) returns (m: nat)
    requires Run(ks, ss) && n < |ss| && IsTick(ss[n], c, now) && c < |ks[n].cores|
    ensures m <= |ks[n].cores[c].blocked| && c < |ks[n + 1].cores|
    ensures ks[n + 1].cores[c].blocked == ks[n].cores[c].blocked[m..]
    ensures Sorted(ks[n].cores[c].blocked)
    ensures Pushed(ks[n].cores[c].ready, ks[n + 1].cores[c].ready,
                   HandlesOf(ks[n].tasks, Ids(ks[n].cores[c].blocked[..m])))
  {
    RunsAreWellFormed(ks, ss, n);
    assert Follows(ks[n], ss[n], ks[n + 1]);
    TickIsExpiry(ks[n], ss[n], c, now);
    var k1 := BeforeExpiry(ks[n], ss[n]);
    var l := ks[n].cores[c].blocked;
    ElapsedIsPrefix(l, now);
    m := |Expired(l, now)|;
    assert l[..m] == Expired(l, now) && l[m..] == Remaining(l, now);
    HandleWaitingPushes(k1, c, now);
  }
}
