/**
 * How steps change the ready queue of a core: only its own reschedule takes tasks out, every other step
 * appends. On this rest first-in first-out selection and bounded waiting.
 */
module KernelQueues {
  import opened Basics
  import opened PriorityLists
  import opened BlockedQueue
  import opened KernelState
  import opened KernelInvariant
  import opened KernelSteps
  import Timers

  /** Every list of `a` is a prefix of its list in `b`. */
  ghost predicate Extends(a: seq<seq<TaskHandle>>, b: seq<seq<TaskHandle>>) {
    |a| == |b| && forall p :: 0 <= p < |a| ==> a[p] <= b[p]
  }

  /** Core `c` runs and retires the same tasks; tasks may have been added to its ready queue. */
  ghost predicate Grows(k: Kernel, k': Kernel, c: nat) {
    && c < |k.cores| == |k'.cores|
    && k'.cores[c].current == k.cores[c].current && k'.cores[c].finished == k.cores[c].finished
    && Extends(k.cores[c].ready, k'.cores[c].ready)
  }

  lemma PushExtends(ready: seq<seq<TaskHandle>>, p: nat, h: TaskHandle)
    requires p < |ready|
    ensures Extends(ready, PushTo(ready, p, h))
  {}

  lemma WakeOneExtends(tasks: TaskMap, ready: seq<seq<TaskHandle>>, id: int)
    requires |ready| == NO_PRIORITIES
    ensures Extends(ready, WakeOne(tasks, ready, id).1)
  {}

  lemma {:induction false} WakeAllExtends(tasks: TaskMap, ready: seq<seq<TaskHandle>>, ss: seq<Sleeper>)
    requires |ready| == NO_PRIORITIES
    ensures Extends(ready, WakeAll(tasks, ready, ss).1)
    decreases |ss|
  {
    if ss != [] {
      var r := WakeOne(tasks, ready, ss[0].task);
      WakeOneExtends(tasks, ready, ss[0].task);
      WakeAllExtends(r.0, r.1, ss[1..]);
    }
  }

  lemma WakeLocalGrows(k: Kernel, c0: nat, id: int, c: nat)
    requires Shape(k, c0) && c < |k.cores| && WakeLocal(k, c0, id).Next?
    ensures Grows(k, WakeLocal(k, c0, id).k, c)
  {
    WakeOneExtends(k.tasks, k.cores[c0].ready, id);
  }

  lemma CustomWakeupGrows(k: Kernel, c0: nat, h: TaskHandle, c: nat)
    requires Shape(k, c0) && c < |k.cores| && CustomWakeup(k, c0, h).Next?
    ensures Grows(k, CustomWakeup(k, c0, h).k, c)
  {
    if h.core == c0 { WakeLocalGrows(k, c0, h.id, c); }
  }

  lemma {:induction false} WakeEachGrows(k: Kernel, c0: nat, hs: seq<TaskHandle>, c: nat)
    requires c < |k.cores| && WakeEach(k, c0, hs).Next?
    ensures Grows(k, WakeEach(k, c0, hs).k, c)
    decreases |hs|
  {
    if hs != [] {
      CustomWakeupGrows(k, c0, hs[0], c);
      WakeEachGrows(CustomWakeup(k, c0, hs[0]).k, c0, hs[1..], c);
    }
  }

  lemma TakeWakeupGrows(k: Kernel, c0: nat, c: nat)
    requires Shape(k, c0) && k.cores[c0].wakeups != [] && c < |k.cores| && TakeWakeup(k, c0).Next?
    ensures Grows(k, TakeWakeup(k, c0).k, c)
  {
    var core := k.cores[c0];
    var k1 := SetCore(k, c0, core.(wakeups := core.wakeups[1..]));
    WakeLocalGrows(k1, c0, core.wakeups[0].id, c);
  }

  lemma {:induction false} DrainWakeupsGrows(k: Kernel, c0: nat, c: nat)
    requires c0 < |k.cores| && c < |k.cores| && DrainWakeups(k, c0).Next?
    ensures Grows(k, DrainWakeups(k, c0).k, c)
    decreases |k.cores[c0].wakeups|
  {
    if k.cores[c0].wakeups != [] {
      TakeWakeupGrows(k, c0, c);
      DrainWakeupsGrows(TakeWakeup(k, c0).k, c0, c);
    }
  }

  lemma {:induction false} DrainNewTasksGrows(k: Kernel, c0: nat, c: nat)
    requires c0 < |k.cores| && c < |k.cores| && DrainNewTasks(k, c0).Next?
    ensures Grows(k, DrainNewTasks(k, c0).k, c)
    decreases |k.cores[c0].newTasks|
  {
    if k.cores[c0].newTasks != [] { DrainNewTasksGrows(TakeNewTask(k, c0), c0, c); }
  }

  lemma CheckInputGrows(k: Kernel, c0: nat, c: nat)
    requires Shape(k, c0) && c < |k.cores| && CheckInput(k, c0).Next?
    ensures Grows(k, CheckInput(k, c0).k, c)
  {
    DrainWakeupsGrows(k, c0, c);
    DrainNewTasksGrows(DrainWakeups(k, c0).k, c0, c);
  }

  lemma HandleWaitingGrows(k: Kernel, c0: nat, now: Time, c: nat)
    requires Shape(k, c0) && c < |k.cores| && HandleWaiting(k, c0, now).Next?
    ensures Grows(k, HandleWaiting(k, c0, now).k, c)
  {
    WakeAllExtends(k.tasks, k.cores[c0].ready, Expired(k.cores[c0].blocked, now));
  }

  lemma WakeGrows(k: Kernel, c0: nat, q: int, c: nat)
    requires Shape(k, c0) && c < |k.cores| && Wake(k, c0, q).Next?
    ensures Grows(k, Wake(k, c0, q).k, c)
  {
    var hs := QueueAt(k, q);
    if hs != [] {
      var i := Earliest(hs);
      CustomWakeupGrows(k.(parked := k.parked[q := RemoveAt(hs, i)]), c0, hs[i], c);
    }
  }

  lemma ExitGrows(k: Kernel, c0: nat, c: nat)
    requires Shape(k, c0) && c < |k.cores| && Exit(k, c0).Next?
    ensures Grows(k, Exit(k, c0).k, c)
  {
    var id := k.cores[c0].current;
    WakeEachGrows(Exiting(k, id), c0, if id in k.waiting then k.waiting[id] else [], c);
  }

  /** Only its own reschedule and clean-up do anything else to a core. */
  lemma StepGrows(k: Kernel, s: Step, k': Kernel, c: nat)
    requires Follows(k, s, k') && c < |k.cores| && s != DoReschedule(c) && s != DoReap(c) && !s.DoAddCore?
    ensures Grows(k, k', c)
  {
    match s
    case DoExit(c0) => ExitGrows(k, c0, c);
    case DoWake(c0, q) => WakeGrows(k, c0, q, c);
    case DoCheckInput(c0) => CheckInputGrows(k, c0, c);
    case DoTimerInterrupt(c0, now) => TimerInterruptGrows(k, c0, now, c);
    case DoPollTimers(c0, now) => HandleWaitingGrows(k, c0, now, c);
    case DoReschedule(c0) => RescheduleQuiet(k, c0);
    case _ => PlainStepGrows(k, s, c);
  }

  lemma PlainStepGrows(k: Kernel, s: Step, c: nat)
    requires Enabled(k, s) && c < |k.cores| && Apply(k, s).Next? && s != DoReap(c)
    requires !s.DoAddCore? && !s.DoExit? && !s.DoWake? && !s.DoCheckInput?
    requires !s.DoTimerInterrupt? && !s.DoPollTimers? && !s.DoReschedule?
    ensures Grows(k, Apply(k, s).k, c)
  {
    match s
    case DoSpawn(c0, id, prio, target) =>
      if target == c0 { PushExtends(k.cores[c0].ready, prio, TaskHandle(id, prio, c0)); }
    case _ =>
  }

  lemma TimerInterruptGrows(k: Kernel, c0: nat, now: Time, c: nat)
    requires Shape(k, c0) && c < |k.cores| && TimerInterrupt(k, c0, now).Next?
    ensures Grows(k, TimerInterrupt(k, c0, now).k, c)
  {
    var core := k.cores[c0];
    HandleWaitingGrows(SetCore(k, c0, core.(timers := Timers.ClearActive(core.timers, now))), c0, now, c);
  }

  // ---- Which task is selected ----

  /** The most urgent ready task that arrived first: the head of the highest non-empty list. */
  ghost predicate Head(k: Kernel, c: nat, id: int) {
    && c < |k.cores| && id in k.tasks && k.tasks[id].prio < |k.cores[c].ready|
    && k.cores[c].ready[k.tasks[id].prio] != [] && k.cores[c].ready[k.tasks[id].prio][0].id == id
    && forall x :: Here(k.tasks, x, c, Ready) ==> k.tasks[x].prio <= k.tasks[id].prio
  }

  lemma ReadyIsListed(k: Kernel, c: nat, x: int)
    requires CoresOk(k) && c < |k.cores| && Here(k.tasks, x, c, Ready)
    ensures |k.cores[c].ready| == NO_PRIORITIES && HandleOf(x, k.tasks[x]) in k.cores[c].ready[k.tasks[x].prio]
  {
    assert CoreOk(k.tasks, k.cores[c], c);
  }

  lemma TopIsHead(k: Kernel, c: nat)
    requires CoresOk(k) && c < |k.cores| && Top(k.cores[c].ready).Some?
    ensures Head(k, c, k.cores[c].ready[Top(k.cores[c].ready).value][0].id)
    ensures k.tasks[k.cores[c].ready[Top(k.cores[c].ready).value][0].id].prio == Top(k.cores[c].ready).value
  {
    assert CoreOk(k.tasks, k.cores[c], c);
    var p := Top(k.cores[c].ready).value;
    assert k.cores[c].ready[p][0] in k.cores[c].ready[p];
    forall x | Here(k.tasks, x, c, Ready) ensures k.tasks[x].prio <= p { ReadyIsListed(k, c, x); }
  }

  /**
   * How a core picks its next task. `h` is the handle of the current task, which goes to the back of
   * its list if it was running and gives way.
   */
  ghost predicate Picks(core: Core, core': Core, running: bool, h: TaskHandle)
    requires |core.ready| == NO_PRIORITIES
  {
    var top := Top(core.ready);
    if top.Some? && (running ==> top.value >= h.prio) then
      var rest := PopFrom(core.ready, top.value);
      && core'.current == core.ready[top.value][0].id
      && core'.ready == if running then PushTo(rest, h.prio, h) else rest
    else
      core'.ready == core.ready && core'.current == if running then core.current else core.idle
  }

  lemma PreemptPicks(k: Kernel, c: nat)
    requires Shape(k, c) && CurrentStatus(k, c) == Running && Preempt(k, c).Next?
    ensures Picks(k.cores[c], Preempt(k, c).k.cores[c], true, CurrentHandle(k, c))
  {}

  lemma RunNextPicks(k: Kernel, c: nat, idling: bool, h: TaskHandle)
    requires c < |k.cores| && |k.cores[c].ready| == NO_PRIORITIES && RunNext(k, c, idling).Next?
    requires idling ==> k.cores[c].current == k.cores[c].idle
    ensures Picks(k.cores[c], RunNext(k, c, idling).k.cores[c], false, h)
  {}

  lemma DispatchPicks(k: Kernel, c: nat)
    requires CoresOk(k) && Shape(k, c) && Dispatch(k, c).Next?
    ensures Picks(k.cores[c], Dispatch(k, c).k.cores[c], CurrentStatus(k, c) == Running, CurrentHandle(k, c))
  {
    assert CoreOk(k.tasks, k.cores[c], c);
    var status := CurrentStatus(k, c);
    assert Here(k.tasks, k.cores[c].current, c, status);
    if status == Running {
      PreemptPicks(k, c);
    } else {
      RunNextPicks(if status == Finished then Retire(k, c) else k, c, status == Idle, CurrentHandle(k, c));
    }
  }

  lemma ReschedulePicks(k: Kernel, c: nat)
    requires CoresOk(k) && Shape(k, c)
    ensures Reschedule(k, c).Next? && CoresOk(Reschedule(k, c).k)
    ensures Picks(k.cores[c], Reschedule(k, c).k.cores[c], CurrentStatus(k, c) == Running, CurrentHandle(k, c))
  {
    DispatchKeepsCores(k, c);
    ReapKeepsCores(k, c);
    assert CoreOk(k.tasks, k.cores[c], c);
    DispatchPicks(Reap(k, c), c);
  }

  /**
   * After a reschedule the core runs a task of the highest priority: the running task if every ready
   * task is less urgent, else the first of the most urgent ready tasks, and the idle task only if
   * nothing is ready.
   */
  lemma SelectionIsMaximal(k: Kernel, c: nat)
    requires CoresOk(k) && Shape(k, c)
    ensures Reschedule(k, c).Next?
    ensures var cur, next := k.cores[c].current, Reschedule(k, c).k.cores[c].current;
      if Here(k.tasks, cur, c, Running) && forall x :: Here(k.tasks, x, c, Ready) ==> k.tasks[x].prio < k.tasks[cur].prio
      then next == cur
      else if exists x :: Here(k.tasks, x, c, Ready) then Head(k, c, next)
      else next == k.cores[c].idle
  {
    ReschedulePicks(k, c);
    assert CoreOk(k.tasks, k.cores[c], c);
    var top := Top(k.cores[c].ready);
    if top.Some? {
      TopIsHead(k, c);
      var first := k.cores[c].ready[top.value][0];
      assert first in k.cores[c].ready[top.value];
      assert Here(k.tasks, first.id, c, Ready);
    } else {
      forall x ensures !Here(k.tasks, x, c, Ready) {
        if Here(k.tasks, x, c, Ready) { ReadyIsListed(k, c, x); }
      }
    }
  }
}
