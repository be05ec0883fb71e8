/** Properties of whole runs: bounded waiting, safe clean-up, and join. */
module KernelProgress {
  import opened Basics
  import opened PriorityLists
  import opened BlockedQueue
  import opened KernelState
  import opened KernelInvariant
  import opened KernelLedger
  import opened KernelRegistry
  import opened KernelSteps
  import opened KernelQueues
  import opened KernelRuns
  import Timers

  lemma StepOf(ks: seq<Kernel>, ss: seq<Step>, n: nat)
    requires Run(ks, ss) && n < |ss|
    ensures Follows(ks[n], ss[n], ks[n + 1]) && CoresOk(ks[n]) && CoresOk(ks[n + 1])
  {
    RunsAreWellFormed(ks, ss, n);
    RunsAreWellFormed(ks, ss, n + 1);
  }

  // ---- Bounded waiting ----

  /** No task of core `c` that is more urgent than `p` is running or ready. */
  ghost predicate NoneAbove(k: Kernel, c: nat, p: nat) {
    forall id :: Here(k.tasks, id, c, Running) || Here(k.tasks, id, c, Ready) ==> k.tasks[id].prio <= p
  }

  /** How often core `c` reschedules. */
  function Reschedules(ss: seq<Step>, c: nat): nat {
    if ss == [] then 0 else (if ss[0] == DoReschedule(c) then 1 else 0) + Reschedules(ss[1..], c)
  }

  lemma CountFrom(ss: seq<Step>, m: nat, n: nat, c: nat)
    requires m < n <= |ss|
    ensures Reschedules(ss[m..n], c) == (if ss[m] == DoReschedule(c) then 1 else 0) + Reschedules(ss[m + 1..n], c)
  {
    assert ss[m..n][1..] == ss[m + 1..n];
  }

  /** Task `id` is number `j` in list `p` of core `c`. */
  predicate Waits(k: Kernel, c: nat, p: nat, j: nat, id: int) {
    && c < |k.cores| && p < |k.cores[c].ready| && j < |k.cores[c].ready[p]| && k.cores[c].ready[p][j].id == id
  }

  /** A reschedule with nothing more urgent around takes the head of list `p`. */
  lemma RescheduleAdvances(k: Kernel, c: nat, p: nat, j: nat, id: int)
    requires CoresOk(k) && Shape(k, c) && Waits(k, c, p, j, id) && NoneAbove(k, c, p)
    ensures Reschedule(k, c).Next?
    ensures var k' := Reschedule(k, c).k;
      if j == 0 then k'.cores[c].current == id else Waits(k', c, p, j - 1, id)
  {
    ReschedulePicks(k, c);
    var core := k.cores[c];
    assert CoreOk(k.tasks, core, c);
    TopIs(k, c, p);
  }

  lemma TopIs(k: Kernel, c: nat, p: nat)
    requires CoresOk(k) && c < |k.cores| && p < |k.cores[c].ready| && k.cores[c].ready[p] != [] && NoneAbove(k, c, p)
    ensures Top(k.cores[c].ready) == Some(p)
  {
    var top := Top(k.cores[c].ready);
    WaitingIsReady(k, c, top.value, 0, k.cores[c].ready[top.value][0].id);
  }

  lemma PreemptRuns(k: Kernel, c: nat, id: int)
    requires Shape(k, c) && CurrentStatus(k, c) == Running && Here(k.tasks, id, c, Ready)
    requires Preempt(k, c).Next? && Preempt(k, c).k.cores[c].current == id
    ensures Here(Preempt(k, c).k.tasks, id, c, Running)
  {}

  lemma RunNextRuns(k: Kernel, c: nat, idling: bool, id: int)
    requires c < |k.cores| && Top(k.cores[c].ready).Some? && Here(k.tasks, id, c, Ready)
    requires RunNext(k, c, idling).Next? && RunNext(k, c, idling).k.cores[c].current == id
    ensures Here(RunNext(k, c, idling).k.tasks, id, c, Running)
  {}

  /** A ready task that a reschedule makes current runs. */
  lemma PickedRuns(k: Kernel, c: nat, id: int)
    requires CoresOk(k) && Shape(k, c) && Here(k.tasks, id, c, Ready) && Top(k.cores[c].ready).Some?
    requires Reschedule(k, c).Next? && Reschedule(k, c).k.cores[c].current == id
    ensures Here(Reschedule(k, c).k.tasks, id, c, Running)
  {
    assert CoreOk(k.tasks, k.cores[c], c);
    var k1 := Reap(k, c);
    assert Here(k1.tasks, id, c, Ready);
    var status := CurrentStatus(k1, c);
    if status == Running {
      PreemptRuns(k1, c, id);
    } else {
      RunNextRuns(if status == Finished then Retire(k1, c) else k1, c, status == Idle, id);
    }
  }

  lemma WaitReschedule(k: Kernel, k': Kernel, c: nat, p: nat, j: nat, id: int)
    requires CoresOk(k) && Follows(k, DoReschedule(c), k') && Waits(k, c, p, j, id) && NoneAbove(k, c, p)
    ensures if j > 0 then Waits(k', c, p, j - 1, id) else Here(k'.tasks, id, c, Running) && k'.cores[c].current == id
  {
    RescheduleAdvances(k, c, p, j, id);
    if j == 0 {
      WaitingIsReady(k, c, p, j, id);
      PickedRuns(k, c, id);
    }
  }

  /** One step in the life of a waiting task. */
  lemma WaitStep(k: Kernel, s: Step, k': Kernel, c: nat, p: nat, j: nat, id: int)
    requires CoresOk(k) && Follows(k, s, k') && Waits(k, c, p, j, id)
    requires s == DoReschedule(c) ==> NoneAbove(k, c, p)
    ensures if s != DoReschedule(c) then Waits(k', c, p, j, id)
            else if j > 0 then Waits(k', c, p, j - 1, id)
            else Here(k'.tasks, id, c, Running) && k'.cores[c].current == id
  {
    if s == DoReschedule(c) {
      WaitReschedule(k, k', c, p, j, id);
    } else if s != DoReap(c) && !s.DoAddCore? {
      StepGrows(k, s, k', c);
    }
  }

  /**
   * Bounded waiting: a ready task with `j` tasks before it in its list runs at the latest with the
   * `j + 1`st reschedule of its core, while no more urgent task runs or is ready when the core
   * reschedules. Everything else may happen in between on any core.
   */
  lemma {:induction false} BoundedWaiting(ks: seq<Kernel>, ss: seq<Step>, m: nat, n: nat, c: nat, p: nat, j: nat, id: int)
    returns (i: nat)
    requires Run(ks, ss) && m <= n < |ks| && Waits(ks[m], c, p, j, id)
    requires forall x :: m <= x < n && ss[x] == DoReschedule(c) ==> NoneAbove(ks[x], c, p)
    requires Reschedules(ss[m..n], c) > j
    ensures m <= i < n && ss[i] == DoReschedule(c)
    ensures Here(ks[i + 1].tasks, id, c, Running) && ks[i + 1].cores[c].current == id
    ensures Reschedules(ss[m..i], c) <= j
    decreases n - m
  {
    StepOf(ks, ss, m);
    CountFrom(ss, m, n, c);
    WaitStep(ks[m], ss[m], ks[m + 1], c, p, j, id);
    if ss[m] == DoReschedule(c) && j == 0 {
      i := m;
      assert ss[m..i] == [];
    } else {
      i := BoundedWaiting(ks, ss, m + 1, n, c, p, if ss[m] == DoReschedule(c) then j - 1 else j, id);
      CountFrom(ss, m, i, c);
    }
  }

  lemma WaitingIsReady(k: Kernel, c: nat, p: nat, j: nat, id: int)
    requires CoresOk(k) && Waits(k, c, p, j, id)
    ensures Here(k.tasks, id, c, Ready) && k.tasks[id].prio == p
  {
    assert CoreOk(k.tasks, k.cores[c], c);
    assert k.cores[c].ready[p][j] in k.cores[c].ready[p];
  }

  // ---- Safe clean-up ----

  /** `cleanup_tasks` drops only tasks that nothing refers to any more. */
  lemma ReapIsSafe(k: Kernel, c: nat, id: int)
    requires Base(k) && c < |k.cores| && id in k.tasks && id !in Reap(k, c).tasks
    ensures Here(k.tasks, id, c, Invalid) && id !in k.registry && id !in k.waiting
    ensures forall x :: 0 <= x < |k.cores| ==>
      k.cores[x].current != id && k.cores[x].idle != id && k.cores[x].fpuOwner != id
    ensures forall l :: Occupies(k, id, l) ==> l.RetiredIn? && l.c == c
  {
    assert CoreOk(k.tasks, k.cores[c], c);
    assert id in k.cores[c].finished;
    forall x | 0 <= x < |k.cores| ensures k.cores[x].current != id && k.cores[x].idle != id && k.cores[x].fpuOwner != id {
      assert CoreOk(k.tasks, k.cores[x], x);
    }
    if Pending(k, id) {
      var x: nat :| PendingAt(k, id, x);
      PendingCore(k, id, x);
    }
    forall l | Occupies(k, id, l) ensures l.RetiredIn? && l.c == c { OccupiedAgrees(k, id, l); }
  }

  lemma DispatchRetires(k: Kernel, c: nat)
    requires Shape(k, c) && Dispatch(k, c).Next?
    ensures Dispatch(k, c).k.cores[c].finished ==
      k.cores[c].finished + if CurrentStatus(k, c) == Finished then [k.cores[c].current] else []
  {
    var status := CurrentStatus(k, c);
    var f := k.cores[c].finished;
    if status == Running {
      PreemptKeepsFinished(k, c);
      assert f + [] == f;
    } else if status == Finished {
      RunNextKeepsFinished(Retire(k, c), c, false);
    } else {
      RunNextKeepsFinished(k, c, status == Idle);
      assert f + [] == f;
    }
  }

  lemma PreemptKeepsFinished(k: Kernel, c: nat)
    requires Shape(k, c) && Preempt(k, c).Next?
    ensures Preempt(k, c).k.cores[c].finished == k.cores[c].finished
  {}

  lemma RunNextKeepsFinished(k: Kernel, c: nat, idling: bool)
    requires c < |k.cores| && RunNext(k, c, idling).Next?
    ensures RunNext(k, c, idling).k.cores[c].finished == k.cores[c].finished
  {}

  /** A reschedule leaves only the task it retires itself for the next clean-up. */
  lemma RescheduleRetires(k: Kernel, c: nat)
    requires CoresOk(k) && Shape(k, c) && Reschedule(k, c).Next?
    ensures Reschedule(k, c).k.cores[c].finished == if CurrentStatus(k, c) == Finished then [k.cores[c].current] else []
  {
    assert CoreOk(k.tasks, k.cores[c], c);
    var k1 := Reap(k, c);
    assert k1.tasks[k.cores[c].current] == k.tasks[k.cores[c].current];
    DispatchRetires(k1, c);
  }

  /** A reschedule of the core. */
  lemma RetireByReschedule(k: Kernel, c: nat, finished: seq<int>, id: int)
    requires CoresOk(k) && Shape(k, c) && id in finished
    requires finished == if CurrentStatus(k, c) == Finished then [k.cores[c].current] else []
    ensures Here(k.tasks, id, c, Finished)
  {
    assert CoreOk(k.tasks, k.cores[c], c);
  }

  /** Any other step but a clean-up leaves the retired tasks of the core as they were. */
  lemma NotRetiredBy(k: Kernel, s: Step, k': Kernel, c: nat)
    requires Follows(k, s, k') && c < |k'.cores| && s != DoReschedule(c) && s != DoReap(c) && !s.DoAddCore?
    ensures c < |k.cores| && k'.cores[c].finished == k.cores[c].finished
  {
    CoreCount(k, s, k');
    StepGrows(k, s, k', c);
  }

  lemma RetireStep(k: Kernel, s: Step, k': Kernel, c: nat, id: int)
    requires CoresOk(k) && Follows(k, s, k') && c < |k'.cores| && id in k'.cores[c].finished
    ensures c < |k.cores|
    ensures id in k.cores[c].finished || (s == DoReschedule(c) && Here(k.tasks, id, c, Finished))
  {
    if s == DoReschedule(c) {
      RescheduleRetires(k, c);
      RetireByReschedule(k, c, k'.cores[c].finished, id);
    } else if s != DoReap(c) && !s.DoAddCore? {
      NotRetiredBy(k, s, k', c);
    }
  }

  lemma RetireAt(ks: seq<Kernel>, ss: seq<Step>, n: nat, c: nat, id: int)
    requires Run(ks, ss) && n < |ss| && c < |ks[n + 1].cores| && id in ks[n + 1].cores[c].finished
    ensures c < |ks[n].cores|
    ensures id in ks[n].cores[c].finished || (ss[n] == DoReschedule(c) && Here(ks[n].tasks, id, c, Finished))
  {
    StepOf(ks, ss, n);
    RetireStep(ks[n], ss[n], ks[n + 1], c, id);
  }

  lemma RetiredIsInvalid(ks: seq<Kernel>, ss: seq<Step>, n: nat, c: nat, id: int)
    requires Run(ks, ss) && n < |ks| && c < |ks[n].cores| && id in ks[n].cores[c].finished
    ensures Here(ks[n].tasks, id, c, Invalid)
  {
    RunsAreWellFormed(ks, ss, n);
    assert CoreOk(ks[n].tasks, ks[n].cores[c], c);
  }

  lemma CoreCount(k: Kernel, s: Step, k': Kernel)
    requires Follows(k, s, k') && !s.DoAddCore?
    ensures |k'.cores| == |k.cores|
  {
    if !s.DoReap? && !s.DoReschedule? { StepGrows(k, s, k', s.c); }
  }

  /** Every retired task was retired by an earlier reschedule of its core, which did not drop it. */
  lemma {:induction false} RetiredEarlier(ks: seq<Kernel>, ss: seq<Step>, n: nat, c: nat, id: int) returns (m: nat)
    requires Run(ks, ss) && n < |ks| && c < |ks[n].cores| && id in ks[n].cores[c].finished
    ensures m < n && ss[m] == DoReschedule(c)
    ensures Here(ks[m].tasks, id, c, Finished) && Here(ks[m + 1].tasks, id, c, Invalid)
  {
    assert n > 0;
    RetireAt(ks, ss, n - 1, c, id);
    RetiredIsInvalid(ks, ss, n, c, id);
    if id in ks[n - 1].cores[c].finished {
      m := RetiredEarlier(ks, ss, n - 1, c, id);
    } else {
      m := n - 1;
    }
  }

  // ---- Nothing else ends a task ----

  /** Both states know the same tasks and have the same join queues. */
  ghost predicate Carries(k: Kernel, k': Kernel) {
    k.tasks.Keys <= k'.tasks.Keys && k'.waiting == k.waiting
  }

  lemma WakeLocalCarries(k: Kernel, c: nat, id: int)
    requires Shape(k, c) && WakeLocal(k, c, id).Next?
    ensures Carries(k, WakeLocal(k, c, id).k)
  {}

  lemma {:induction false} WakeEachCarries(k: Kernel, c: nat, hs: seq<TaskHandle>)
    requires WakeEach(k, c, hs).Next?
    ensures Carries(k, WakeEach(k, c, hs).k)
    decreases |hs|
  {
    if hs != [] {
      if hs[0].core == c { WakeLocalCarries(k, c, hs[0].id); }
      WakeEachCarries(CustomWakeup(k, c, hs[0]).k, c, hs[1..]);
    }
  }

  lemma {:induction false} DrainWakeupsCarries(k: Kernel, c: nat)
    requires c < |k.cores| && DrainWakeups(k, c).Next?
    ensures Carries(k, DrainWakeups(k, c).k)
    decreases |k.cores[c].wakeups|
  {
    if k.cores[c].wakeups != [] { DrainWakeupsCarries(TakeWakeup(k, c).k, c); }
  }

  lemma {:induction false} DrainNewTasksCarries(k: Kernel, c: nat)
    requires c < |k.cores| && DrainNewTasks(k, c).Next?
    ensures Carries(k, DrainNewTasks(k, c).k)
    decreases |k.cores[c].newTasks|
  {
    if k.cores[c].newTasks != [] { DrainNewTasksCarries(TakeNewTask(k, c), c); }
  }

  lemma {:induction false} WakeAllKeys(tasks: TaskMap, ready: seq<seq<TaskHandle>>, ss: seq<Sleeper>)
    requires |ready| == NO_PRIORITIES
    ensures tasks.Keys <= WakeAll(tasks, ready, ss).0.Keys
    decreases |ss|
  {
    if ss != [] {
      var r := WakeOne(tasks, ready, ss[0].task);
      WakeAllKeys(r.0, r.1, ss[1..]);
    }
  }

  lemma HandleWaitingCarries(k: Kernel, c: nat, now: Time)
    requires Shape(k, c) && HandleWaiting(k, c, now).Next?
    ensures Carries(k, HandleWaiting(k, c, now).k)
  {
    WakeAllKeys(k.tasks, k.cores[c].ready, Expired(k.cores[c].blocked, now));
  }

  lemma PreemptCarries(k: Kernel, c: nat)
    requires Shape(k, c) && Preempt(k, c).Next?
    ensures Carries(k, Preempt(k, c).k)
  {}

  lemma RunNextCarries(k: Kernel, c: nat, idling: bool)
    requires c < |k.cores| && RunNext(k, c, idling).Next?
    ensures Carries(k, RunNext(k, c, idling).k)
  {}

  lemma DispatchCarries(k: Kernel, c: nat)
    requires Shape(k, c) && Dispatch(k, c).Next?
    ensures Carries(k, Dispatch(k, c).k)
  {
    var status := CurrentStatus(k, c);
    if status == Running {
      PreemptCarries(k, c);
    } else {
      RunNextCarries(if status == Finished then Retire(k, c) else k, c, status == Idle);
    }
  }

  lemma CheckInputCarries(k: Kernel, c: nat)
    requires Shape(k, c) && CheckInput(k, c).Next?
    ensures Carries(k, CheckInput(k, c).k)
  {
    DrainWakeupsCarries(k, c);
    DrainNewTasksCarries(DrainWakeups(k, c).k, c);
  }

  /** Steps that neither create nor end a task nor join. */
  lemma StepCarries(k: Kernel, s: Step, k': Kernel)
    requires Follows(k, s, k')
    requires !s.DoAddCore? && !s.DoSpawn? && !s.DoExit? && !s.DoJoin? && !s.DoReap? && !s.DoReschedule?
    ensures Carries(k, k')
  {
    match s
    case DoCheckInput(c) => CheckInputCarries(k, c);
    case DoTimerInterrupt(c, now) =>
      var core := k.cores[c];
      HandleWaitingCarries(SetCore(k, c, core.(timers := Timers.ClearActive(core.timers, now))), c, now);
    case DoPollTimers(c, now) => HandleWaitingCarries(k, c, now);
    case _ =>
  }

  predicate Exits(k: Kernel, s: Step, id: int) {
    s.DoExit? && s.c < |k.cores| && k.cores[s.c].current == id
  }

  lemma ExitCarries(k: Kernel, c: nat)
    requires Shape(k, c) && Exit(k, c).Next?
    ensures Exit(k, c).k.waiting == k.waiting - {k.cores[c].current}
    ensures k.tasks.Keys <= Exit(k, c).k.tasks.Keys
  {
    var cur := k.cores[c].current;
    WakeEachCarries(Exiting(k, cur), c, if cur in k.waiting then k.waiting[cur] else []);
  }

  /** The join queues only grow, until the exit of their task. */
  lemma JoinQueueStep(k: Kernel, s: Step, k': Kernel, id: int)
    requires k.waiting.Keys == k.registry.Keys && Follows(k, s, k') && id in k.waiting && !Exits(k, s, id)
    ensures id in k'.waiting && k.waiting[id] <= k'.waiting[id]
  {
    if s.DoExit? {
      ExitCarries(k, s.c);
    } else if s.DoReschedule? {
      DispatchCarries(Reap(k, s.c), s.c);
    } else if !s.DoAddCore? && !s.DoSpawn? && !s.DoJoin? && !s.DoReap? {
      StepCarries(k, s, k');
    }
  }

  lemma RunStep(ks: seq<Kernel>, ss: seq<Step>, n: nat)
    requires Run(ks, ss) && n < |ss|
    ensures Follows(ks[n], ss[n], ks[n + 1]) && ks[n].waiting.Keys == ks[n].registry.Keys
  {
    RunsAreWellFormed(ks, ss, n);
  }

  lemma RunJoinStep(ks: seq<Kernel>, ss: seq<Step>, n: nat, id: int)
    requires Run(ks, ss) && n < |ss| && id in ks[n].waiting && !Exits(ks[n], ss[n], id)
    ensures id in ks[n + 1].waiting && ks[n].waiting[id] <= ks[n + 1].waiting[id]
  {
    RunStep(ks, ss, n);
    JoinQueueStep(ks[n], ss[n], ks[n + 1], id);
  }

  lemma PrefixTrans<T>(a: seq<T>, b: seq<T>, c: seq<T>)
    requires a <= b && b <= c
    ensures a <= c
  {}

  /** As long as a task has not exited it keeps its join queue and everyone in it. */
  lemma {:induction false} JoinQueueStays(ks: seq<Kernel>, ss: seq<Step>, m: nat, n: nat, id: int)
    requires Run(ks, ss) && m <= n < |ks| && id in ks[m].waiting
    requires forall i :: m <= i < n ==> !Exits(ks[i], ss[i], id)
    ensures id in ks[n].waiting && ks[m].waiting[id] <= ks[n].waiting[id]
    decreases n
  {
    if m < n {
      JoinQueueStays(ks, ss, m, n - 1, id);
      RunJoinStep(ks, ss, n - 1, id);
      PrefixTrans(ks[m].waiting[id], ks[n - 1].waiting[id], ks[n].waiting[id]);
    }
  }

  /** Without an exit of `id` a join of `id` blocks. */
  lemma JoinBlocks(k: Kernel, c: nat, id: int, k': Kernel)
    requires Follows(k, DoJoin(c, id), k') && id in k.waiting
    ensures id in k'.waiting && k'.waiting[id] == k.waiting[id] + [CurrentHandle(k, c)]
    ensures k' != k
  {
    assert k'.waiting[id] != k.waiting[id];
  }

  /** `join` finds a task gone only if the task has exited since it was known. */
  lemma JoinReturnsAfterExit(ks: seq<Kernel>, ss: seq<Step>, m: nat, n: nat, c: nat, id: int) returns (i: nat)
    requires Run(ks, ss) && m <= n < |ss| && id in ks[m].registry
    requires ss[n] == DoJoin(c, id) && ks[n + 1] == ks[n]
    ensures m <= i < n && Exits(ks[i], ss[i], id)
  {
    RunStep(ks, ss, m);
    RunStep(ks, ss, n);
    if id in ks[n].waiting {
      JoinBlocks(ks[n], c, id, ks[n + 1]);
    } else if forall x :: m <= x < n ==> !Exits(ks[x], ss[x], id) {
      JoinQueueStays(ks, ss, m, n, id);
    } else {
      i :| m <= i < n && Exits(ks[i], ss[i], id);
    }
  }

  /** A joiner sleeps on its core until the task it waits for exits. */
  lemma JoinerSleepsUntilExit(ks: seq<Kernel>, ss: seq<Step>, m: nat, n: nat, c: nat, id: int)
    requires Run(ks, ss) && Untimed(ss) && m < n < |ks|
    requires ss[m] == DoJoin(c, id) && id in ks[m].waiting
    requires forall i :: m < i < n ==> !Exits(ks[i], ss[i], id)
    ensures c < |ks[m].cores| && Asleep(ks[n], ks[m].cores[c].current, c)
  {
    StepOf(ks, ss, m);
    var h := CurrentHandle(ks[m], c);
    assert h.core == c by { assert CoreOk(ks[m].tasks, ks[m].cores[c], c); }
    var j := |ks[m].waiting[id]|;
    JoinBlocks(ks[m], c, id, ks[m + 1]);
    JoinQueueStays(ks, ss, m + 1, n, id);
    assert ks[n].waiting[id][j] == h;
    UntimedRunsBalance(ks, ss, n);
    HandleMeansAsleep(ks[n], JoinQueue(id), j, h.id);
  }

  /** Only clean-up drops a task. */
  lemma DropStep(k: Kernel, s: Step, k': Kernel, id: int)
    requires Follows(k, s, k') && id in k.tasks && id !in k'.tasks
    ensures (s.DoReap? || s.DoReschedule?) && id !in Reap(k, s.c).tasks && id in k.cores[s.c].finished
  {
    if s.DoExit? {
      ExitCarries(k, s.c);
    } else if s.DoReschedule? {
      DispatchCarries(Reap(k, s.c), s.c);
    } else if !s.DoAddCore? && !s.DoSpawn? && !s.DoJoin? && !s.DoReap? {
      StepCarries(k, s, k');
    }
  }

  /**
   * A task is dropped only by the clean-up of its core, and always in a later call than the reschedule
   * that retired it.
   */
  lemma DroppedLaterThanRetired(ks: seq<Kernel>, ss: seq<Step>, n: nat, id: int) returns (m: nat)
    requires Run(ks, ss) && n < |ss| && id in ks[n].tasks && id !in ks[n + 1].tasks
    ensures ss[n].DoReap? || ss[n].DoReschedule?
    ensures m < n && ss[m] == DoReschedule(ss[n].c)
    ensures Here(ks[m].tasks, id, ss[n].c, Finished) && Here(ks[m + 1].tasks, id, ss[n].c, Invalid)
  {
    assert Follows(ks[n], ss[n], ks[n + 1]);
    DropStep(ks[n], ss[n], ks[n + 1], id);
    m := RetiredEarlier(ks, ss, n, ss[n].c, id);
  }

  /** The FPU owner is the idle task, a live task, or the task that is exiting on that core. */
  lemma FpuOwnerIsPresent(ks: seq<Kernel>, ss: seq<Step>, n: nat, c: nat)
    requires Run(ks, ss) && n < |ks| && c < |ks[n].cores|
    ensures var k, owner := ks[n], ks[n].cores[c].fpuOwner;
      Alive(k, owner) || (owner == k.cores[c].current && Here(k.tasks, owner, c, Finished))
  {
    RunsAreWellFormed(ks, ss, n);
    var k, owner := ks[n], ks[n].cores[c].fpuOwner;
    assert CoreOk(k.tasks, k.cores[c], c);
    assert Here(k.tasks, owner, c, k.tasks[owner].status);
  }

  /** The wake-up of handle `h`, issued on core `c`, has been carried out or is in its core's input. */
  ghost predicate Delivered(k: Kernel, c: nat, h: TaskHandle) {
    if h.core == c then Here(k.tasks, h.id, c, Ready) else h.core < |k.cores| && h in k.cores[h.core].wakeups
  }

  lemma WakeDelivers(k: Kernel, c: nat, x: TaskHandle, h: TaskHandle)
    requires Sound(k) && Shape(k, c) && CustomWakeup(k, c, x).Next? && (x == h || Delivered(k, c, h))
    ensures Delivered(CustomWakeup(k, c, x).k, c, h)
  {
    if x.core == c { WakeLocalKeepsCores(k, c, x.id); }
  }

  lemma {:induction false} WakeEachDelivers(k: Kernel, c: nat, hs: seq<TaskHandle>, h: TaskHandle)
    requires Sound(k) && WakeEach(k, c, hs).Next? && (h in hs || Delivered(k, c, h))
    ensures Delivered(WakeEach(k, c, hs).k, c, h)
    decreases |hs|
  {
    if hs != [] {
      if hs[0] == h || Delivered(k, c, h) { WakeDelivers(k, c, hs[0], h); }
      CustomWakeupSound(k, c, hs[0]);
      WakeEachDelivers(CustomWakeup(k, c, hs[0]).k, c, hs[1..], h);
    }
  }

  /** An exiting task wakes everyone who waits for it: no joiner is lost. */
  lemma ExitWakesJoiners(ks: seq<Kernel>, ss: seq<Step>, n: nat, h: TaskHandle)
    requires Run(ks, ss) && n < |ss| && ss[n].DoExit? && ss[n].c < |ks[n].cores|
    requires ks[n].cores[ss[n].c].current in ks[n].waiting && h in ks[n].waiting[ks[n].cores[ss[n].c].current]
    ensures Delivered(ks[n + 1], ss[n].c, h)
  {
    RunsAreWellFormed(ks, ss, n);
    var k, c := ks[n], ss[n].c;
    assert Follows(k, ss[n], ks[n + 1]);
    var id := k.cores[c].current;
    ExitingSound(k, c);
    WakeEachDelivers(Exiting(k, id), c, k.waiting[id], h);
  }
}
