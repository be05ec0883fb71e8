/**
 * Exactly when a step panics. Handles that stay in a queue after a time-out are the only cause besides the
 * pool of bitmaps: the wake of such a handle finds a task that is not blocked.
 */
module KernelPanics {
  import opened Basics
  import opened PriorityLists
  import opened BlockedQueue
  import opened KernelState
  import opened KernelInvariant
  import opened KernelLedger
  import opened KernelRegistry
  import opened KernelSteps
  import opened KernelRuns

  // ---- Handles that cannot be delivered ----

  /** A wake of `h` on core `c` fails: the task is not blocked here, or its core does not exist. */
  predicate Undeliverable(k: Kernel, c: nat, h: TaskHandle) {
    if h.core == c then !Here(k.tasks, h.id, c, Blocked) else h.core >= |k.cores|
  }

  /** All of `hs` can be woken on core `c` one after the other. */
  ghost predicate Deliverable(k: Kernel, c: nat, hs: seq<TaskHandle>) {
    && (forall i :: 0 <= i < |hs| ==> !Undeliverable(k, c, hs[i]))
    && (forall i, j :: 0 <= i < j < |hs| && hs[i].core == c && hs[j].core == c ==> hs[i].id != hs[j].id)
  }

  lemma CustomWakeupPanicsIff(k: Kernel, c: nat, h: TaskHandle)
    requires CoresOk(k) && Shape(k, c)
    ensures CustomWakeup(k, c, h).Panic? <==> Undeliverable(k, c, h)
  {
    WakeLocalKeepsCores(k, c, h.id);
  }

  /** A task that was woken cannot be woken again; all others are as before. */
  lemma UndeliverableAfterWake(k: Kernel, c: nat, x: TaskHandle, h: TaskHandle)
    requires CoresOk(k) && Shape(k, c) && CustomWakeup(k, c, x).Next?
    ensures Undeliverable(CustomWakeup(k, c, x).k, c, h) <==>
      Undeliverable(k, c, h) || (x.core == c && h.core == c && h.id == x.id)
  {
    if x.core == c { WakeLocalKeepsCores(k, c, x.id); }
  }

  lemma DeliverableTail(k: Kernel, c: nat, hs: seq<TaskHandle>)
    requires CoresOk(k) && Shape(k, c) && hs != [] && CustomWakeup(k, c, hs[0]).Next?
    ensures Deliverable(CustomWakeup(k, c, hs[0]).k, c, hs[1..]) <==> Deliverable(k, c, hs)
  {
    CustomWakeupPanicsIff(k, c, hs[0]);
    var k1, tail := CustomWakeup(k, c, hs[0]).k, hs[1..];
    forall i | 0 <= i < |tail|
      ensures tail[i] == hs[i + 1]
      ensures Undeliverable(k1, c, tail[i]) <==>
        Undeliverable(k, c, hs[i + 1]) || (hs[0].core == c && hs[i + 1].core == c && hs[i + 1].id == hs[0].id)
    {
      UndeliverableAfterWake(k, c, hs[0], tail[i]);
    }
    TailIff(k, k1, c, hs);
  }

  lemma TailIff(k: Kernel, k1: Kernel, c: nat, hs: seq<TaskHandle>)
    requires hs != [] && !Undeliverable(k, c, hs[0])
    requires forall i :: 1 <= i < |hs| ==> (Undeliverable(k1, c, hs[i]) <==>
      Undeliverable(k, c, hs[i]) || (hs[0].core == c && hs[i].core == c && hs[i].id == hs[0].id))
    ensures Deliverable(k1, c, hs[1..]) <==> Deliverable(k, c, hs)
  {
    var tail := hs[1..];
    assert forall i :: 0 <= i < |tail| ==> tail[i] == hs[i + 1];
    if Deliverable(k1, c, tail) {
      forall i | 0 <= i < |hs| ensures !Undeliverable(k, c, hs[i]) {
        if i > 0 { assert !Undeliverable(k1, c, tail[i - 1]); }
      }
      forall i, j | 0 <= i < j < |hs| && hs[i].core == c && hs[j].core == c ensures hs[i].id != hs[j].id {
        assert !Undeliverable(k1, c, tail[j - 1]);
        if i > 0 { assert tail[i - 1].id != tail[j - 1].id; }
      }
    }
  }

  lemma {:induction false} WakeEachPanicsIff(k: Kernel, c: nat, hs: seq<TaskHandle>)
    requires Sound(k) && c < |k.cores|
    ensures WakeEach(k, c, hs).Next? <==> Deliverable(k, c, hs)
    decreases |hs|
  {
    if hs != [] {
      ShapeHolds(k, c);
      CustomWakeupPanicsIff(k, c, hs[0]);
      if CustomWakeup(k, c, hs[0]).Next? {
        CustomWakeupSound(k, c, hs[0]);
        DeliverableTail(k, c, hs);
        WakeEachPanicsIff(CustomWakeup(k, c, hs[0]).k, c, hs[1..]);
      }
    }
  }

  // ---- The input of a core ----

  /** The tasks named in the input of core `c` are blocked here, and none is named twice. */
  ghost predicate AllBlocked(tasks: TaskMap, c: nat, hs: seq<TaskHandle>) {
    NoDupIds(hs) && forall i :: 0 <= i < |hs| ==> Here(tasks, hs[i].id, c, Blocked)
  }

  lemma AllBlockedTail(tasks: TaskMap, c: nat, hs: seq<TaskHandle>)
    requires hs != [] && Here(tasks, hs[0].id, c, Blocked)
    ensures AllBlocked(SetStatus(tasks, hs[0].id, Ready), c, hs[1..]) <==> AllBlocked(tasks, c, hs)
  {
    var tasks', tail := SetStatus(tasks, hs[0].id, Ready), hs[1..];
    assert forall i :: 0 <= i < |tail| ==> tail[i] == hs[i + 1];
    assert forall id :: Here(tasks', id, c, Blocked) <==> Here(tasks, id, c, Blocked) && id != hs[0].id;
    if AllBlocked(tasks', c, tail) {
      forall i | 0 <= i < |hs| ensures Here(tasks, hs[i].id, c, Blocked) {
        if i > 0 { assert Here(tasks', tail[i - 1].id, c, Blocked); }
      }
      forall i, j | 0 <= i < j < |hs| ensures hs[i].id != hs[j].id {
        assert Here(tasks', tail[j - 1].id, c, Blocked);
        if i > 0 { assert tail[i - 1].id != tail[j - 1].id; }
      }
    }
  }

  lemma TakeWakeupPanicsIff(k: Kernel, c: nat)
    requires Sound(k) && Shape(k, c) && k.cores[c].wakeups != []
    ensures TakeWakeup(k, c).Next? <==> Here(k.tasks, k.cores[c].wakeups[0].id, c, Blocked)
    ensures TakeWakeup(k, c).Next? ==> TakeWakeup(k, c).k.tasks == SetStatus(k.tasks, k.cores[c].wakeups[0].id, Ready)
  {
    ShortenInbox(k, c);
    var core := k.cores[c];
    WakeLocalKeepsCores(SetCore(k, c, core.(wakeups := core.wakeups[1..])), c, core.wakeups[0].id);
  }

  lemma {:induction false} DrainWakeupsPanicsIff(k: Kernel, c: nat)
    requires Sound(k) && c < |k.cores|
    ensures DrainWakeups(k, c).Next? <==> AllBlocked(k.tasks, c, k.cores[c].wakeups)
    decreases |k.cores[c].wakeups|
  {
    if k.cores[c].wakeups != [] {
      ShapeHolds(k, c);
      TakeWakeupPanicsIff(k, c);
      if TakeWakeup(k, c).Next? {
        TakeWakeupSound(k, c);
        AllBlockedTail(k.tasks, c, k.cores[c].wakeups);
        DrainWakeupsPanicsIff(TakeWakeup(k, c).k, c);
      }
    }
  }

  lemma CheckInputPanicsIff(k: Kernel, c: nat)
    requires Base(k) && Shape(k, c)
    ensures CheckInput(k, c).Panic? <==> !AllBlocked(k.tasks, c, k.cores[c].wakeups)
  {
    DrainWakeupsPanicsIff(k, c);
    if DrainWakeups(k, c).Next? {
      DrainWakeupsSound(k, c);
      RegistryFrame(k, DrainWakeups(k, c).k);
      DrainNewTasksBase(DrainWakeups(k, c).k, c);
    }
  }

  // ---- Every step ----

  lemma WakePanicsIff(k: Kernel, c: nat, q: int)
    requires CoresOk(k) && Shape(k, c)
    ensures Wake(k, c, q).Panic? <==>
      OutOfBitmaps(k, q) || (QueueAt(k, q) != [] && Undeliverable(k, c, QueueAt(k, q)[Earliest(QueueAt(k, q))]))
  {
    var hs := QueueAt(k, q);
    if hs != [] {
      var i := Earliest(hs);
      var k1 := k.(parked := k.parked[q := RemoveAt(hs, i)]);
      assert CoresOk(k1);
      CustomWakeupPanicsIff(k1, c, hs[i]);
    }
  }

  function Joiners(k: Kernel, c: nat): seq<TaskHandle>
    requires Shape(k, c)
  {
    var id := k.cores[c].current;
    if id in k.waiting then k.waiting[id] else []
  }

  lemma ExitPanicsIff(k: Kernel, c: nat)
    requires Base(k) && Shape(k, c) && CurrentStatus(k, c) == Running
    ensures Exit(k, c).Panic? <==> !Deliverable(k, c, Joiners(k, c))
  {
    var id, hs := k.cores[c].current, Joiners(k, c);
    ExitingSound(k, c);
    var k1 := Exiting(k, id);
    WakeEachPanicsIff(k1, c, hs);
    assert forall x :: Here(k1.tasks, x, c, Blocked) <==> Here(k.tasks, x, c, Blocked);
    assert forall i :: 0 <= i < |hs| ==> (Undeliverable(k1, c, hs[i]) <==> Undeliverable(k, c, hs[i]));
  }

  /** What makes an enabled step fail, in terms a caller can look up before the call. */
  ghost predicate Fails(k: Kernel, s: Step)
    requires Enabled(k, s)
  {
    match s
    case DoPark(_, q) => OutOfBitmaps(k, q)
    case DoParkTimed(_, q, _) => OutOfBitmaps(k, q)
    case DoWake(c, q) =>
      OutOfBitmaps(k, q) || (QueueAt(k, q) != [] && Undeliverable(k, c, QueueAt(k, q)[Earliest(QueueAt(k, q))]))
    case DoCheckInput(c) => !AllBlocked(k.tasks, c, k.cores[c].wakeups)
    case DoExit(c) => !Deliverable(k, c, Joiners(k, c))
    case _ => false
  }

  /** From every well-formed state, timed waits or not, a step panics if and only if this says so. */
  lemma StepPanicsIff(k: Kernel, s: Step)
    requires Base(k) && Enabled(k, s)
    ensures Apply(k, s).Panic? <==> Fails(k, s)
  {
    match s
    case DoExit(c) => ExitPanicsIff(k, c);
    case DoJoin(c, id) => JoinBase(k, c, id);
    case DoPark(c, q) => if !OutOfBitmaps(k, q) { ParkBase(k, c, q, None); }
    case DoParkTimed(c, q, wt) => if !OutOfBitmaps(k, q) { ParkBase(k, c, q, Some(wt)); }
    case DoSleep(c, wt) => BlockBase(k, c, Some(wt));
    case DoWake(c, q) => WakePanicsIff(k, c, q);
    case DoCheckInput(c) => CheckInputPanicsIff(k, c);
    case DoTimerInterrupt(c, now) => TimerInterruptBase(k, c, now);
    case DoPollTimers(c, now) => HandleWaitingBase(k, c, now);
    case DoReschedule(c) => RescheduleBase(k, c);
    case _ =>
  }

  /** The same in every state of every run. */
  lemma RunPanicsIff(ks: seq<Kernel>, ss: seq<Step>, n: nat, s: Step)
    requires Run(ks, ss) && n < |ks| && Enabled(ks[n], s)
    ensures Apply(ks[n], s).Panic? <==> Fails(ks[n], s)
  {
    RunsAreWellFormed(ks, ss, n);
    StepPanicsIff(ks[n], s);
  }

  // ---- Two runs that fail ----

  lemma LastIsEarliest(hs: seq<TaskHandle>, h: TaskHandle)
    requires forall i :: 0 <= i < |hs| ==> hs[i].prio < h.prio
    ensures Earliest(hs + [h]) == |hs|
  {
    var all := hs + [h];
    assert all[|hs|] == h;
    assert forall i :: 0 <= i < |hs| ==> all[i] == hs[i];
  }

  /** What a timed wait in queue `q` leaves behind. */
  lemma AfterTimedPark(k: Kernel, c: nat, q: int, wt: Time) returns (k': Kernel)
    requires Base(k) && Enabled(k, DoParkTimed(c, q, wt)) && !OutOfBitmaps(k, q)
    ensures Follows(k, DoParkTimed(c, q, wt), k') && Base(k') && |k'.cores| == |k.cores| && q in k'.parked
    ensures QueueAt(k', q) == QueueAt(k, q) + [CurrentHandle(k, c)] && CurrentHandle(k, c).core == c
    ensures Sleeper(k.cores[c].current, Some(wt)) in k'.cores[c].blocked
    ensures k'.cores[c].wakeups == k.cores[c].wakeups
  {
    ParkBase(k, c, q, Some(wt));
    k' := Park(k, c, q, Some(wt)).k;
    assert CoreOk(k.tasks, k.cores[c], c);
    InsertMembers(k.cores[c].blocked, Sleeper(k.cores[c].current, Some(wt)));
  }

  /** Once its time is up the task is no longer blocked, but no queue and no input has changed. */
  lemma AfterExpiry(k: Kernel, c: nat, now: Time, s: Sleeper) returns (k': Kernel)
    requires Base(k) && c < |k.cores| && s in k.cores[c].blocked
    requires s.wakeup.Some? && s.wakeup.value < now
    ensures Follows(k, DoPollTimers(c, now), k') && Base(k') && |k'.cores| == |k.cores|
    ensures k'.parked == k.parked && k'.cores[c].wakeups == k.cores[c].wakeups
    ensures !Here(k'.tasks, s.task, c, Blocked)
  {
    ShapeHolds(k, c);
    HandleWaitingBase(k, c, now);
    HandleWaitingKeepsCores(k, c, now);
    k' := HandleWaiting(k, c, now).k;
    var l := k.cores[c].blocked;
    ExpiredMembers(l, now);
    var e := Expired(l, now);
    var i :| 0 <= i < |e| && e[i] == s;
    assert Ids(e)[i] == s.task;
  }

  /** The wake of another core takes the handle to the input of the task's core. */
  lemma AfterRemoteWake(k: Kernel, d: nat, q: int, h: TaskHandle) returns (k': Kernel)
    requires Base(k) && d < |k.cores| && QueueAt(k, q) == [h] && q in k.parked && h.core != d && h.core < |k.cores|
    ensures Follows(k, DoWake(d, q), k') && Base(k') && |k'.cores| == |k.cores|
    ensures k'.cores[h.core].blocked == k.cores[h.core].blocked && h in k'.cores[h.core].wakeups
  {
    ShapeHolds(k, d);
    WakePanicsIff(k, d, q);
    WakeBase(k, d, q);
    k' := Wake(k, d, q).k;
  }

  lemma StaleWakePanics(k: Kernel, c: nat, q: int)
    requires Base(k) && c < |k.cores| && QueueAt(k, q) != []
    requires Undeliverable(k, c, QueueAt(k, q)[Earliest(QueueAt(k, q))])
    ensures Enabled(k, DoWake(c, q)) && Apply(k, DoWake(c, q)).Panic?
  {
    ShapeHolds(k, c);
    WakePanicsIff(k, c, q);
  }

  lemma StaleInputPanics(k: Kernel, c: nat, h: TaskHandle)
    requires Base(k) && c < |k.cores| && h in k.cores[c].wakeups && !Here(k.tasks, h.id, c, Blocked)
    ensures Enabled(k, DoCheckInput(c)) && Apply(k, DoCheckInput(c)).Panic?
  {
    ShapeHolds(k, c);
    CheckInputPanicsIff(k, c);
    var i :| 0 <= i < |k.cores[c].wakeups| && k.cores[c].wakeups[i] == h;
  }

  /**
   * A timed wait that ran out leaves its handle behind. If it is the most urgent of its queue, the next wake
   * on its core panics.
   */
  lemma TimedWaitThenWakePanics(k: Kernel, c: nat, q: int, wt: Time, now: Time) returns (k1: Kernel, k2: Kernel)
    requires Base(k) && Enabled(k, DoParkTimed(c, q, wt)) && !OutOfBitmaps(k, q) && wt < now
    requires forall i :: 0 <= i < |QueueAt(k, q)| ==> QueueAt(k, q)[i].prio < CurrentHandle(k, c).prio
    ensures Follows(k, DoParkTimed(c, q, wt), k1) && Follows(k1, DoPollTimers(c, now), k2)
    ensures Enabled(k2, DoWake(c, q)) && Apply(k2, DoWake(c, q)).Panic?
  {
    k1 := AfterTimedPark(k, c, q, wt);
    k2 := AfterExpiry(k1, c, now, Sleeper(k.cores[c].current, Some(wt)));
    LastIsEarliest(QueueAt(k, q), CurrentHandle(k, c));
    StaleWakePanics(k2, c, q);
  }

  /**
   * A wake from another core in between does not panic. If the time is up before the task's core looks at
   * its input, that look panics.
   */
  lemma TimedWaitThenInputPanics(k: Kernel, c: nat, d: nat, q: int, wt: Time, now: Time)
    returns (k1: Kernel, k2: Kernel, k3: Kernel)
    requires Base(k) && Enabled(k, DoParkTimed(c, q, wt)) && !OutOfBitmaps(k, q) && wt < now
    requires QueueAt(k, q) == [] && d < |k.cores| && d != c
    ensures Follows(k, DoParkTimed(c, q, wt), k1) && Follows(k1, DoWake(d, q), k2)
    ensures Follows(k2, DoPollTimers(c, now), k3)
    ensures Enabled(k3, DoCheckInput(c)) && Apply(k3, DoCheckInput(c)).Panic?
  {
    k1 := AfterTimedPark(k, c, q, wt);
    var h := CurrentHandle(k, c);
    assert [] + [h] == [h];
    k2 := AfterRemoteWake(k1, d, q, h);
    k3 := AfterExpiry(k2, c, now, Sleeper(h.id, Some(wt)));
    StaleInputPanics(k3, c, h);
  }

  // ---- The end of a timed wait ----

  lemma {:induction false} WithoutMembers(a: seq<TaskHandle>, h: TaskHandle)
    ensures forall x :: x in Without(a, h) <==> x in a && !Same(x, h)
  {
    if a != [] {
      WithoutMembers(a[1..], h);
      assert a == [a[0]] + a[1..];
    }
  }

  /**
   * A waiter whose time is up takes its own handle out and no other, so that no later wake finds it. If it
   * was alone in its queue no wake of that queue panics any more.
   */
  lemma UnparkTakesOwnHandle(k: Kernel, c: nat, q: int, prio: Priority, d: nat)
    requires Base(k) && Enabled(k, DoUnpark(c, q, prio)) && q in k.parked && d < |k.cores|
    ensures Apply(k, DoUnpark(c, q, prio)).Next?
    ensures var k', mine := Apply(k, DoUnpark(c, q, prio)).k, CurrentHandle(k, c).(prio := prio);
      && (forall h :: h in QueueAt(k', q) <==> h in QueueAt(k, q) && !Same(h, mine))
      && (forall x :: x != q ==> QueueAt(k', x) == QueueAt(k, x))
      && (QueueAt(k, q) == [mine] ==> Enabled(k', DoWake(d, q)) && Apply(k', DoWake(d, q)).Next?)
  {
    var k', mine := Unpark(k, c, q, prio), CurrentHandle(k, c).(prio := prio);
    WithoutMembers(QueueAt(k, q), mine);
    ShapeHolds(k, d);
    if QueueAt(k, q) == [mine] {
      WithoutShrinks([mine], mine);
      assert Same([mine][0], mine);
    }
  }
}
