/**
 * Wake-ups arrive: the hardware timer is never later than a sleeper, expiry readies whoever is due,
 * a wake reaches its task, and a core that looks at its input leaves no wake-up in it.
 */
module KernelDelivery {
  import opened Basics
  import opened PriorityLists
  import opened BlockedQueue
  import opened KernelState
  import opened KernelInvariant
  import opened KernelLedger
  import opened KernelRegistry
  import opened KernelTimers
  import opened KernelSteps
  import opened KernelRuns
  import opened KernelProgress

  // ---- Timers ----

  /** In every run the hardware timer of a core goes off no later than any of its sleepers is due. */
  lemma TimerCoversSleepers(ks: seq<Kernel>, ss: seq<Step>, n: nat, c: nat, s: Sleeper)
    requires Run(ks, ss) && n < |ks| && c < |ks[n].cores|
    requires s in ks[n].cores[c].blocked && s.wakeup.Some?
    ensures ks[n].cores[c].timers.armed.Some? && ks[n].cores[c].timers.armed.value <= s.wakeup.value
  {
    RunsAreWellFormed(ks, ss, n);
    var core := ks[n].cores[c];
    assert TimerOk(core.timers, core.blocked);
    var i :| 0 <= i < |core.blocked| && core.blocked[i] == s;
    assert core.timers.scheduler <= core.blocked[i].wakeup.value < U64_MAX;
  }

  lemma ExpiryReadies(k: Kernel, c: nat, now: Time, s: Sleeper)
    requires CoresOk(k) && Shape(k, c) && Sorted(k.cores[c].blocked)
    requires s in k.cores[c].blocked && s.wakeup.Some? && s.wakeup.value < now
    ensures HandleWaiting(k, c, now).Next? && Here(HandleWaiting(k, c, now).k.tasks, s.task, c, Ready)
  {
    HandleWaitingKeepsCores(k, c, now);
    var l := k.cores[c].blocked;
    ExpiredMembers(l, now);
    var e := Expired(l, now);
    var i :| 0 <= i < |e| && e[i] == s;
    assert Ids(e)[i] == s.task;
    var j :| 0 <= j < |l| && l[j] == s;
    assert Ids(l)[j] == s.task;
    assert CoreOk(k.tasks, k.cores[c], c);
    assert Here(k.tasks, s.task, c, Blocked);
  }

  // ---- Wake-ups across cores ----

  lemma TakeWakeupReadies(k: Kernel, c: nat, h: TaskHandle)
    requires Sound(k) && Shape(k, c) && k.cores[c].wakeups != [] && TakeWakeup(k, c).Next?
    requires h == k.cores[c].wakeups[0] || Here(k.tasks, h.id, c, Ready)
    ensures Here(TakeWakeup(k, c).k.tasks, h.id, c, Ready)
  {
    ShortenInbox(k, c);
    var core := k.cores[c];
    WakeLocalKeepsCores(SetCore(k, c, core.(wakeups := core.wakeups[1..])), c, core.wakeups[0].id);
  }

  lemma {:induction false} DrainWakeupsReadies(k: Kernel, c: nat, h: TaskHandle)
    requires Sound(k) && c < |k.cores| && DrainWakeups(k, c).Next?
    requires h in k.cores[c].wakeups || Here(k.tasks, h.id, c, Ready)
    ensures c < |DrainWakeups(k, c).k.cores| && DrainWakeups(k, c).k.cores[c].wakeups == []
    ensures Here(DrainWakeups(k, c).k.tasks, h.id, c, Ready)
    decreases |k.cores[c].wakeups|
  {
    var ws := k.cores[c].wakeups;
    if ws != [] {
      assert ws == [ws[0]] + ws[1..];
      if h == ws[0] || Here(k.tasks, h.id, c, Ready) { TakeWakeupReadies(k, c, h); }
      TakeWakeupSound(k, c);
      DrainWakeupsReadies(TakeWakeup(k, c).k, c, h);
    }
  }

  lemma {:induction false} DrainNewTasksKeepsReady(k: Kernel, c: nat, id: int)
    requires Base(k) && c < |k.cores| && DrainNewTasks(k, c).Next? && Here(k.tasks, id, c, Ready)
    ensures c < |DrainNewTasks(k, c).k.cores| && DrainNewTasks(k, c).k.cores[c].wakeups == k.cores[c].wakeups
    ensures Here(DrainNewTasks(k, c).k.tasks, id, c, Ready)
    decreases |k.cores[c].newTasks|
  {
    if k.cores[c].newTasks != [] {
      TakeNewTaskBase(k, c);
      TakeNewTaskKeepsRegistry(k, c);
      DrainNewTasksKeepsReady(TakeNewTask(k, c), c, id);
    }
  }

  lemma CheckInputReadies(k: Kernel, c: nat, h: TaskHandle)
    requires Base(k) && Shape(k, c) && h in k.cores[c].wakeups && CheckInput(k, c).Next?
    ensures c < |CheckInput(k, c).k.cores| && CheckInput(k, c).k.cores[c].wakeups == []
    ensures Here(CheckInput(k, c).k.tasks, h.id, c, Ready)
  {
    DrainWakeupsReadies(k, c, h);
    DrainWakeupsSound(k, c);
    var k1 := DrainWakeups(k, c).k;
    RegistryFrame(k, k1);
    DrainNewTasksKeepsReady(k1, c, h.id);
  }

  /** A core that looks at its input readies every task whose handle is in it, and empties it. */
  lemma CheckInputDelivers(ks: seq<Kernel>, ss: seq<Step>, n: nat, c: nat, h: TaskHandle)
    requires Run(ks, ss) && n < |ss| && ss[n] == DoCheckInput(c) && c < |ks[n].cores|
    requires h in ks[n].cores[c].wakeups
    ensures c < |ks[n + 1].cores| && ks[n + 1].cores[c].wakeups == []
    ensures Here(ks[n + 1].tasks, h.id, c, Ready)
  {
    RunsAreWellFormed(ks, ss, n);
    assert Follows(ks[n], ss[n], ks[n + 1]);
    CheckInputReadies(ks[n], c, h);
  }

  /**
   * A wake takes the waiter that came first among the most urgent of the queue and no other, and readies it or
   * leaves its handle in the input of its core.
   */
  lemma WakeReachesMostUrgent(ks: seq<Kernel>, ss: seq<Step>, n: nat, c: nat, q: int)
    requires Run(ks, ss) && n < |ss| && ss[n] == DoWake(c, q) && QueueAt(ks[n], q) != []
    ensures exists i: nat ::
      && IsEarliest(QueueAt(ks[n], q), i)
      && ks[n + 1].parked == ks[n].parked[q := RemoveAt(QueueAt(ks[n], q), i)]
      && Delivered(ks[n + 1], c, QueueAt(ks[n], q)[i])
  {
    RunsAreWellFormed(ks, ss, n);
    assert Follows(ks[n], ss[n], ks[n + 1]);
    var k, hs := ks[n], QueueAt(ks[n], q);
    var i := Earliest(hs);
    var k1 := k.(parked := k.parked[q := RemoveAt(hs, i)]);
    QueuesBase(k, k1);
    WakeDelivers(k1, c, hs[i], hs[i]);
    assert IsEarliest(hs, i) && ks[n + 1].parked == k1.parked;
  }
}
