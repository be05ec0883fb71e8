/**
 * `BlockedTaskQueue`: the blocked tasks of one core, sorted by wake-up time with the untimed ones
 * last, and the scheduler slot of the timer list that has to go off for the first of them. Task control
 * blocks are entries of a table indexed by task id; a queue refers to a task by its id.
 */
module BlockedQueue {
  import opened Basics
  import opened PriorityLists
  import opened ReadyQueue
  import opened Timers

  datatype Status = Invalid | Ready | Running | Blocked | Finished | Idle

  datatype Task = Task(status: Status, prio: Priority, core: nat)

  type TaskMap = map<int, Task>

  datatype Sleeper = Sleeper(task: int, wakeup: Option<Time>)

  function HandleOf(id: int, t: Task): TaskHandle {
    TaskHandle(id, t.prio, t.core)
  }

  // ---- Specification ----

  predicate NotAfter(a: Option<Time>, b: Option<Time>) {
    b.None? || (a.Some? && a.value <= b.value)
  }

  /** Sorted by wake-up time; tasks without one are last. */
  ghost predicate Sorted(l: seq<Sleeper>) {
    forall i, j :: 0 <= i < j < |l| ==> NotAfter(l[i].wakeup, l[j].wakeup)
  }

  /** The scheduler slot is set for the first wake-up time or earlier. */
  ghost predicate SlotInTime(t: Slots, l: seq<Sleeper>) {
    forall i :: 0 <= i < |l| && l[i].wakeup.Some? ==> t.scheduler <= l[i].wakeup.value
  }

  /** The first position whose wake-up time is strictly later than `wt`. */
  function InsertPos(l: seq<Sleeper>, wt: Time): (p: nat)
    ensures p <= |l|
    ensures forall i :: 0 <= i < p ==> l[i].wakeup.Some? && l[i].wakeup.value <= wt
    ensures p < |l| ==> l[p].wakeup.None? || wt < l[p].wakeup.value
  {
    if l == [] || l[0].wakeup.None? || wt < l[0].wakeup.value then 0 else 1 + InsertPos(l[1..], wt)
  }

  function Insert(l: seq<Sleeper>, s: Sleeper): seq<Sleeper> {
    if s.wakeup.None? then l + [s]
    else
      var p := InsertPos(l, s.wakeup.value);
      l[..p] + [s] + l[p..]
  }

  function SetTimer(t: Slots, wakeup: Option<Time>): Slots {
    if wakeup.None? then t else Create(t, Scheduler, wakeup.value)
  }

  /** The position of task `id`, `|l|` if it is not blocked here. */
  function IndexOf(l: seq<Sleeper>, id: int): (i: nat)
    ensures i <= |l|
    ensures i < |l| ==> l[i].task == id
    ensures forall j :: 0 <= j < i ==> l[j].task != id
  {
    if l == [] || l[0].task == id then 0 else 1 + IndexOf(l[1..], id)
  }

  /** The timer after task `i` was taken out: re-set for its successor if it was the first. */
  function TimerAfterRemove(t: Slots, l: seq<Sleeper>, i: nat): Slots {
    if i == 0 && |l| > 1 then SetTimer(t, l[1].wakeup) else t
  }

  predicate Elapsed(s: Sleeper, now: Time) {
    s.wakeup.Some? && s.wakeup.value < now
  }

  function Expired(l: seq<Sleeper>, now: Time): seq<Sleeper> {
    if l == [] then [] else
      var n := |l| - 1;
      Expired(l[..n], now) + (if Elapsed(l[n], now) then [l[n]] else [])
  }

  function Remaining(l: seq<Sleeper>, now: Time): seq<Sleeper> {
    if l == [] then [] else
      var n := |l| - 1;
      Remaining(l[..n], now) + (if Elapsed(l[n], now) then [] else [l[n]])
  }

  /** Expiry takes the tasks whose wake-up time lies before `now`, all of them and no others. */
  lemma {:induction false} ExpiredMembers(l: seq<Sleeper>, now: Time)
    ensures forall s :: s in Expired(l, now) <==> s in l && s.wakeup.Some? && s.wakeup.value < now
    ensures forall s :: s in Remaining(l, now) <==> s in l && (s.wakeup.None? || s.wakeup.value >= now)
  {
    if l != [] {
      var n := |l| - 1;
      ExpiredMembers(l[..n], now);
      assert l == l[..n] + [l[n]];
    }
  }

  function TimerAfterExpiry(t: Slots, l: seq<Sleeper>): Slots {
    if l == [] then t else SetTimer(t, l[0].wakeup)
  }

  /** The two assertions of `mark_ready`: the task belongs to this core and waits or is ready. */
  predicate Wakeable(tasks: TaskMap, id: int, core: nat) {
    id in tasks && tasks[id].core == core && (tasks[id].status == Blocked || tasks[id].status == Ready)
  }

  /** `mark_ready` on a blocked or already readied task; the flag tells whether it is newly ready. */
  function MarkReady(tasks: TaskMap, id: int): (TaskMap, bool)
    requires id in tasks
  {
    if tasks[id].status == Blocked then (tasks[id := tasks[id].(status := Ready)], true) else (tasks, false)
  }

  /** Readies one task and queues it if it is newly ready. */
  function WakeOne(tasks: TaskMap, ready: seq<seq<TaskHandle>>, id: int): (r: (TaskMap, seq<seq<TaskHandle>>))
    requires |ready| == NO_PRIORITIES
    ensures |r.1| == NO_PRIORITIES
  {
    if id in tasks && MarkReady(tasks, id).1
    then (MarkReady(tasks, id).0, PushTo(ready, tasks[id].prio, HandleOf(id, tasks[id])))
    else (tasks, ready)
  }

  function WakeAll(tasks: TaskMap, ready: seq<seq<TaskHandle>>, ss: seq<Sleeper>): (TaskMap, seq<seq<TaskHandle>>)
    requires |ready| == NO_PRIORITIES
    decreases |ss|
  {
    if ss == [] then (tasks, ready)
    else
      var r := WakeOne(tasks, ready, ss[0].task);
      WakeAll(r.0, r.1, ss[1..])
  }

  // ---- The classes ----

  class TaskTable {
    var tasks: TaskMap

    constructor ()
      ensures tasks == map[]
    {
      tasks := map[];
    }

    method MarkReadyTask(id: int, ghost core: nat) returns (newly: bool)
      requires Wakeable(tasks, id, core)
      modifies this
      ensures (tasks, newly) == MarkReady(old(tasks), id)
    {
      if tasks[id].status == Ready { return false; }
      tasks := tasks[id := tasks[id].(status := Ready)];
      newly := true;
    }
  }

  class BlockedTaskQueue {
    var list: seq<Sleeper>
    const timers: TimerList

    constructor (timers: TimerList)
      ensures list == [] && this.timers == timers
    {
      list := [];
      this.timers := timers;
    }

    method Add(table: TaskTable, id: int, wakeup: Option<Time>)
      requires timers.Valid()
      requires id in table.tasks && table.tasks[id].status == Running
      modifies this, table, timers, timers.slots
      ensures timers.Valid()
      ensures table.tasks == old(table.tasks)[id := old(table.tasks[id]).(status := Blocked)]
      ensures list == Insert(old(list), Sleeper(id, wakeup))
      ensures timers.View() == SetTimer(old(timers.View()), wakeup)
    {
      table.tasks := table.tasks[id := table.tasks[id].(status := Blocked)];
      var node := Sleeper(id, wakeup);
      if wakeup.Some? {
        var wt := wakeup.value;
        var i := 0;
        while i < |list|
          invariant 0 <= i <= |list|
          invariant InsertPos(list, wt) == i + InsertPos(list[i..], wt)
          invariant list == old(list) && timers.Valid() && timers.View() == old(timers.View())
          invariant table.tasks == old(table.tasks)[id := old(table.tasks[id]).(status := Blocked)]
        {
          if list[i].wakeup.None? || wt < list[i].wakeup.value {
            list := list[..i] + [node] + list[i..];
            timers.CreateTimerAbs(Scheduler, wt);
            return;
          }
          assert list[i..][1..] == list[i + 1..];
          i := i + 1;
        }
        timers.CreateTimerAbs(Scheduler, wt);
        assert list[..|list|] == list && list[|list|..] == [];
      }
      list := list + [node];
    }

    /** Wakes a blocked task by hand; a task that is not in the list makes the original panic. */
    method CustomWakeup(table: TaskTable, id: int, ghost core: nat) returns (completed: bool)
      requires timers.Valid()
      requires IndexOf(list, id) < |list|
      requires Wakeable(table.tasks, id, core)
      modifies this, table, timers, timers.slots
      ensures timers.Valid()
      ensures (table.tasks, completed) == MarkReady(old(table.tasks), id)
      ensures list == RemoveAt(old(list), IndexOf(old(list), id))
      ensures timers.View() == TimerAfterRemove(old(timers.View()), old(list), IndexOf(old(list), id))
    {
      var first := true;
      var i := 0;
      while list[i].task != id
        invariant 0 <= i < |list|
        invariant first <==> i == 0
        invariant IndexOf(list, id) == i + IndexOf(list[i..], id)
        decreases |list| - i
      {
        assert list[i..][1..] == list[i + 1..];
        first := false;
        i := i + 1;
      }
      list := RemoveAt(list, i);
      if first && i < |list| && list[i].wakeup.Some? {
        timers.CreateTimerAbs(Scheduler, list[i].wakeup.value);
      }
      completed := table.MarkReadyTask(id, core);
    }

    static method WakeTask(table: TaskTable, ready: PriorityTaskQueue, id: int, ghost core: nat)
      requires ready.Valid() && Wakeable(table.tasks, id, core)
      modifies table, ready, ready.queues
      ensures ready.Valid()
      ensures (table.tasks, ready.queues[..]) == WakeOne(old(table.tasks), old(ready.queues[..]), id)
      ensures forall i :: old(Wakeable(table.tasks, i, core)) ==> Wakeable(table.tasks, i, core)
    {
      var task := HandleOf(id, table.tasks[id]);
      var newly := table.MarkReadyTask(id, core);
      if newly { ready.Push(task); }
    }

    /** Takes the elapsed tasks out of the list, in order. */
    method ExtractElapsed(now: Time) returns (elapsed: seq<Sleeper>)
      modifies this
      ensures elapsed == Expired(old(list), now) && list == Remaining(old(list), now)
    {
      elapsed := [];
      var kept := [];
      for i := 0 to |list|
        invariant list == old(list)
        invariant elapsed == Expired(list[..i], now) && kept == Remaining(list[..i], now)
      {
        assert list[..i + 1][..i] == list[..i];
        if Elapsed(list[i], now) {
          elapsed := elapsed + [list[i]];
        } else {
          kept := kept + [list[i]];
        }
      }
      assert list[..|list|] == list;
      list := kept;
    }

    static method WakeTasks(table: TaskTable, ready: PriorityTaskQueue, ss: seq<Sleeper>, ghost core: nat)
      requires ready.Valid()
      requires forall s :: s in ss ==> Wakeable(table.tasks, s.task, core)
      modifies table, ready, ready.queues
      ensures ready.Valid()
      ensures (table.tasks, ready.queues[..]) == WakeAll(old(table.tasks), old(ready.queues[..]), ss)
    {
      ghost var goal := WakeAll(table.tasks, ready.queues[..], ss);
      for i := 0 to |ss|
        invariant ready.Valid()
        invariant forall s :: s in ss ==> Wakeable(table.tasks, s.task, core)
        invariant goal == WakeAll(table.tasks, ready.queues[..], ss[i..])
      {
        assert ss[i] in ss;
        assert ss[i..][0] == ss[i] && ss[i..][1..] == ss[i + 1..];
        WakeTask(table, ready, ss[i].task, core);
      }
    }

    method HandleWaitingTasks(table: TaskTable, ready: PriorityTaskQueue, now: Time, ghost core: nat)
      requires timers.Valid() && ready.Valid()
      requires forall s :: s in Expired(list, now) ==> Wakeable(table.tasks, s.task, core)
      modifies this, table, timers, timers.slots, ready, ready.queues
      ensures timers.Valid() && ready.Valid()
      ensures list == Remaining(old(list), now)
      ensures forall s :: s in list <==> s in old(list) && (s.wakeup.None? || s.wakeup.value >= now)
      ensures (table.tasks, ready.queues[..]) == old(WakeAll(table.tasks, ready.queues[..], Expired(list, now)))
      ensures timers.View() == TimerAfterExpiry(old(timers.View()), Remaining(old(list), now))
    {
      ExpiredMembers(list, now);
      var newlyReady := ExtractElapsed(now);
      WakeTasks(table, ready, newlyReady, core);
      if list != [] && list[0].wakeup.Some? {
        timers.CreateTimerAbs(Scheduler, list[0].wakeup.value);
      }
    }
  }

  // ---- What the queue guarantees ----

  /** Where a task is put: behind all that wake no later, before all that wake later. */
  lemma InsertPlace(l: seq<Sleeper>, s: Sleeper) returns (p: nat)
    requires Sorted(l)
    ensures p <= |l| && Insert(l, s) == l[..p] + [s] + l[p..]
    ensures forall i :: 0 <= i < p ==> NotAfter(l[i].wakeup, s.wakeup)
    ensures forall i :: p <= i < |l| ==> !NotAfter(l[i].wakeup, s.wakeup)
  {
    if s.wakeup.None? {
      p := |l|;
      assert l[..p] + [s] + l[p..] == l + [s];
    } else {
      p := InsertPos(l, s.wakeup.value);
      forall i | p <= i < |l| ensures !NotAfter(l[i].wakeup, s.wakeup) {
        assert i == p || NotAfter(l[p].wakeup, l[i].wakeup);
      }
    }
  }

  lemma SortedInsert(l: seq<Sleeper>, s: Sleeper, p: nat)
    requires Sorted(l) && p <= |l|
    requires forall i :: 0 <= i < p ==> NotAfter(l[i].wakeup, s.wakeup)
    requires forall i :: p <= i < |l| ==> !NotAfter(l[i].wakeup, s.wakeup)
    ensures Sorted(l[..p] + [s] + l[p..])
  {
    var r := l[..p] + [s] + l[p..];
    forall i, j | 0 <= i < j < |r| ensures NotAfter(r[i].wakeup, r[j].wakeup) {
      assert r[i] == if i < p then l[i] else if i == p then s else l[i - 1];
      assert r[j] == if j < p then l[j] else if j == p then s else l[j - 1];
    }
  }

  /** Blocking keeps the order and sets the timer in time for the new task too. */
  lemma InsertKeepsOrder(l: seq<Sleeper>, s: Sleeper, t: Slots)
    requires Sorted(l) && SlotInTime(t, l)
    ensures Sorted(Insert(l, s)) && SlotInTime(SetTimer(t, s.wakeup), Insert(l, s))
  {
    var p := InsertPlace(l, s);
    SortedInsert(l, s, p);
    var r := l[..p] + [s] + l[p..];
    forall i | 0 <= i < |r| && r[i].wakeup.Some? ensures SetTimer(t, s.wakeup).scheduler <= r[i].wakeup.value {
      assert r[i] == if i < p then l[i] else if i == p then s else l[i - 1];
    }
  }

  /** Waking one task keeps the order of the others and a timer that is early enough for them. */
  lemma RemoveKeepsOrder(l: seq<Sleeper>, i: nat, t: Slots)
    requires Sorted(l) && SlotInTime(t, l) && i < |l|
    ensures Sorted(RemoveAt(l, i)) && SlotInTime(TimerAfterRemove(t, l, i), RemoveAt(l, i))
  {}

  /** In a sorted queue the elapsed tasks are a prefix. */
  lemma {:induction false} ElapsedIsPrefix(l: seq<Sleeper>, now: Time)
    requires Sorted(l)
    ensures l == Expired(l, now) + Remaining(l, now)
  {
    if l != [] {
      var m, x := l[..|l| - 1], l[|l| - 1];
      ElapsedIsPrefix(m, now);
      assert l == m + [x];
      if Elapsed(x, now) {
        AllElapsed(m, now);
        assert Expired(m, now) + [] == m;
      } else {
        assert Expired(l, now) == Expired(m, now);
        assert (Expired(m, now) + Remaining(m, now)) + [x] == Expired(m, now) + (Remaining(m, now) + [x]);
      }
    }
  }

  lemma {:induction false} AllElapsed(l: seq<Sleeper>, now: Time)
    requires forall i :: 0 <= i < |l| ==> Elapsed(l[i], now)
    ensures Remaining(l, now) == []
  {
    if l != [] { AllElapsed(l[..|l| - 1], now); }
  }

  lemma SortedSuffix(a: seq<Sleeper>, b: seq<Sleeper>)
    requires Sorted(a + b)
    ensures Sorted(b)
  {
    assert forall i :: 0 <= i < |b| ==> b[i] == (a + b)[|a| + i];
  }

  lemma TimerForFirst(l: seq<Sleeper>, t: Slots)
    requires Sorted(l)
    ensures SlotInTime(TimerAfterExpiry(t, l), l)
  {}

  /** Expiry removes exactly the elapsed tasks and sets the timer in time, whatever it was before. */
  lemma ExpiryRestoresTimer(l: seq<Sleeper>, now: Time, t: Slots)
    requires Sorted(l)
    ensures l == Expired(l, now) + Remaining(l, now)
    ensures Sorted(Remaining(l, now)) && SlotInTime(TimerAfterExpiry(t, Remaining(l, now)), Remaining(l, now))
  {
    ElapsedIsPrefix(l, now);
    SortedSuffix(Expired(l, now), Remaining(l, now));
    TimerForFirst(Remaining(l, now), t);
  }

  // ---- The timer is not set earlier than asked ----

  /** Blocking sets the scheduler slot to the minimum and leaves the network slot alone. */
  lemma SetTimerIsMinimum(t: Slots, wakeup: Option<Time>)
    ensures SetTimer(t, wakeup).network == t.network
    ensures SetTimer(t, wakeup).scheduler
         == if wakeup.Some? && wakeup.value < t.scheduler then wakeup.value else t.scheduler
  {}

  /** The slot is as before, or it is the wake-up time of a task in `l`. */
  ghost predicate AskedFor(t: Slots, t': Slots, l: seq<Sleeper>) {
    && t'.network == t.network
    && (t'.scheduler == t.scheduler || exists i :: 0 <= i < |l| && l[i].wakeup == Some(t'.scheduler))
  }

  /** Waking a task or expiry sets the slot, if at all, for a task that still sleeps. */
  lemma TimerNeverTooEarly(t: Slots, l: seq<Sleeper>, i: nat, now: Time)
    ensures i < |l| ==> AskedFor(t, TimerAfterRemove(t, l, i), RemoveAt(l, i))
    ensures AskedFor(t, TimerAfterExpiry(t, Remaining(l, now)), Remaining(l, now))
  {
    if i == 0 && |l| > 1 { assert RemoveAt(l, 0)[0] == l[1]; }
  }
}
