/**
 * `TaskNotify`: the executor's event, a futex word that is 0 or 2^32 - 1. It behaves as an event with one
 * token: a notification goes to a parked task if there is one, else it is kept for the next wait.
 */
module TaskNotify {
  import opened Basics
  import opened PriorityLists
  import opened Futex
  import opened FutexRuns

  datatype Event = Event(token: bool, parked: seq<TaskHandle>)

  function Notified(e: Event): Event {
    if e.parked == [] then e.(token := true) else e.(parked := RemoveAt(e.parked, Earliest(e.parked)))
  }

  /** A wait takes the token and returns, or parks. */
  function Waiting(e: Event, h: TaskHandle): Event {
    if e.token then e.(token := false) else e.(parked := e.parked + [h])
  }

  function View(mem: Memory, queues: Queues, a: int): Event {
    Event(Load(mem, a) != 0, QueueOf(queues, a))
  }

  /** The word is 0 or 2^32 - 1, and 0 while a task is parked. */
  predicate WordOk(mem: Memory, queues: Queues, a: int) {
    Load(mem, a) in {0, U32_MAX} && (QueueOf(queues, a) != [] ==> Load(mem, a) == 0)
  }

  class Notify {
    const lot: ParkingLot
    const futex: int

    constructor (lot: ParkingLot, futex: int)
      ensures this.lot == lot && this.futex == futex
    {
      this.lot, this.futex := lot, futex;
    }

    ghost predicate Valid()
      reads lot
    {
      WordOk(lot.mem, lot.queues, futex) && forall a :: a in lot.queues ==> lot.queues[a] != []
    }

    ghost function Value(): Event
      reads lot
    {
      View(lot.mem, lot.queues, futex)
    }

    /** The entry of `wait`; `parked` tells whether the task has to wait. */
    method Wait(h: TaskHandle) returns (parked: bool)
      requires Valid()
      modifies lot
      ensures Valid() && Value() == Waiting(old(Value()), h) && (parked <==> !old(Value()).token)
    {
      var r := lot.FutexWaitAndSet(futex, 0, h, 0);
      parked := r.Sleeps?;
    }

    method WakeByRef()
      requires Valid()
      modifies lot
      ensures Valid() && Value() == Notified(old(Value()))
      ensures lot.wakeups == old(lot.wakeups)
        + if old(Value()).parked == [] then [] else [old(Value()).parked[Earliest(old(Value()).parked)]]
    {
      ghost var q := QueueOf(lot.queues, futex);
      PopsOne(q);
      assert Limit(q, 1) == 1;
      var _ := lot.FutexWakeOrSet(futex, 1, U32_MAX);
    }
  }

  lemma PopsOne(q: seq<TaskHandle>)
    ensures Pops(q, 1) == if q == [] then ([], []) else ([q[Earliest(q)]], RemoveAt(q, Earliest(q)))
  {
    if q != [] {
      assert Pops(RemoveAt(q, Earliest(q)), 0) == ([], RemoveAt(q, Earliest(q)));
      assert [q[Earliest(q)]] + [] == [q[Earliest(q)]];
    }
  }

  // ---- Every interleaving ----

  /** Operations on other futexes are free; on `a` there are only the waits and wakes of the event. */
  predicate Private(op: Op, a: int) {
    || op.Resume?
    || op.a != a
    || (op.WaitAndSet? && op.expected == 0 && op.v == 0)
    || op == WakeOrSet(a, 1, U32_MAX)
  }

  predicate IsWait(op: Op, a: int) {
    op.WaitAndSet? && op.a == a
  }

  function EventOf(w: World, a: int): Event {
    View(w.mem, w.queues, a)
  }

  /** What each operation means for the event. A waiter whose time is up is no longer parked. */
  function EventStep(w: World, op: Op, a: int): Event
    requires Enabled(w, op)
  {
    var e := EventOf(w, a);
    match op
    case WaitAndSet(h, b, _, _, _) => if b == a then Waiting(e, h) else e
    case WakeOrSet(b, _, _) => if b == a then Notified(e) else e
    case Resume(id, now) =>
      var me := w.waiters[id];
      if me.addr == a && Due(me.wakeup, now) then e.(parked := Without(e.parked, me.handle)) else e
    case _ => e
  }

  lemma WakeRefines(w: World, a: int)
    requires Inv(w) && WordOk(w.mem, w.queues, a)
    ensures var w' := Step(w, WakeOrSet(a, 1, U32_MAX)).0;
      WordOk(w'.mem, w'.queues, a) && EventOf(w', a) == Notified(EventOf(w, a))
  {
    var q := QueueOf(w.queues, a);
    PopsOne(q);
    ReleaseQueues(w, a, 1);
    assert Limit(q, 1) == 1;
  }

  lemma OtherWake(w: World, b: int, count: int, a: int)
    requires Inv(w) && 0 <= count && b != a
    ensures QueueOf(Release(w, b, count).queues, a) == QueueOf(w.queues, a)
  {
    ReleaseQueues(w, b, count);
  }

  lemma ResumeRefines(w: World, id: int, now: Time, a: int)
    requires id in w.waiters && WordOk(w.mem, w.queues, a)
    ensures var w' := Rejoin(w, id, now).0;
      WordOk(w'.mem, w'.queues, a) && EventOf(w', a) == EventStep(w, Resume(id, now), a)
  {
    WithoutShrinks(QueueOf(w.queues, a), w.waiters[id].handle);
  }

  /** The futex word and its queue refine the event. */
  lemma NotifyRefines(w: World, op: Op, a: int)
    requires Inv(w) && WordOk(w.mem, w.queues, a) && Enabled(w, op) && Private(op, a)
    ensures var w' := Step(w, op).0;
      WordOk(w'.mem, w'.queues, a) && EventOf(w', a) == EventStep(w, op, a)
  {
    match op
    case WakeOrSet(b, count, _) =>
      if b == a { WakeRefines(w, a); } else if count >= 0 { OtherWake(w, b, count, a); }
    case Wake(b, count) => if count >= 0 { OtherWake(w, b, count, a); }
    case Resume(id, now) => ResumeRefines(w, id, now, a);
    case _ =>
  }

  lemma {:induction false} RunsRefineEvent(ws: seq<World>, ops: seq<Op>, n: nat, a: int)
    requires Run(ws, ops) && n < |ws| && forall i :: 0 <= i < n ==> Private(ops[i], a)
    ensures WordOk(ws[n].mem, ws[n].queues, a)
    ensures n > 0 ==> Enabled(ws[n - 1], ops[n - 1]) && EventOf(ws[n], a) == EventStep(ws[n - 1], ops[n - 1], a)
  {
    if n > 0 {
      RunsRefineEvent(ws, ops, n - 1, a);
      RunsKeepInv(ws, ops, n - 1);
      assert Follows(ws[n - 1], ops[n - 1], ws[n - 1 + 1]);
      assert Private(ops[n - 1], a);
      NotifyRefines(ws[n - 1], ops[n - 1], a);
    }
  }

  /** A kept notification stays until the next wait. */
  lemma {:induction false} TokenStays(ws: seq<World>, ops: seq<Op>, m: nat, n: nat, a: int)
    requires Run(ws, ops) && m <= n < |ws| && forall i :: 0 <= i < n ==> Private(ops[i], a)
    requires EventOf(ws[m], a).token && forall i :: m <= i < n ==> !IsWait(ops[i], a)
    ensures EventOf(ws[n], a).token
    decreases n
  {
    if m < n {
      TokenStays(ws, ops, m, n - 1, a);
      RunsRefineEvent(ws, ops, n, a);
      assert !IsWait(ops[n - 1], a);
    }
  }

  /** A wait that finds the token returns at once and takes it. */
  lemma WaitTakesToken(w: World, op: Op, a: int)
    requires Enabled(w, op) && Private(op, a) && IsWait(op, a) && EventOf(w, a).token
    ensures Step(w, op).1 == Returns(-EAGAIN) && !EventOf(Step(w, op).0, a).token
  {}

  /**
   * No notification is lost: it is passed to the most urgent parked task, which from then on is woken,
   * or it makes the next wait return at once, whatever happens in between.
   */
  lemma NotificationIsNeverLost(ws: seq<World>, ops: seq<Op>, n: nat, m: nat, a: int)
    requires Run(ws, ops) && n < m < |ops| && forall i :: 0 <= i < |ops| ==> Private(ops[i], a)
    requires ops[n] == WakeOrSet(a, 1, U32_MAX)
    requires IsWait(ops[m], a) && forall i :: n < i < m ==> !IsWait(ops[i], a)
    ensures var q := QueueOf(ws[n].queues, a);
      if q != [] then q[Earliest(q)].id in Woken(ws[n + 1])
      else Enabled(ws[m], ops[m]) && Step(ws[m], ops[m]).1 == Returns(-EAGAIN)
  {
    var q := QueueOf(ws[n].queues, a);
    RunsRefineEvent(ws, ops, n + 1, a);
    assert Follows(ws[m], ops[m], ws[m + 1]);
    if q == [] {
      TokenStays(ws, ops, n + 1, m, a);
      WaitTakesToken(ws[m], ops[m], a);
    } else {
      WakeReaches(ws, ops, n, a);
    }
  }

  lemma WakeReaches(ws: seq<World>, ops: seq<Op>, n: nat, a: int)
    requires Run(ws, ops) && n < |ops| && ops[n] == WakeOrSet(a, 1, U32_MAX) && QueueOf(ws[n].queues, a) != []
    ensures var q := QueueOf(ws[n].queues, a); q[Earliest(q)].id in Woken(ws[n + 1])
  {
    RunsKeepInv(ws, ops, n);
    assert Follows(ws[n], ops[n], ws[n + 1]);
    var w, q := ws[n], QueueOf(ws[n].queues, a);
    var h := q[Earliest(q)];
    PopsOne(q);
    assert Limit(q, 1) == 1;
    assert h in q && h in Taken(w, a, 1);
    ReleaseParks(w, a, 1, h.id);
  }
}
