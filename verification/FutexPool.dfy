/**
 * The parking lot on the real wait queues: lists with a bitmap from the shared pool. A queue is created when
 * a task parks at a vacant address and dropped when it is empty, but its bitmap number is never given back.
 */
module FutexPool {
  import opened Basics
  import opened PriorityLists
  import opened Futex
  import HQ = HandleQueue
  import R = FutexRuns

  datatype Lot = Lot(pool: HQ.Pool, mem: Memory, queues: map<int, HQ.Queue>, waiters: map<int, R.Waiter>)

  /** `wakeups` are the handles passed to the scheduler. */
  datatype Outcome = Panic | Ok(lot: Lot, answer: Answer, wakeups: seq<TaskHandle>)

  function QueueFor(l: Lot, a: int): HQ.Queue {
    if a in l.queues then l.queues[a] else HQ.EmptyQueue
  }

  predicate Shaped(l: Lot) {
    |l.pool.slots| == HQ.MAX_BITMAP_POOL && forall a :: a in l.queues ==> HQ.WellFormed(l.pool, l.queues[a])
  }

  /** The number of handles in the first `n` lists. */
  function Size(lists: seq<Option<seq<TaskHandle>>>, n: nat): nat
    requires n <= |lists|
  {
    if n == 0 then 0 else Size(lists, n - 1) + |HQ.ListOf(lists[n - 1])|
  }

  /** Parks `h` at `a`, in a new queue if there is none. */
  function Enter(l: Lot, h: TaskHandle, a: int, expected: Word, wakeup: Option<Time>): Outcome
    requires Shaped(l)
  {
    var o := HQ.PushStep(l.pool, QueueFor(l, a), h);
    if o.Panic? then Panic
    else
      Ok(l.(pool := o.pool, queues := l.queues[a := o.queue],
            waiters := l.waiters[h.id := R.Waiter(h, a, expected, wakeup)]), Sleeps, [])
  }

  /** Stores the queue of `a` back, or drops it if `is_empty` says so. */
  function Settle(l: Lot, a: int, p: HQ.Pool, q: HQ.Queue): Option<Lot>
    requires HQ.WellFormed(p, q)
  {
    var e := HQ.IsEmptyStep(p, q);
    if e.Panic? then None
    else if e.answer == HQ.Flag(true) then Some(l.(pool := e.pool, queues := l.queues - {a}))
    else Some(l.(pool := e.pool, queues := l.queues[a := e.queue]))
  }

  function Leave(l: Lot, id: int, r: Answer): Outcome {
    Ok(if r.Sleeps? then l else l.(waiters := l.waiters - {id}), r, [])
  }

  /** One round of a waiter's loop. */
  function Rejoin(l: Lot, id: int, now: Time): Outcome
    requires Shaped(l) && id in l.waiters
  {
    var me := l.waiters[id];
    if me.addr !in l.queues then Leave(l, id, Returns(0))
    else if Due(me.wakeup, now) then
      var o := HQ.RemoveStep(l.pool, l.queues[me.addr], me.handle);
      if o.Panic? || !HQ.WellFormed(o.pool, o.queue) then Panic
      else
        var l' := Settle(l, me.addr, o.pool, o.queue);
        if l'.None? then Panic
        else Leave(l'.value, id, if o.answer == HQ.Flag(true) then Returns(-ETIMEDOUT) else Returns(0))
    else
      var o := HQ.ContainsStep(l.pool, l.queues[me.addr], me.handle);
      Leave(l, id, if o.Ok? && o.answer == HQ.Flag(true) then Sleeps else Returns(0))
  }

  datatype Popped = Failed | Done(pool: HQ.Pool, queue: HQ.Queue, taken: seq<TaskHandle>)

  /** Pops until `n` handles are taken or none is left. */
  function PopLoop(p: HQ.Pool, q: HQ.Queue, n: nat): Popped
    decreases n
  {
    if n == 0 then Done(p, q, [])
    else if !HQ.WellFormed(p, q) then Failed
    else
      var o := HQ.PopStep(p, q);
      if o.Panic? || !o.answer.Handle? then Failed
      else if o.answer.task.None? then Done(o.pool, o.queue, [])
      else
        var r := PopLoop(o.pool, o.queue, n - 1);
        if r.Failed? then Failed else Done(r.pool, r.queue, [o.answer.task.value] + r.taken)
  }

  /** How often the wake loop may pop: without a limit it ends with the pop that finds nothing. */
  function Rounds(q: HQ.Queue, count: int): nat
    requires 0 <= count
  {
    if count == I32_MAX then Size(q.lists, |q.lists|) + 1 else count
  }

  function WakeAt(l: Lot, a: int, count: int): Outcome
    requires Shaped(l) && 0 <= count
  {
    if a !in l.queues then Ok(l, Returns(0), [])
    else
      var r := PopLoop(l.pool, l.queues[a], Rounds(l.queues[a], count));
      if r.Failed? || !HQ.WellFormed(r.pool, r.queue) then Panic
      else
        var l' := Settle(l, a, r.pool, r.queue);
        if l'.None? then Panic else Ok(l'.value, Returns(Saturate(|r.taken|)), r.taken)
  }

  /** As in the arrival-ordered model: a task is in one wait at a time. */
  predicate Enabled(l: Lot, op: R.Op) {
    && Shaped(l)
    && match op
       case Wait(h, _, _, _) => h.id !in l.waiters
       case WaitAndSet(h, _, _, _, _) => h.id !in l.waiters
       case Resume(id, _) => id in l.waiters
       case Wake(_, count) => count <= I32_MAX
       case WakeOrSet(_, count, _) => count <= I32_MAX
       case _ => true
  }

  function Step(l: Lot, op: R.Op): Outcome
    requires Enabled(l, op)
  {
    match op
    case Store(a, v) => Ok(l.(mem := l.mem[a := v]), Returns(0), [])
    case Wait(h, a, expected, wakeup) =>
      if Load(l.mem, a) != expected then Ok(l, Returns(-EAGAIN), []) else Enter(l, h, a, expected, wakeup)
    case WaitAndSet(h, a, expected, wakeup, v) =>
      var l1 := l.(mem := l.mem[a := v]);
      if Load(l.mem, a) != expected then Ok(l1, Returns(-EAGAIN), []) else Enter(l1, h, a, expected, wakeup)
    case Resume(id, now) => Rejoin(l, id, now)
    case Wake(a, count) => if count < 0 then Ok(l, Returns(-EINVAL), []) else WakeAt(l, a, count)
    case WakeOrSet(a, count, v) =>
      if count < 0 then Ok(l, Returns(-EINVAL), [])
      else
        var o := WakeAt(l, a, count);
        if o.Ok? && o.wakeups == [] then o.(lot := o.lot.(mem := o.lot.mem[a := v])) else o
  }

  // ---- The queues of all addresses ----

  /** The queues, each with its own number, hold what the arrival-ordered ones hold. */
  ghost predicate Sims(p: HQ.Pool, qs: map<int, HQ.Queue>, refs: Queues) {
    && HQ.PoolOk(p)
    && qs.Keys == refs.Keys
    && (forall a :: a in qs ==> qs[a].id != 0 && HQ.QueueSim(p, qs[a], refs[a]))
    && forall a, b :: a in qs && b in qs && a != b ==> qs[a].id != qs[b].id
  }

  /** An operation on the queue of `a`, new or old, leaves the others alone. */
  lemma UpdateSims(p: HQ.Pool, qs: map<int, HQ.Queue>, refs: Queues, a: int, q: HQ.Queue,
                   p': HQ.Pool, q': HQ.Queue, r': seq<TaskHandle>)
    requires Sims(p, qs, refs) && q == (if a in qs then qs[a] else HQ.EmptyQueue)
    requires HQ.Private(p, q, p', q') && HQ.PoolOk(p') && HQ.QueueSim(p', q', r') && q'.id != 0
    ensures Sims(p', qs[a := q'], refs[a := r'])
  {
    forall b | b in qs && b != a ensures HQ.QueueSim(p', qs[b], refs[b]) && qs[b].id != q'.id {
      var id := qs[b].id;
      assert id != q.id;
      assert p'.slots[id] == p.slots[id];
    }
  }

  lemma DropSims(p: HQ.Pool, qs: map<int, HQ.Queue>, refs: Queues, a: int)
    requires Sims(p, qs, refs)
    ensures Sims(p, qs - {a}, refs - {a})
  {}

  // ---- One operation ----

  ghost predicate LotSim(l: Lot, w: R.World) {
    l.mem == w.mem && l.waiters == w.waiters && Sims(l.pool, l.queues, w.queues)
  }

  /** The operation parks a task at an address where nobody is parked. */
  predicate Creates(w: R.World, op: R.Op) {
    (op.Wait? || op.WaitAndSet?) && Load(w.mem, op.a) == op.expected && op.a !in w.queues
  }

  lemma EmptyQueueSim(p: HQ.Pool)
    requires HQ.PoolOk(p)
    ensures HQ.QueueSim(p, HQ.EmptyQueue, [])
  {
    forall i | 0 <= i < NO_PRIORITIES ensures OfPrio([], i) == [] {}
  }

  lemma EnterSim(l: Lot, w: R.World, h: TaskHandle, a: int, expected: Word, wakeup: Option<Time>)
    requires LotSim(l, w)
    ensures var o := Enter(l, h, a, expected, wakeup);
      && (o.Panic? <==> a !in w.queues && l.pool.next == HQ.MAX_BITMAP_POOL)
      && (o.Ok? ==> LotSim(o.lot, R.Enter(w, h, a, expected, wakeup)))
      && (o.Ok? ==> o.lot.pool.next == l.pool.next + if a in w.queues then 0 else 1)
  {
    EmptyQueueSim(l.pool);
    var q, r := QueueFor(l, a), QueueOf(w.queues, a);
    HQ.StepQueueSim(l.pool, q, r, HQ.OpPush(0, h));
    var o := HQ.PushStep(l.pool, q, h);
    if o.Ok? { UpdateSims(l.pool, l.queues, w.queues, a, q, o.pool, o.queue, r + [h]); }
  }

  /** `is_empty` on a queue that has its number tells the truth and changes nothing. */
  lemma IsEmptySim(p: HQ.Pool, q: HQ.Queue, r: seq<TaskHandle>)
    requires HQ.PoolOk(p) && HQ.QueueSim(p, q, r) && q.id != 0
    ensures HQ.IsEmptyStep(p, q) == HQ.Ok(p, q, HQ.Flag(r == []))
  {
    HQ.StepQueueSim(p, q, r, HQ.OpIsEmpty(0));
  }

  lemma SettleSim(l: Lot, a: int, p: HQ.Pool, q: HQ.Queue, refs: Queues, r: seq<TaskHandle>)
    requires Sims(p, l.queues[a := q], refs[a := r])
    ensures HQ.WellFormed(p, q) && Settle(l, a, p, q).Some?
    ensures var l' := Settle(l, a, p, q).value;
      && l' == l.(pool := p, queues := l'.queues) && Sims(p, l'.queues, SetQueue(refs, a, r))
  {
    assert l.queues[a := q][a] == q && refs[a := r][a] == r;
    IsEmptySim(p, q, r);
    if r == [] {
      DropSims(p, l.queues[a := q], refs[a := r], a);
      assert l.queues[a := q] - {a} == l.queues - {a} && refs[a := r] - {a} == refs - {a};
    }
  }

  lemma RemoveSim(p: HQ.Pool, qs: map<int, HQ.Queue>, refs: Queues, a: int, h: TaskHandle)
    requires Sims(p, qs, refs) && a in qs
    ensures var o := HQ.RemoveStep(p, qs[a], h);
      && o.Ok? && o.answer == HQ.Flag(Queued(refs[a], h)) && o.pool.next == p.next
      && Sims(o.pool, qs[a := o.queue], refs[a := Without(refs[a], h)])
  {
    HQ.StepQueueSim(p, qs[a], refs[a], HQ.OpRemove(0, h));
    var o := HQ.RemoveStep(p, qs[a], h);
    UpdateSims(p, qs, refs, a, qs[a], o.pool, o.queue, Without(refs[a], h));
  }

  lemma RejoinSim(l: Lot, w: R.World, id: int, now: Time)
    requires LotSim(l, w) && id in w.waiters
    ensures var o, s := Rejoin(l, id, now), R.Rejoin(w, id, now);
      o.Ok? && LotSim(o.lot, s.0) && o.answer == s.1 && o.wakeups == [] && o.lot.pool.next == l.pool.next
  {
    var me := w.waiters[id];
    if me.addr in w.queues {
      if Due(me.wakeup, now) {
        RemoveSim(l.pool, l.queues, w.queues, me.addr, me.handle);
        var o := HQ.RemoveStep(l.pool, l.queues[me.addr], me.handle);
        SettleSim(l, me.addr, o.pool, o.queue, w.queues, Without(w.queues[me.addr], me.handle));
      } else {
        HQ.StepQueueSim(l.pool, l.queues[me.addr], w.queues[me.addr], HQ.OpContains(0, me.handle));
      }
    }
  }

  lemma PopSims(p: HQ.Pool, qs: map<int, HQ.Queue>, refs: Queues, a: int, k: nat) returns (o: HQ.Outcome)
    requires Sims(p, qs, refs) && a in qs && refs[a] != [] && k == Earliest(refs[a])
    ensures o == HQ.PopStep(p, qs[a]) && o.Ok? && o.pool.next == p.next && o.answer == HQ.Handle(Some(refs[a][k]))
    ensures Sims(o.pool, qs[a := o.queue], refs[a := RemoveAt(refs[a], k)])
  {
    HQ.StepQueueSim(p, qs[a], refs[a], HQ.OpPop(0));
    o := HQ.PopStep(p, qs[a]);
    UpdateSims(p, qs, refs, a, qs[a], o.pool, o.queue, RemoveAt(refs[a], k));
  }

  lemma EmptyPopSims(p: HQ.Pool, qs: map<int, HQ.Queue>, refs: Queues, a: int)
    requires Sims(p, qs, refs) && a in qs && refs[a] == []
    ensures var o := HQ.PopStep(p, qs[a]);
      o.Ok? && o.pool.next == p.next && o.answer == HQ.Handle(None) && Sims(o.pool, qs[a := o.queue], refs[a := []])
  {
    HQ.StepQueueSim(p, qs[a], refs[a], HQ.OpPop(0));
    var o := HQ.PopStep(p, qs[a]);
    UpdateSims(p, qs, refs, a, qs[a], o.pool, o.queue, []);
  }

  /** The loop on the queue of `a` takes and leaves what `Pops` says. */
  ghost predicate LoopSim(p: HQ.Pool, qs: map<int, HQ.Queue>, refs: Queues, a: int, n: nat)
    requires a in qs && a in refs
  {
    var d, t := PopLoop(p, qs[a], n), Pops(refs[a], n);
    && d.Done? && d.taken == t.0 && d.pool.next == p.next
    && Sims(d.pool, qs[a := d.queue], refs[a := t.1])
  }

  lemma PopLoopNext(p: HQ.Pool, qs: map<int, HQ.Queue>, refs: Queues, a: int, n: nat, k: nat, o: HQ.Outcome)
    requires Sims(p, qs, refs) && a in qs && n > 0 && refs[a] != [] && k == Earliest(refs[a])
    requires o == HQ.PopStep(p, qs[a]) && o.Ok? && o.answer == HQ.Handle(Some(refs[a][k])) && o.pool.next == p.next
    requires LoopSim(o.pool, qs[a := o.queue], refs[a := RemoveAt(refs[a], k)], a, n - 1)
    ensures LoopSim(p, qs, refs, a, n)
  {
    PopsNext(refs[a], n, k);
    var rest := RemoveAt(refs[a], k);
    var d := PopLoop(o.pool, o.queue, n - 1);
    assert qs[a := o.queue][a] == o.queue && refs[a := rest][a] == rest;
    assert qs[a := o.queue][a := d.queue] == qs[a := d.queue];
    assert refs[a := rest][a := Pops(rest, n - 1).1] == refs[a := Pops(rest, n - 1).1];
  }

  lemma NoMorePops(p: HQ.Pool, qs: map<int, HQ.Queue>, refs: Queues, a: int, n: nat)
    requires Sims(p, qs, refs) && a in qs && (n == 0 || refs[a] == [])
    ensures LoopSim(p, qs, refs, a, n)
  {
    if n == 0 {
      assert qs[a := qs[a]] == qs && refs[a := refs[a]] == refs;
    } else {
      EmptyPopSims(p, qs, refs, a);
    }
  }

  lemma {:induction false} PopLoopSim(p: HQ.Pool, qs: map<int, HQ.Queue>, refs: Queues, a: int, n: nat)
    requires Sims(p, qs, refs) && a in qs
    ensures LoopSim(p, qs, refs, a, n)
    decreases n
  {
    if n == 0 || refs[a] == [] {
      NoMorePops(p, qs, refs, a, n);
    } else {
      var k := Earliest(refs[a]);
      var o := PopSims(p, qs, refs, a, k);
      PopLoopSim(o.pool, qs[a := o.queue], refs[a := RemoveAt(refs[a], k)], a, n - 1);
      PopLoopNext(p, qs, refs, a, n, k, o);
    }
  }

  // ---- The size of a queue ----

  /** The entries of a priority below `n`. */
  function Below(r: seq<TaskHandle>, n: nat): nat {
    if r == [] then 0 else (if r[0].prio < n then 1 else 0) + Below(r[1..], n)
  }

  lemma {:induction false} BelowNext(r: seq<TaskHandle>, n: nat)
    ensures Below(r, n + 1) == Below(r, n) + |OfPrio(r, n)|
  {
    if r != [] { BelowNext(r[1..], n); }
  }

  lemma {:induction false} BelowNone(r: seq<TaskHandle>)
    ensures Below(r, 0) == 0
  {
    if r != [] { BelowNone(r[1..]); }
  }

  lemma {:induction false} BelowAll(r: seq<TaskHandle>)
    ensures Below(r, NO_PRIORITIES) == |r|
  {
    if r != [] { BelowAll(r[1..]); }
  }

  lemma {:induction false} SizeIsBelow(lists: seq<Option<seq<TaskHandle>>>, r: seq<TaskHandle>, n: nat)
    requires Sim(HQ.Flat(lists), r) && n <= |lists|
    ensures Size(lists, n) == Below(r, n)
  {
    if n == 0 {
      BelowNone(r);
    } else {
      SizeIsBelow(lists, r, n - 1);
      BelowNext(r, n - 1);
      assert HQ.Flat(lists)[n - 1] == OfPrio(r, n - 1);
    }
  }

  lemma {:induction false} PopsAll(r: seq<TaskHandle>, n: nat)
    requires n >= |r|
    ensures Pops(r, n) == Pops(r, |r|)
    decreases |r|
  {
    if r != [] {
      var k := Earliest(r);
      PopsAll(RemoveAt(r, k), n - 1);
      PopsNext(r, n, k);
      PopsNext(r, |r|, k);
    }
  }

  /** The rounds of the wake loop are enough, and exactly as many as a limit allows. */
  lemma RoundsTake(q: HQ.Queue, r: seq<TaskHandle>, count: int)
    requires |q.lists| == NO_PRIORITIES && Sim(HQ.Flat(q.lists), r) && 0 <= count
    ensures Pops(r, Rounds(q, count)) == Pops(r, Limit(r, count))
  {
    if count == I32_MAX {
      SizeIsBelow(q.lists, r, NO_PRIORITIES);
      BelowAll(r);
      PopsAll(r, |r| + 1);
    }
  }

  lemma WakeSim(l: Lot, w: R.World, a: int, count: int)
    requires LotSim(l, w) && 0 <= count
    ensures var o := WakeAt(l, a, count);
      && o.Ok? && LotSim(o.lot, R.Release(w, a, count)) && o.wakeups == R.Taken(w, a, count)
      && o.answer == Returns(Saturate(|R.Taken(w, a, count)|)) && o.lot.pool.next == l.pool.next
  {
    if a in w.queues {
      var q, r := l.queues[a], w.queues[a];
      RoundsTake(q, r, count);
      PopLoopSim(l.pool, l.queues, w.queues, a, Rounds(q, count));
      var d := PopLoop(l.pool, q, Rounds(q, count));
      SettleSim(l, a, d.pool, d.queue, w.queues, Pops(r, Limit(r, count)).1);
    } else {
      assert Pops([], Limit([], count)) == ([], []);
    }
  }

  /**
   * One operation on the real queues answers and wakes like the arrival-ordered model, and panics exactly if
   * it needs a new queue and all bitmap numbers are used.
   */
  lemma StepSim(l: Lot, w: R.World, op: R.Op)
    requires LotSim(l, w) && R.Enabled(w, op)
    ensures Enabled(l, op)
    ensures Step(l, op).Panic? <==> Creates(w, op) && l.pool.next == HQ.MAX_BITMAP_POOL
    ensures Step(l, op).Ok? ==> LotSim(Step(l, op).lot, R.Step(w, op).0) && Step(l, op).answer == R.Step(w, op).1
    ensures Step(l, op).Ok? ==> Step(l, op).lot.pool.next == l.pool.next + if Creates(w, op) then 1 else 0
  {
    match op
    case Store(a, v) =>
    case Wait(h, a, expected, wakeup) => EnterSim(l, w, h, a, expected, wakeup);
    case WaitAndSet(h, a, expected, wakeup, v) =>
      EnterSim(l.(mem := l.mem[a := v]), w.(mem := w.mem[a := v]), h, a, expected, wakeup);
    case Resume(id, now) => RejoinSim(l, w, id, now);
    case Wake(a, count) => if count >= 0 { WakeSim(l, w, a, count); }
    case WakeOrSet(a, count, v) => if count >= 0 { WakeSim(l, w, a, count); }
  }

  // ---- Every run ----

  predicate AllEnabled(w: R.World, ops: seq<R.Op>)
    decreases |ops|
  {
    ops == [] || (R.Enabled(w, ops[0]) && AllEnabled(R.Step(w, ops[0]).0, ops[1..]))
  }

  /** The answers of the arrival-ordered model. */
  function Answers(w: R.World, ops: seq<R.Op>): seq<Answer>
    requires AllEnabled(w, ops)
    decreases |ops|
  {
    if ops == [] then [] else [R.Step(w, ops[0]).1] + Answers(R.Step(w, ops[0]).0, ops[1..])
  }

  /** How many queues the run creates. */
  function Creations(w: R.World, ops: seq<R.Op>): nat
    requires AllEnabled(w, ops)
    decreases |ops|
  {
    if ops == [] then 0 else (if Creates(w, ops[0]) then 1 else 0) + Creations(R.Step(w, ops[0]).0, ops[1..])
  }

  /** The answers on the real queues, `None` if some operation panics. */
  function RunLot(l: Lot, ops: seq<R.Op>): Option<seq<Answer>>
    decreases |ops|
  {
    if ops == [] then Some([])
    else if !Enabled(l, ops[0]) then None
    else
      var o := Step(l, ops[0]);
      if o.Panic? then None
      else
        var rest := RunLot(o.lot, ops[1..]);
        if rest.None? then None else Some([o.answer] + rest.value)
  }

  /**
   * Every run on the real queues gives the answers of the arrival-ordered model, and panics if and only if
   * the numbers handed out before and the queues it creates exceed the pool.
   */
  lemma {:induction false} RunsOnPool(l: Lot, w: R.World, ops: seq<R.Op>)
    requires LotSim(l, w) && AllEnabled(w, ops)
    ensures RunLot(l, ops) ==
      if l.pool.next + Creations(w, ops) <= HQ.MAX_BITMAP_POOL then Some(Answers(w, ops)) else None
    decreases |ops|
  {
    if ops != [] {
      StepSim(l, w, ops[0]);
      if Step(l, ops[0]).Ok? { RunsOnPool(Step(l, ops[0]).lot, R.Step(w, ops[0]).0, ops[1..]); }
    }
  }

  /** The parking lot at boot, with `n` bitmap numbers handed out to other queues. */
  function BootLot(n: nat): Lot {
    Lot(HQ.Pool(seq(HQ.MAX_BITMAP_POOL, _ => 0), n), map[], map[], map[])
  }

  /** From boot with number 0 taken. */
  lemma BootRunsOnPool(n: nat, ops: seq<R.Op>)
    requires 1 <= n <= HQ.MAX_BITMAP_POOL && AllEnabled(R.Start, ops)
    ensures RunLot(BootLot(n), ops) ==
      if n + Creations(R.Start, ops) <= HQ.MAX_BITMAP_POOL then Some(Answers(R.Start, ops)) else None
  {
    RunsOnPool(BootLot(n), R.Start, ops);
  }

  /**
   * Number 0 is unusable: with no number handed out before, the first waiter's handle is lost. The wake finds
   * nobody and drops the queue, while the waiter sleeps on.
   */
  lemma FirstWaiterIsLost(n: nat, h: TaskHandle, a: int)
    requires n + 1 < HQ.MAX_BITMAP_POOL
    ensures RunLot(BootLot(n), [R.Wait(h, a, 0, None), R.Wake(a, 1)]) ==
      Some([Sleeps, Returns(if n >= 1 then 1 else 0)])
  {
    var wait, wake := R.Wait(h, a, 0, None), R.Wake(a, 1);
    var l1 := Step(BootLot(n), wait).lot;
    if n >= 1 {
      TwoAnswers(h, a);
      BootRunsOnPool(n, [wait, wake]);
    } else {
      LostWake(h, a);
      assert [wait, wake][1..] == [wake] && [wake][1..] == [];
      assert RunLot(Step(l1, wake).lot, []) == Some([]);
      assert RunLot(l1, [wake]) == Some([Returns(0)] + []);
      assert [Sleeps] + ([Returns(0)] + []) == [Sleeps, Returns(0)];
    }
  }

  lemma LostWake(h: TaskHandle, a: int)
    ensures var o := Step(BootLot(0), R.Wait(h, a, 0, None));
      && o.Ok? && o.answer == Sleeps && Enabled(o.lot, R.Wake(a, 1))
      && Step(o.lot, R.Wake(a, 1)).Ok? && Step(o.lot, R.Wake(a, 1)).answer == Returns(0)
  {
    var l1 := Step(BootLot(0), R.Wait(h, a, 0, None)).lot;
    var q := l1.queues[a];
    assert q.id == 0 && l1.pool.next == 1 && l1.pool.slots[1] == 0;
    var o := HQ.PopStep(l1.pool, q);
    assert o == HQ.Ok(l1.pool.(next := 2), q.(id := 1), HQ.Handle(None));
    assert PopLoop(l1.pool, q, 1) == Done(o.pool, o.queue, []);
  }

  lemma TwoAnswers(h: TaskHandle, a: int)
    ensures var ops := [R.Wait(h, a, 0, None), R.Wake(a, 1)];
      AllEnabled(R.Start, ops) && Creations(R.Start, ops) == 1 && Answers(R.Start, ops) == [Sleeps, Returns(1)]
  {
    var ops := [R.Wait(h, a, 0, None), R.Wake(a, 1)];
    var w1 := R.Step(R.Start, ops[0]).0;
    assert [] + [h] == [h] && QueueOf(w1.queues, a) == [h];
    PopsNext([h], 1, Earliest([h]));
    assert |R.Taken(w1, a, 1)| == 1;
    var w2 := R.Step(w1, ops[1]).0;
    assert ops[1..] == [ops[1]] && [ops[1]][1..] == [];
    assert AllEnabled(w2, []) && AllEnabled(w1, [ops[1]]);
    assert Creations(w1, [ops[1]]) == 0 && Creations(R.Start, ops) == 1;
    assert Answers(w1, [ops[1]]) == [Returns(1)] + [];
    assert Answers(R.Start, ops) == [Sleeps] + ([Returns(1)] + []);
    assert [Sleeps] + ([Returns(1)] + []) == [Sleeps, Returns(1)];
  }

  // ---- What holds of the real queues ----

  predicate Follows(l: Lot, op: R.Op, l': Lot) {
    Enabled(l, op) && Step(l, op).Ok? && Step(l, op).lot == l'
  }

  /** A run of the parking lot from boot with `n` numbers handed out, without a panic. */
  ghost predicate Run(ls: seq<Lot>, ops: seq<R.Op>, n: nat) {
    && |ls| == |ops| + 1
    && ls[0] == BootLot(n)
    && forall i :: 0 <= i < |ops| ==> Follows(ls[i], ops[i], ls[i + 1])
  }

  lemma StepHasModel(l: Lot, w: R.World, op: R.Op, l': Lot)
    requires LotSim(l, w) && Follows(l, op, l')
    ensures R.Enabled(w, op) && LotSim(l', R.Step(w, op).0)
  {
    StepSim(l, w, op);
  }

  /** Every such run is a run of the arrival-ordered model, so that everything proved of that holds of it. */
  lemma {:induction false} RunHasModel(ls: seq<Lot>, ops: seq<R.Op>, n: nat, m: nat) returns (ws: seq<R.World>)
    requires Run(ls, ops, n) && 1 <= n <= HQ.MAX_BITMAP_POOL && m <= |ops|
    ensures |ws| == m + 1 && R.Run(ws, ops[..m])
    ensures forall i :: 0 <= i <= m ==> LotSim(ls[i], ws[i])
    decreases m
  {
    if m == 0 {
      ws := [R.Start];
    } else {
      var vs := RunHasModel(ls, ops, n, m - 1);
      assert Follows(ls[m - 1], ops[m - 1], ls[m - 1 + 1]);
      StepHasModel(ls[m - 1], vs[m - 1], ops[m - 1], ls[m]);
      ws := vs + [R.Step(vs[m - 1], ops[m - 1]).0];
      assert forall i :: 0 <= i < m ==> ws[i] == vs[i];
      forall i | 0 <= i < m ensures R.Follows(ws[i], ops[..m][i], ws[i + 1]) {
        if i < m - 1 { assert R.Follows(vs[i], ops[..m - 1][i], vs[i + 1]); }
      }
    }
  }

  /** Waiter `id` is in the lists of the queue of its address. */
  predicate InLists(l: Lot, id: int) {
    && id in l.waiters && l.waiters[id].addr in l.queues
    && var q, h := l.queues[l.waiters[id].addr], l.waiters[id].handle;
       h.prio < |q.lists| && HasId(HQ.ListOf(q.lists[h.prio]), h.id)
  }

  lemma InListsIffParked(l: Lot, w: R.World, id: int)
    requires LotSim(l, w) && R.Inv(w) && id in l.waiters
    ensures InLists(l, id) <==> R.Parked(w, id)
  {
    var me := w.waiters[id];
    R.QueuedIffParked(w, id);
    if me.addr in w.queues {
      var q := l.queues[me.addr];
      SimContains(HQ.Flat(q.lists), w.queues[me.addr], me.handle);
      assert HQ.Flat(q.lists)[me.handle.prio] == HQ.ListOf(q.lists[me.handle.prio]);
    }
  }

  /**
   * No lost wake-ups on the real queues, once number 0 is taken and until the pool is used up: after a wake of
   * all, while the word stays `v`, nobody who checked for another value is queued.
   */
  lemma NoLostWakeupOnPool(ls: seq<Lot>, ops: seq<R.Op>, n: nat, m: nat, t: nat, a: int, v: Word, id: int)
    requires Run(ls, ops, n) && 1 <= n <= HQ.MAX_BITMAP_POOL
    requires m < t < |ls| && ops[m] == R.Wake(a, I32_MAX) && forall i :: m <= i <= t ==> Load(ls[i].mem, a) == v
    requires id in ls[t].waiters && ls[t].waiters[id].addr == a && ls[t].waiters[id].expected != v
    ensures !InLists(ls[t], id)
  {
    var ws := RunHasModel(ls, ops, n, t);
    forall i | m <= i <= t ensures Load(ws[i].mem, a) == v { assert LotSim(ls[i], ws[i]); }
    R.NoLostWakeup(ws, ops[..t], m, t, a, v);
    R.RunsKeepInv(ws, ops[..t], t);
    InListsIffParked(ls[t], ws[t], id);
  }
}
