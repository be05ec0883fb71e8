/**
 * `TaskHandlePriorityQueue`: the wait queues of futexes, semaphores and mutexes. Every queue keeps its
 * lists itself but takes its bitmap from one static pool, allocated on first access and never returned.
 * The number 0 means "no bitmap yet" although it is also the first number the pool hands out.
 */
module HandleQueue {
  import opened Basics
  import opened Bitmap
  import opened PriorityLists

  const MAX_BITMAP_POOL: nat := 256

  /** The static pool: its words and the counter of numbers handed out. */
  datatype Pool = Pool(slots: seq<nat>, next: nat)

  /** One queue object; a list that was never used is `None`. */
  datatype Queue = Queue(lists: seq<Option<seq<TaskHandle>>>, id: nat)

  const EmptyQueue: Queue := Queue(NoLists(), 0)

  function NoLists(): (l: seq<Option<seq<TaskHandle>>>)
    ensures |l| == NO_PRIORITIES && forall i :: 0 <= i < |l| ==> l[i] == None
  {
    seq(NO_PRIORITIES, _ => None)
  }

  datatype Answer = Unit | Handle(task: Option<TaskHandle>) | Flag(b: bool)

  datatype Outcome = Panic | Ok(pool: Pool, queue: Queue, answer: Answer)

  function ListOf(o: Option<seq<TaskHandle>>): seq<TaskHandle> {
    if o.None? then [] else o.value
  }

  function Flat(lists: seq<Option<seq<TaskHandle>>>): (l: seq<seq<TaskHandle>>)
    ensures |l| == |lists|
    ensures forall i :: 0 <= i < |l| ==> l[i] == ListOf(lists[i])
  {
    seq(|lists|, i requires 0 <= i < |lists| => ListOf(lists[i]))
  }

  predicate WellFormed(p: Pool, q: Queue) {
    |p.slots| == MAX_BITMAP_POOL && |q.lists| == NO_PRIORITIES && q.id < MAX_BITMAP_POOL
  }

  /** `ensure_bitmap`: allocate on first use; running out of slots fails an assertion. */
  function Ensure(p: Pool, q: Queue): Outcome {
    if q.id != 0 then Ok(p, q, Unit)
    else if p.next < MAX_BITMAP_POOL then Ok(p.(next := p.next + 1), q.(id := p.next), Unit)
    else Panic
  }

  function IsEmptyStep(p: Pool, q: Queue): Outcome
    requires WellFormed(p, q)
  {
    var o := Ensure(p, q);
    if o.Panic? then Panic else o.(answer := Flag(o.pool.slots[o.queue.id] == 0))
  }

  function ContainsStep(p: Pool, q: Queue, h: TaskHandle): Outcome
    requires WellFormed(p, q)
  {
    Ok(p, q, Flag(HasId(ListOf(q.lists[h.prio]), h.id)))
  }

  function PushStep(p: Pool, q: Queue, h: TaskHandle): Outcome
    requires WellFormed(p, q)
  {
    var o := Ensure(p, q);
    if o.Panic? then Panic
    else
      var slots := o.pool.slots;
      var id := o.queue.id;
      Ok(o.pool.(slots := slots[id := Or(slots[id], Shl(h.prio))]),
         o.queue.(lists := q.lists[h.prio := Some(ListOf(q.lists[h.prio]) + [h])]), Unit)
  }

  /** Writes back list `i`, clearing bit `i` when nothing is left in it. */
  function StoreList(p: Pool, q: Queue, i: nat, s: seq<TaskHandle>, a: Answer): Outcome
    requires WellFormed(p, q) && i < NO_PRIORITIES
  {
    var q1 := q.(lists := q.lists[i := Some(s)]);
    if s != [] then Ok(p, q1, a)
    else
      var o := Ensure(p, q1);
      if o.Panic? then Panic
      else
        var id := o.queue.id;
        Ok(o.pool.(slots := o.pool.slots[id := AndNot(o.pool.slots[id], Shl(i))]), o.queue, a)
  }

  function PopFromStep(p: Pool, q: Queue, i: nat): Outcome
    requires WellFormed(p, q) && i < NO_PRIORITIES
  {
    if q.lists[i].None? then Ok(p, q, Handle(None))
    else
      var s := q.lists[i].value;
      StoreList(p, q, i, if s == [] then [] else s[1..], Handle(if s == [] then None else Some(s[0])))
  }

  function PopStep(p: Pool, q: Queue): Outcome
    requires WellFormed(p, q)
  {
    var o := Ensure(p, q);
    if o.Panic? then Panic
    else
      var i := Msb(o.pool.slots[o.queue.id]);
      if i.None? then o.(answer := Handle(None))
      else if i.value >= NO_PRIORITIES then Panic
      else PopFromStep(o.pool, o.queue, i.value)
  }

  function RemoveStep(p: Pool, q: Queue, h: TaskHandle): Outcome
    requires WellFormed(p, q)
  {
    if q.lists[h.prio].None? then Ok(p, q, Flag(false))
    else
      var s := q.lists[h.prio].value;
      StoreList(p, q, h.prio, DropId(s, h.id), Flag(HasId(s, h.id)))
  }

  // ---- The classes ----

  class BitmapPool {
    const slots: array<nat>
    var next: nat

    ghost predicate Valid()
      reads this
    {
      slots.Length == MAX_BITMAP_POOL
    }

    ghost function View(): Pool
      reads this, slots
    {
      Pool(slots[..], next)
    }

    constructor ()
      ensures Valid() && fresh(slots)
      ensures next == 0 && forall i :: 0 <= i < slots.Length ==> slots[i] == 0
    {
      slots := new nat[MAX_BITMAP_POOL](_ => 0);
      next := 0;
    }
  }

  class TaskHandlePriorityQueue {
    const pool: BitmapPool
    const queues: array<Option<seq<TaskHandle>>>
    var bitmapId: nat

    ghost predicate Valid()
      reads this, pool
    {
      && pool.Valid()
      && queues.Length == NO_PRIORITIES
      && bitmapId < MAX_BITMAP_POOL
    }

    ghost function View(): Queue
      reads this, queues
    {
      Queue(queues[..], bitmapId)
    }

    constructor (pool: BitmapPool)
      requires pool.Valid()
      ensures Valid() && this.pool == pool && fresh(queues)
      ensures View() == EmptyQueue
    {
      this.pool := pool;
      queues := new Option<seq<TaskHandle>>[NO_PRIORITIES](_ => None);
      bitmapId := 0;
      new;
      assert queues[..] == EmptyQueue.lists;
    }

    /** Allocates a bitmap at first use; `ok` is false where the pool's assertion fails. */
    method EnsureBitmap() returns (ok: bool, id: nat)
      requires Valid()
      modifies this, pool
      ensures Valid() && (ok ==> id == bitmapId)
      ensures ok <==> old(bitmapId != 0 || pool.next < MAX_BITMAP_POOL)
      ensures ok ==> Ok(pool.View(), View(), Unit) == old(Ensure(pool.View(), View()))
    {
      ok, id := true, bitmapId;
      if id == 0 {
        id := pool.next;
        pool.next := pool.next + 1;
        if id >= MAX_BITMAP_POOL { return false, id; }
        bitmapId := id;
      }
    }

    /** With a bitmap that agrees with the lists, the bitmap test tells whether all lists are empty. */
    method IsEmpty() returns (ok: bool, b: bool)
      requires Valid()
      modifies this, pool
      ensures Valid()
      ensures ok <==> old(IsEmptyStep(pool.View(), View())).Ok?
      ensures ok ==> Ok(pool.View(), View(), Flag(b)) == old(IsEmptyStep(pool.View(), View()))
      ensures ok && Agree(pool.slots[bitmapId], Flat(queues[..])) ==>
        (b <==> forall i :: 0 <= i < NO_PRIORITIES ==> ListOf(queues[i]) == [])
    {
      var id;
      b := false;
      ok, id := EnsureBitmap();
      if !ok { return; }
      b := pool.slots[id] == 0;
      ghost var l := Flat(queues[..]);
      if Agree(pool.slots[id], l) {
        AgreeMsb(pool.slots[id], l);
        assert forall i :: 0 <= i < NO_PRIORITIES ==> l[i] == ListOf(queues[i]);
      }
    }

    method Contains(task: TaskHandle) returns (b: bool)
      requires Valid()
      ensures Ok(pool.View(), View(), Flag(b)) == ContainsStep(pool.View(), View(), task)
    {
      var q := ListOf(queues[task.prio]);
      var i := 0;
      while i < |q| && q[i].id != task.id
        invariant 0 <= i <= |q|
        invariant forall j :: 0 <= j < i ==> q[j].id != task.id
      {
        i := i + 1;
      }
      b := i < |q|;
    }

    method Push(task: TaskHandle) returns (ok: bool)
      requires Valid()
      modifies this, queues, pool, pool.slots
      ensures Valid()
      ensures ok <==> old(PushStep(pool.View(), View(), task)).Ok?
      ensures ok ==> Ok(pool.View(), View(), Unit) == old(PushStep(pool.View(), View(), task))
    {
      var i := task.prio;
      var id;
      ok, id := EnsureBitmap();
      if !ok { return; }
      pool.slots[id] := Or(pool.slots[id], Shl(i));
      if queues[i].Some? {
        queues[i] := Some(queues[i].value + [task]);
      } else {
        queues[i] := Some([task]);
        assert [] + [task] == [task];
      }
      assert queues[..] == old(queues[..])[i := Some(ListOf(old(queues[i])) + [task])];
    }

    method StoreAndClear(i: nat, s: seq<TaskHandle>) returns (ok: bool)
      requires Valid() && i < NO_PRIORITIES
      modifies this, queues, pool, pool.slots
      ensures Valid()
      ensures ok <==> old(StoreList(pool.View(), View(), i, s, Unit)).Ok?
      ensures ok ==> Ok(pool.View(), View(), Unit) == old(StoreList(pool.View(), View(), i, s, Unit))
    {
      queues[i] := Some(s);
      ok := true;
      if s == [] {
        var id;
        ok, id := EnsureBitmap();
        if !ok { return; }
        pool.slots[id] := AndNot(pool.slots[id], Shl(i));
      }
    }

    method PopFromQueue(queueIndex: nat) returns (ok: bool, task: Option<TaskHandle>)
      requires Valid() && queueIndex < NO_PRIORITIES
      modifies this, queues, pool, pool.slots
      ensures Valid()
      ensures ok <==> old(PopFromStep(pool.View(), View(), queueIndex)).Ok?
      ensures ok ==> Ok(pool.View(), View(), Handle(task)) == old(PopFromStep(pool.View(), View(), queueIndex))
    {
      if queues[queueIndex].None? { return true, None; }
      var q := queues[queueIndex].value;
      task := if q == [] then None else Some(q[0]);
      ok := StoreAndClear(queueIndex, if q == [] then [] else q[1..]);
    }

    method Pop() returns (ok: bool, task: Option<TaskHandle>)
      requires Valid()
      modifies this, queues, pool, pool.slots
      ensures Valid()
      ensures ok <==> old(PopStep(pool.View(), View())).Ok?
      ensures ok ==> Ok(pool.View(), View(), Handle(task)) == old(PopStep(pool.View(), View()))
    {
      var id;
      task := None;
      ok, id := EnsureBitmap();
      if !ok { return; }
      var i := Msb(pool.slots[id]);
      if i.None? { return true, None; }
      if i.value >= NO_PRIORITIES { return false, None; }
      ok, task := PopFromQueue(i.value);
    }

    method Remove(task: TaskHandle) returns (ok: bool, success: bool)
      requires Valid()
      modifies this, queues, pool, pool.slots
      ensures Valid()
      ensures ok <==> old(RemoveStep(pool.View(), View(), task)).Ok?
      ensures ok ==> Ok(pool.View(), View(), Flag(success)) == old(RemoveStep(pool.View(), View(), task))
    {
      ok, success := true, false;
      if queues[task.prio].None? { return; }
      var q := queues[task.prio].value;
      ghost var q0 := q;
      var i := 0;
      while i != |q|
        invariant 0 <= i <= |q|
        invariant forall j :: 0 <= j < i ==> q[j].id != task.id
        invariant DropId(q, task.id) == DropId(q0, task.id)
        invariant if success then HasId(q0, task.id) else q == q0
        modifies {}
        decreases |q| - i
      {
        if q[i].id == task.id {
          DropIdSkips(q, i);
          q := RemoveAt(q, i);
          success := true;
        } else {
          i := i + 1;
        }
      }
      DropIdNone(q, task.id);
      assert success <==> HasId(q0, task.id);
      ok := StoreAndClear(task.prio, q);
    }
  }

  lemma {:induction false} DropIdSkips(s: seq<TaskHandle>, i: nat)
    requires i < |s|
    ensures DropId(RemoveAt(s, i), s[i].id) == DropId(s, s[i].id)
  {
    if i == 0 {
      assert RemoveAt(s, 0) == s[1..];
    } else {
      DropIdSkips(s[1..], i - 1);
      assert RemoveAt(s, i) == [s[0]] + RemoveAt(s[1..], i - 1);
      DropIdCons(s[0], RemoveAt(s[1..], i - 1), s[i].id);
    }
  }

  lemma {:induction false} DropIdNone(s: seq<TaskHandle>, id: int)
    requires forall j :: 0 <= j < |s| ==> s[j].id != id
    ensures DropId(s, id) == s
  {
    if s != [] { DropIdNone(s[1..], id); }
  }

  // ---- Many queues on one pool ----

  datatype World = World(pool: Pool, queues: seq<Queue>)

  datatype Op =
    | OpNew
    | OpIsEmpty(k: nat)
    | OpContains(k: nat, h: TaskHandle)
    | OpPush(k: nat, h: TaskHandle)
    | OpPop(k: nat)
    | OpRemove(k: nat, h: TaskHandle)

  function StepQueue(p: Pool, q: Queue, op: Op): Outcome
    requires WellFormed(p, q) && !op.OpNew?
  {
    match op
    case OpIsEmpty(_) => IsEmptyStep(p, q)
    case OpContains(_, h) => ContainsStep(p, q, h)
    case OpPush(_, h) => PushStep(p, q, h)
    case OpPop(_) => PopStep(p, q)
    case OpRemove(_, h) => RemoveStep(p, q, h)
  }

  /** Independent queues, each one plain sequence in order of arrival. */
  function StepReference(a: seq<TaskHandle>, op: Op): (seq<TaskHandle>, Answer) {
    match op
    case OpNew => ([], Unit)
    case OpIsEmpty(_) => (a, Flag(a == []))
    case OpContains(_, h) => (a, Flag(Queued(a, h)))
    case OpPush(_, h) => (a + [h], Unit)
    case OpPop(_) => if a == [] then (a, Handle(None)) else (RemoveAt(a, Earliest(a)), Handle(Some(a[Earliest(a)])))
    case OpRemove(_, h) => (Without(a, h), Flag(Queued(a, h)))
  }

  /** Does this operation consult the bitmap? */
  predicate NeedsBitmap(op: Op) {
    op.OpIsEmpty? || op.OpPush? || op.OpPop?
  }

  /** What ties one queue to the pool and to its reference. */
  ghost predicate QueueSim(p: Pool, q: Queue, a: seq<TaskHandle>) {
    && WellFormed(p, q)
    && Sim(Flat(q.lists), a)
    && (q.id == 0 ==> q == EmptyQueue)
    && (q.id != 0 ==> q.id < p.next && Agree(p.slots[q.id], Flat(q.lists)))
  }

  ghost predicate PoolOk(p: Pool) {
    && |p.slots| == MAX_BITMAP_POOL
    && 1 <= p.next <= MAX_BITMAP_POOL
    && forall i :: p.next <= i < MAX_BITMAP_POOL ==> p.slots[i] == 0
  }

  lemma AgreeZero()
    ensures Agree(0, Flat(EmptyQueue.lists))
  {
    forall i: nat ensures !Bit(0, i) { BitOfZero(i); }
  }

  lemma EnsureSim(p: Pool, q: Queue, a: seq<TaskHandle>)
    requires PoolOk(p) && QueueSim(p, q, a)
    requires q.id != 0 || p.next < MAX_BITMAP_POOL
    ensures var o := Ensure(p, q);
      && o.Ok? && PoolOk(o.pool) && QueueSim(o.pool, o.queue, a)
      && o.queue.id != 0 && o.queue.lists == q.lists
      && o.pool.slots == p.slots
      && (q.id == 0 ==> o.queue.id == p.next)
      && (q.id != 0 ==> o.queue == q && o.pool == p)
  {
    if q.id == 0 { AgreeZero(); }
  }

  lemma StoreSim(p: Pool, q: Queue, a: seq<TaskHandle>, i: nat, s: seq<TaskHandle>, a': seq<TaskHandle>, ans: Answer)
    requires PoolOk(p) && QueueSim(p, q, a) && i < NO_PRIORITIES
    requires q.id != 0
    requires ListOf(q.lists[i]) == [] ==> s == []
    requires Sim(Flat(q.lists)[i := s], a')
    ensures var o := StoreList(p, q, i, s, ans);
      && o.Ok? && PoolOk(o.pool) && QueueSim(o.pool, o.queue, a') && o.answer == ans
      && o.queue.id == q.id && o.pool.next == p.next
      && forall j :: 0 <= j < MAX_BITMAP_POOL && j != q.id ==> o.pool.slots[j] == p.slots[j]
  {
    AgreeShrink(p.slots[q.id], Flat(q.lists), i, s);
    assert Flat(q.lists[i := Some(s)]) == Flat(q.lists)[i := s];
  }

  /** Frame of one queue operation: it touches its own bitmap and numbers not yet handed out. */
  ghost predicate Private(p: Pool, q: Queue, p': Pool, q': Queue) {
    && |p.slots| == |p'.slots| == MAX_BITMAP_POOL
    && p.next <= p'.next
    && (forall j :: 0 <= j < p.next && j < MAX_BITMAP_POOL && j != q.id ==> p'.slots[j] == p.slots[j])
    && (q.id != 0 ==> q'.id == q.id)
    && (q.id == 0 ==> q'.id == 0 || q'.id >= p.next)
  }

  /** One operation on one queue answers like its reference; it fails only for want of a pool slot. */
  lemma StepQueueSim(p: Pool, q: Queue, a: seq<TaskHandle>, op: Op)
    requires PoolOk(p) && QueueSim(p, q, a) && !op.OpNew?
    ensures StepQueue(p, q, op).Panic? <==> NeedsBitmap(op) && q.id == 0 && p.next == MAX_BITMAP_POOL
    ensures StepQueue(p, q, op).Ok? ==>
      var o := StepQueue(p, q, op);
      && o.answer == StepReference(a, op).1
      && PoolOk(o.pool) && QueueSim(o.pool, o.queue, StepReference(a, op).0)
      && Private(p, q, o.pool, o.queue)
  {
    var l := Flat(q.lists);
    if NeedsBitmap(op) && (q.id != 0 || p.next < MAX_BITMAP_POOL) { EnsureSim(p, q, a); }
    match op
    case OpIsEmpty(_) =>
      if q.id != 0 || p.next < MAX_BITMAP_POOL {
        var o := Ensure(p, q);
        AgreeMsb(o.pool.slots[o.queue.id], l);
        SimTop(l, a);
      }
    case OpContains(_, h) => SimContains(l, a, h);
    case OpPush(_, h) =>
      if q.id != 0 || p.next < MAX_BITMAP_POOL {
        var o := Ensure(p, q);
        SimPush(l, a, h);
        AgreePush(o.pool.slots[o.queue.id], l, h.prio, h);
        assert Flat(q.lists[h.prio := Some(ListOf(q.lists[h.prio]) + [h])]) == PushTo(l, h.prio, h);
      }
    case OpPop(_) =>
      if q.id != 0 || p.next < MAX_BITMAP_POOL { PopSim(p, q, a); }
    case OpRemove(_, h) =>
      SimRemove(l, a, h);
      SimContains(l, a, h);
      if q.lists[h.prio].Some? {
        StoreSim(p, q, a, h.prio, DropId(l[h.prio], h.id), Without(a, h), Flag(Queued(a, h)));
      } else {
        assert l[h.prio := DropId(l[h.prio], h.id)] == l;
      }
  }

  lemma PopSim(p: Pool, q: Queue, a: seq<TaskHandle>)
    requires PoolOk(p) && QueueSim(p, q, a)
    requires q.id != 0 || p.next < MAX_BITMAP_POOL
    ensures var o := PopStep(p, q);
      && o.Ok? && o.answer == StepReference(a, OpPop(0)).1
      && PoolOk(o.pool) && QueueSim(o.pool, o.queue, StepReference(a, OpPop(0)).0)
      && Private(p, q, o.pool, o.queue)
  {
    EnsureSim(p, q, a);
    var o := Ensure(p, q);
    var l := Flat(q.lists);
    AgreeMsb(o.pool.slots[o.queue.id], l);
    SimTop(l, a);
    if a != [] {
      SimPop(l, a);
      var i := Top(l).value;
      assert q.lists[i].Some?;
      StoreSim(o.pool, o.queue, a, i, l[i][1..], RemoveAt(a, Earliest(a)), Handle(Some(l[i][0])));
    }
  }

  // ---- Every run ----

  /** `None` when the operation panics or names no queue. */
  function StepWorld(w: World, op: Op): Option<(World, Answer)> {
    if op.OpNew? then Some((w.(queues := w.queues + [EmptyQueue]), Unit))
    else if op.k >= |w.queues| || !WellFormed(w.pool, w.queues[op.k]) then None
    else
      var o := StepQueue(w.pool, w.queues[op.k], op);
      if o.Panic? then None else Some((World(o.pool, w.queues[op.k := o.queue]), o.answer))
  }

  function StepReferences(r: seq<seq<TaskHandle>>, op: Op): (seq<seq<TaskHandle>>, Answer)
    requires InRange(op, |r|)
  {
    if op.OpNew? then (r + [[]], Unit)
    else
      var s := StepReference(r[op.k], op);
      (r[op.k := s.0], s.1)
  }

  predicate InRange(op: Op, n: nat) {
    op.OpNew? || op.k < n
  }

  ghost predicate WorldSim(w: World, r: seq<seq<TaskHandle>>) {
    && |w.queues| == |r|
    && PoolOk(w.pool)
    && (forall k :: 0 <= k < |r| ==> QueueSim(w.pool, w.queues[k], r[k]))
    && forall i, j :: 0 <= i < j < |r| && w.queues[i].id != 0 ==> w.queues[i].id != w.queues[j].id
  }

  /** Another queue sees nothing of an operation on queue `k`. */
  lemma OthersUntouched(w: World, r: seq<seq<TaskHandle>>, k: nat, p': Pool, q': Queue, j: nat)
    requires WorldSim(w, r) && k < |r| && j < |r| && j != k
    requires PoolOk(p') && Private(w.pool, w.queues[k], p', q')
    ensures QueueSim(p', w.queues[j], r[j])
    ensures w.queues[j].id != 0 ==> w.queues[j].id != q'.id
  {
    var id := w.queues[j].id;
    if id != 0 {
      assert id != w.queues[k].id;
      assert p'.slots[id] == w.pool.slots[id];
    }
  }

  lemma StepWorldSim(w: World, r: seq<seq<TaskHandle>>, op: Op)
    requires WorldSim(w, r) && InRange(op, |r|)
    ensures StepWorld(w, op).None? <==>
      !op.OpNew? && NeedsBitmap(op) && w.queues[op.k].id == 0 && w.pool.next == MAX_BITMAP_POOL
    ensures StepWorld(w, op).Some? ==>
      && StepWorld(w, op).value.1 == StepReferences(r, op).1
      && WorldSim(StepWorld(w, op).value.0, StepReferences(r, op).0)
  {
    if op.OpNew? {
      forall p | 0 <= p < NO_PRIORITIES ensures OfPrio([], p) == [] {}
    } else {
      var k := op.k;
      StepQueueSim(w.pool, w.queues[k], r[k], op);
      var o := StepQueue(w.pool, w.queues[k], op);
      if o.Ok? {
        forall j | 0 <= j < |r| && j != k
          ensures QueueSim(o.pool, w.queues[j], r[j])
          ensures w.queues[j].id != 0 ==> w.queues[j].id != o.queue.id
        {
          OthersUntouched(w, r, k, o.pool, o.queue, j);
        }
      }
    }
  }

  /** Every operation of the run names a queue created before it. */
  predicate AllInRange(ops: seq<Op>, n: nat) {
    ops == [] || (InRange(ops[0], n) && AllInRange(ops[1..], if ops[0].OpNew? then n + 1 else n))
  }

  /** The answers of a run, `None` if some operation panics. */
  function RunWorld(w: World, ops: seq<Op>): Option<seq<Answer>>
    decreases |ops|
  {
    if ops == [] then Some([])
    else
      var s := StepWorld(w, ops[0]);
      if s.None? then None
      else
        var rest := RunWorld(s.value.0, ops[1..]);
        if rest.None? then None else Some([s.value.1] + rest.value)
  }

  function RunReferences(r: seq<seq<TaskHandle>>, ops: seq<Op>): seq<Answer>
    requires AllInRange(ops, |r|)
    decreases |ops|
  {
    if ops == [] then []
    else
      var s := StepReferences(r, ops[0]);
      [s.1] + RunReferences(s.0, ops[1..])
  }

  /** How many queues a run uses for the first time, given which ones were used before. */
  function FirstUses(used: seq<bool>, ops: seq<Op>): nat
    requires AllInRange(ops, |used|)
    decreases |ops|
  {
    if ops == [] then 0
    else if ops[0].OpNew? then FirstUses(used + [false], ops[1..])
    else if NeedsBitmap(ops[0]) && !used[ops[0].k] then 1 + FirstUses(used[ops[0].k := true], ops[1..])
    else FirstUses(used, ops[1..])
  }

  function Used(w: World): (u: seq<bool>)
    ensures |u| == |w.queues|
    ensures forall k :: 0 <= k < |u| ==> u[k] == (w.queues[k].id != 0)
  {
    seq(|w.queues|, k requires 0 <= k < |w.queues| => w.queues[k].id != 0)
  }

  lemma StepUses(w: World, r: seq<seq<TaskHandle>>, op: Op)
    requires WorldSim(w, r) && InRange(op, |r|) && StepWorld(w, op).Some?
    ensures var w' := StepWorld(w, op).value.0;
      if op.OpNew? then Used(w') == Used(w) + [false] && w'.pool.next == w.pool.next
      else if NeedsBitmap(op) && w.queues[op.k].id == 0 then
        Used(w') == Used(w)[op.k := true] && w'.pool.next == w.pool.next + 1
      else Used(w') == Used(w) && w'.pool.next == w.pool.next
  {
    StepWorldSim(w, r, op);
    if !op.OpNew? { StepQueueUses(w.pool, w.queues[op.k], r[op.k], op); }
  }

  lemma StepQueueUses(p: Pool, q: Queue, a: seq<TaskHandle>, op: Op)
    requires PoolOk(p) && QueueSim(p, q, a) && !op.OpNew? && StepQueue(p, q, op).Ok?
    ensures var o := StepQueue(p, q, op);
      if NeedsBitmap(op) && q.id == 0 then o.queue.id != 0 && o.pool.next == p.next + 1
      else (o.queue.id != 0 <==> q.id != 0) && o.pool.next == p.next
  {}

  /**
   * With slot 0 already handed out, queues on one pool behave in every run as independent queues in
   * order of arrival, and a run fails exactly when it uses more queues than the pool has slots left.
   */
  lemma {:induction false} RunsAreIndependent(w: World, r: seq<seq<TaskHandle>>, ops: seq<Op>)
    requires WorldSim(w, r) && AllInRange(ops, |r|)
    ensures RunWorld(w, ops).Some? ==> RunWorld(w, ops).value == RunReferences(r, ops)
    ensures RunWorld(w, ops).None? <==> w.pool.next + FirstUses(Used(w), ops) > MAX_BITMAP_POOL
    decreases |ops|
  {
    if ops != [] {
      StepWorldSim(w, r, ops[0]);
      var s := StepWorld(w, ops[0]);
      if s.Some? {
        StepUses(w, r, ops[0]);
        RunsAreIndependent(s.value.0, StepReferences(r, ops[0]).0, ops[1..]);
      }
    }
  }

  /** The world before the first queue, with `n` bitmap numbers already handed out. */
  function Boot(n: nat): World {
    World(Pool(seq(MAX_BITMAP_POOL, _ => 0), n), [])
  }

  lemma BootSim(n: nat)
    requires 1 <= n <= MAX_BITMAP_POOL
    ensures WorldSim(Boot(n), [])
  {}

  /** What the reference answers when a handle is pushed to a new queue and popped again. */
  lemma PushThenPop(h: TaskHandle)
    ensures var ops := [OpNew, OpPush(0, h), OpPop(0)];
      && AllInRange(ops, 0)
      && FirstUses([], ops) == 1
      && RunReferences([], ops) == [Unit, Unit, Handle(Some(h))]
  {
    var ops := [OpNew, OpPush(0, h), OpPop(0)];
    var rest := [OpPush(0, h), OpPop(0)];
    assert ops[1..] == rest;
    PushThenPopRest(h);
    var none: seq<seq<TaskHandle>> := [];
    assert [] + [false] == [false] && none + [[]] == [[]];
    assert RunReferences([], ops) == [Unit] + [Unit, Handle(Some(h))];
  }

  lemma PushThenPopRest(h: TaskHandle)
    ensures var ops := [OpPush(0, h), OpPop(0)];
      && AllInRange(ops, 1)
      && FirstUses([false], ops) == 1
      && RunReferences([[]], ops) == [Unit, Handle(Some(h))]
  {
    var ops := [OpPush(0, h), OpPop(0)];
    assert ops[1..] == [OpPop(0)] && [OpPop(0)][1..] == [];
    assert AllInRange([OpPop(0)], 1);
    assert [false][0 := true] == [true] && FirstUses([true], [OpPop(0)]) == 0;
    assert [[]][0 := [h]] == [[h]] && [] + [h] == [h];
    assert RunReferences([[h]], [OpPop(0)]) == [Handle(Some(h))];
  }

  lemma RunCons(w: World, op: Op, ops: seq<Op>)
    requires StepWorld(w, op).Some?
    ensures var s := StepWorld(w, op).value;
      var rest := RunWorld(s.0, ops);
      RunWorld(w, [op] + ops) == if rest.None? then None else Some([s.1] + rest.value)
  {
    assert ([op] + ops)[1..] == ops;
  }

  /**
   * Slot 0 is unusable: the first queue of the system forgets what is pushed to it. A handle pushed
   * to a new queue comes back from the next pop if and only if slot 0 was consumed before.
   */
  lemma FirstQueueLosesItsHandle(n: nat, h: TaskHandle)
    requires n + 1 < MAX_BITMAP_POOL
    ensures RunWorld(Boot(n), [OpNew, OpPush(0, h), OpPop(0)]) ==
      Some([Unit, Unit, Handle(if n >= 1 then Some(h) else None)])
  {
    var ops := [OpNew, OpPush(0, h), OpPop(0)];
    if n >= 1 {
      BootSim(n);
      PushThenPop(h);
      assert Used(Boot(n)) == [];
      RunsAreIndependent(Boot(n), [], ops);
    } else {
      var w1 := StepWorld(Boot(0), OpNew).value.0;
      assert w1.queues == [EmptyQueue];
      var w2 := StepWorld(w1, OpPush(0, h)).value.0;
      assert w2.queues[0].id == 0 && w2.pool.next == 1 && w2.pool.slots[1] == 0;
      var s3 := StepWorld(w2, OpPop(0));
      assert s3.Some? && s3.value.1 == Handle(None);
      assert RunWorld(s3.value.0, []) == Some([]);
      var pop := [OpPop(0)];
      var pushPop := [OpPush(0, h)] + pop;
      RunCons(w2, OpPop(0), []);
      assert [OpPop(0)] + [] == pop;
      assert [Handle(None)] + [] == [Handle(None)];
      assert RunWorld(w2, pop) == Some([Handle(None)]);
      RunCons(w1, OpPush(0, h), pop);
      assert RunWorld(w1, pushPop) == Some([Unit] + [Handle(None)]);
      RunCons(Boot(0), OpNew, pushPop);
      assert [OpNew] + pushPop == ops;
      assert RunWorld(Boot(0), ops) == Some([Unit] + ([Unit] + [Handle(None)]));
      assert [Unit] + ([Unit] + [Handle(None)]) == [Unit, Unit, Handle(None)];
    }
  }
}
