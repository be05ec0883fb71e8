/** Runs of futex operations by any number of tasks on any addresses. */
module FutexRuns {
  import opened Basics
  import opened PriorityLists
  import opened Futex

  // ---- Which handles a wake takes ----

  /** Of two handles in `q`, `x` goes first: it is more urgent, or as urgent and earlier. */
  predicate GoesFirst(q: seq<TaskHandle>, x: TaskHandle, y: TaskHandle) {
    x.prio > y.prio || (x.prio == y.prio && Ahead(q, x, y))
  }

  lemma EarliestGoesFirst(q: seq<TaskHandle>, y: TaskHandle)
    requires q != [] && y in RemoveAt(q, Earliest(q))
    ensures GoesFirst(q, q[Earliest(q)], y)
  {
    var i := Earliest(q);
    var r := RemoveAt(q, i);
    var j :| 0 <= j < |r| && r[j] == y;
    assert q[if j < i then j else j + 1] == y;
  }

  lemma GoesFirstInRest(q: seq<TaskHandle>, i: nat, x: TaskHandle, y: TaskHandle)
    requires i < |q| && GoesFirst(RemoveAt(q, i), x, y)
    ensures GoesFirst(q, x, y)
  {
    var r := RemoveAt(q, i);
    if x.prio == y.prio {
      var a, b :| 0 <= a < b < |r| && r[a] == x && r[b] == y;
      assert q[if a < i then a else a + 1] == x && q[if b < i then b else b + 1] == y;
    }
  }

  /** A wake of `n` takes `min(n, |q|)` handles and leaves the others. */
  lemma {:induction false} PopsCount(q: seq<TaskHandle>, n: nat)
    ensures |Pops(q, n).0| == if n <= |q| then n else |q|
    ensures |Pops(q, n).0| + |Pops(q, n).1| == |q|
    ensures forall h :: h in q <==> h in Pops(q, n).0 || h in Pops(q, n).1
  {
    if n > 0 && q != [] { PopsCount(RemoveAt(q, Earliest(q)), n - 1); }
  }

  /** It takes them before any that it leaves: more urgent ones, and earlier ones among equals. */
  lemma {:induction false} PopsMostUrgent(q: seq<TaskHandle>, n: nat, x: TaskHandle, y: TaskHandle)
    requires x in Pops(q, n).0 && y in Pops(q, n).1
    ensures GoesFirst(q, x, y)
  {
    if n > 0 && q != [] {
      var k := Earliest(q);
      var rest := RemoveAt(q, k);
      PopsCount(rest, n - 1);
      if x in Pops(rest, n - 1).0 {
        PopsMostUrgent(rest, n - 1, x, y);
        GoesFirstInRest(q, k, x, y);
      } else {
        EarliestGoesFirst(q, y);
      }
    }
  }

  /** It takes them in the same order. */
  lemma {:induction false} PopsInOrder(q: seq<TaskHandle>, n: nat, i: nat, j: nat)
    requires i < j < |Pops(q, n).0|
    ensures GoesFirst(q, Pops(q, n).0[i], Pops(q, n).0[j])
  {
    if n > 0 && q != [] {
      var k := Earliest(q);
      var rest := RemoveAt(q, k);
      PopsCount(rest, n - 1);
      var t := Pops(rest, n - 1).0;
      if i > 0 {
        PopsInOrder(rest, n - 1, i - 1, j - 1);
        GoesFirstInRest(q, k, t[i - 1], t[j - 1]);
      } else {
        EarliestGoesFirst(q, t[j - 1]);
      }
    }
  }

  /** `remove` of the only handle of a task. */
  lemma {:induction false} WithoutIds(s: seq<TaskHandle>, h: TaskHandle)
    requires NoDupIds(s) && forall x :: x in s && x.id == h.id ==> x == h
    ensures NoDupIds(Without(s, h))
    ensures forall x :: x in Without(s, h) <==> x in s && x.id != h.id
  {
    if s != [] {
      var t := s[1..];
      WithoutIds(t, h);
      assert s == [s[0]] + t;
      if s[0].id != h.id {
        assert Without(s, h) == [s[0]] + Without(t, h);
        NotIn(t, Without(t, h), s[0].id);
        NoDupIdsCons(s[0], Without(t, h));
      } else {
        assert forall x :: x in t ==> x.id != h.id;
      }
    }
  }

  // ---- The state machine ----

  /** A task that called wait, was parked, and has not returned. */
  datatype Waiter = Waiter(handle: TaskHandle, addr: int, expected: Word, wakeup: Option<Time>)

  /**
   * The parking lot with its history: `popped` are the waiters a wake has taken and that have not yet
   * returned, `zeros` counts the waits that returned 0, `sum` adds up what wakes returned, and
   * `saturated` remembers whether a wake could not return its full count.
   */
  datatype World = World(mem: Memory, queues: Queues, waiters: map<int, Waiter>,
                         popped: set<int>, zeros: nat, sum: int, saturated: bool)

  datatype Op =
    | Store(a: int, v: Word)
    | Wait(h: TaskHandle, a: int, expected: Word, wakeup: Option<Time>)
    | WaitAndSet(h: TaskHandle, a: int, expected: Word, wakeup: Option<Time>, v: Word)
    | Resume(id: int, now: Time)
    | Wake(a: int, count: int)
    | WakeOrSet(a: int, count: int, v: Word)

  const Start: World := World(map[], map[], map[], {}, 0, 0, false)

  /** A task is in one wait at a time; a parked task may be scheduled again at any time. */
  predicate Enabled(w: World, op: Op) {
    match op
    case Wait(h, _, _, _) => h.id !in w.waiters
    case WaitAndSet(h, _, _, _, _) => h.id !in w.waiters
    case Resume(id, _) => id in w.waiters
    case Wake(_, count) => count <= I32_MAX
    case WakeOrSet(_, count, _) => count <= I32_MAX
    case _ => true
  }

  function IdSet(s: seq<TaskHandle>): set<int> {
    set h | h in s :: h.id
  }

  function Enter(w: World, h: TaskHandle, a: int, expected: Word, wakeup: Option<Time>): World {
    w.(queues := Park(w.queues, a, h), waiters := w.waiters[h.id := Waiter(h, a, expected, wakeup)])
  }

  function Rejoin(w: World, id: int, now: Time): (World, Answer)
    requires id in w.waiters
  {
    var me := w.waiters[id];
    var c := Check(w.queues, me.addr, me.handle, me.wakeup, now);
    if c.1.Sleeps? then (w.(queues := c.0), c.1)
    else
      (w.(queues := c.0, waiters := w.waiters - {id}, popped := w.popped - {id},
          zeros := if c.1 == Returns(0) then w.zeros + 1 else w.zeros), c.1)
  }

  function Taken(w: World, a: int, count: int): seq<TaskHandle>
    requires 0 <= count
  {
    Pops(QueueOf(w.queues, a), Limit(QueueOf(w.queues, a), count)).0
  }

  function Release(w: World, a: int, count: int): World
    requires 0 <= count
  {
    var q := QueueOf(w.queues, a);
    var t := Pops(q, Limit(q, count));
    w.(queues := if a in w.queues then SetQueue(w.queues, a, t.1) else w.queues,
       popped := w.popped + IdSet(t.0), sum := w.sum + Saturate(|t.0|),
       saturated := w.saturated || |t.0| > I32_MAX)
  }

  function Step(w: World, op: Op): (World, Answer)
    requires Enabled(w, op)
  {
    match op
    case Store(a, v) => (w.(mem := w.mem[a := v]), Returns(0))
    case Wait(h, a, expected, wakeup) =>
      if Load(w.mem, a) != expected then (w, Returns(-EAGAIN)) else (Enter(w, h, a, expected, wakeup), Sleeps)
    case WaitAndSet(h, a, expected, wakeup, v) =>
      var w1 := w.(mem := w.mem[a := v]);
      if Load(w.mem, a) != expected then (w1, Returns(-EAGAIN)) else (Enter(w1, h, a, expected, wakeup), Sleeps)
    case Resume(id, now) => Rejoin(w, id, now)
    case Wake(a, count) =>
      if count < 0 then (w, Returns(-EINVAL)) else (Release(w, a, count), Returns(Saturate(|Taken(w, a, count)|)))
    case WakeOrSet(a, count, v) =>
      if count < 0 then (w, Returns(-EINVAL))
      else
        var w1 := Release(w, a, count);
        (if Taken(w, a, count) == [] then w1.(mem := w.mem[a := v]) else w1, Returns(Saturate(|Taken(w, a, count)|)))
  }

  /** Waiter `id` is still queued. */
  predicate Parked(w: World, id: int) {
    id in w.waiters && w.waiters[id].handle in QueueOf(w.queues, w.waiters[id].addr)
  }

  ghost predicate QueuesOk(w: World) {
    && (forall a :: a in w.queues ==> w.queues[a] != [])
    && (forall a :: NoDupIds(QueueOf(w.queues, a)))
    && (forall a, h :: h in QueueOf(w.queues, a) ==>
          h.id in w.waiters && w.waiters[h.id].handle == h && w.waiters[h.id].addr == a)
    && (forall id :: id in w.waiters ==> w.waiters[id].handle.id == id)
    && (forall id :: id in w.waiters ==> (id in w.popped <==> !Parked(w, id)))
    && w.popped <= w.waiters.Keys
  }

  predicate Counted(w: World) {
    w.sum <= w.zeros + |w.popped| && (!w.saturated ==> w.sum == w.zeros + |w.popped|)
  }

  ghost predicate Inv(w: World) {
    QueuesOk(w) && Counted(w)
  }

  // ---- The invariant is kept ----

  lemma EnterKeeps(w: World, h: TaskHandle, a: int, expected: Word, wakeup: Option<Time>)
    requires Inv(w) && h.id !in w.waiters
    ensures Inv(Enter(w, h, a, expected, wakeup))
  {
    var w' := Enter(w, h, a, expected, wakeup);
    var q := QueueOf(w.queues, a);
    assert !HasId(q, h.id) by { forall i | 0 <= i < |q| ensures q[i].id != h.id { assert q[i] in q; } }
    NoDupIdsPush(q, h);
    assert QueueOf(w'.queues, a) == q + [h];
    assert forall b :: b != a ==> QueueOf(w'.queues, b) == QueueOf(w.queues, b);
    forall b ensures NoDupIds(QueueOf(w'.queues, b)) { assert NoDupIds(QueueOf(w.queues, b)); }
    assert forall id :: id in w.waiters ==> (Parked(w', id) <==> Parked(w, id));
  }

  lemma QueuedIffParked(w: World, id: int)
    requires QueuesOk(w) && id in w.waiters
    ensures Queued(QueueOf(w.queues, w.waiters[id].addr), w.waiters[id].handle) <==> Parked(w, id)
  {
    var q, h := QueueOf(w.queues, w.waiters[id].addr), w.waiters[id].handle;
    if Queued(q, h) {
      var i :| 0 <= i < |q| && Same(q[i], h);
      assert q[i] in q;
    }
  }

  /** Exact outcomes: 0 if and only if a wake took the handle, a time-out if and only if none did. */
  lemma ResumeOutcome(w: World, id: int, now: Time)
    requires QueuesOk(w) && id in w.waiters
    ensures Rejoin(w, id, now).1 ==
      if id in w.popped then Returns(0)
      else if w.waiters[id].wakeup.Some? && w.waiters[id].wakeup.value <= now then Returns(-ETIMEDOUT)
      else Sleeps
  {
    QueuedIffParked(w, id);
  }

  /** Whatever the outcome, exactly the returning waiter leaves its queue. */
  lemma ResumeQueues(w: World, id: int, now: Time, b: int)
    requires QueuesOk(w) && id in w.waiters
    ensures var r := Rejoin(w, id, now);
      && NoDupIds(QueueOf(r.0.queues, b))
      && forall x :: x in QueueOf(r.0.queues, b) <==> x in QueueOf(w.queues, b) && (x.id != id || r.1.Sleeps?)
  {
    ResumeOutcome(w, id, now);
    QueuedIffParked(w, id);
    var me := w.waiters[id];
    var q := QueueOf(w.queues, me.addr);
    assert NoDupIds(q) && NoDupIds(QueueOf(w.queues, b));
    WithoutIds(q, me.handle);
    WithoutShrinks(q, me.handle);
    assert forall x :: x in QueueOf(w.queues, b) && x.id == id ==> x == me.handle && b == me.addr;
  }

  lemma ResumeKeeps(w: World, id: int, now: Time)
    requires Inv(w) && id in w.waiters
    ensures Inv(Rejoin(w, id, now).0)
  {
    var w' := Rejoin(w, id, now).0;
    ResumeCounts(w, id, now);
    forall b ensures NoDupIds(QueueOf(w'.queues, b)) { ResumeQueues(w, id, now, b); }
    forall b, x | x in QueueOf(w'.queues, b)
      ensures x.id in w'.waiters && w'.waiters[x.id].handle == x && w'.waiters[x.id].addr == b
    {
      ResumeQueues(w, id, now, b);
    }
    forall x | x in w'.waiters ensures x in w'.popped <==> !Parked(w', x) {
      ResumeQueues(w, id, now, w.waiters[x].addr);
    }
  }

  lemma ResumeCounts(w: World, id: int, now: Time)
    requires Inv(w) && id in w.waiters
    ensures Counted(Rejoin(w, id, now).0) && Rejoin(w, id, now).0.popped <= Rejoin(w, id, now).0.waiters.Keys
  {
    ResumeOutcome(w, id, now);
    assert id !in w.popped ==> w.popped - {id} == w.popped;
  }

  lemma {:induction false} IdSetSize(s: seq<TaskHandle>)
    requires NoDupIds(s)
    ensures |IdSet(s)| == |s|
  {
    if s != [] {
      IdSetSize(s[1..]);
      assert s == [s[0]] + s[1..];
      assert IdSet(s) == {s[0].id} + IdSet(s[1..]);
      assert s[0].id !in IdSet(s[1..]);
    }
  }

  lemma RestNoDup(q: seq<TaskHandle>, k: nat)
    requires NoDupIds(q) && k < |q|
    ensures NoDupIds(RemoveAt(q, k))
  {}

  lemma OthersDiffer(q: seq<TaskHandle>, k: nat)
    requires NoDupIds(q) && k < |q|
    ensures forall x :: x in RemoveAt(q, k) ==> x.id != q[k].id
  {
    NoDupIdsDrop(q, k);
  }

  lemma TakenFirst(h: TaskHandle, t: seq<TaskHandle>, left: seq<TaskHandle>)
    requires NoDupIds(t + left)
    requires forall x :: x in t || x in left ==> x.id != h.id
    ensures NoDupIds(([h] + t) + left)
  {
    var all := t + left;
    forall i | 0 <= i < |all| ensures all[i].id != h.id { assert all[i] in t || all[i] in left; }
    NoDupIdsCons(h, all);
    assert ([h] + t) + left == [h] + all;
  }

  ghost predicate Once(r: (seq<TaskHandle>, seq<TaskHandle>)) {
    NoDupIds(r.0 + r.1)
  }

  lemma PopsOnceStep(q: seq<TaskHandle>, n: nat, k: nat)
    requires NoDupIds(q) && n > 0 && q != [] && k == Earliest(q)
    requires Once(Pops(RemoveAt(q, k), n - 1))
    ensures Once(Pops(q, n))
  {
    var rest := Pops(RemoveAt(q, k), n - 1);
    PopsCount(RemoveAt(q, k), n - 1);
    OthersDiffer(q, k);
    TakenFirst(q[k], rest.0, rest.1);
  }

  lemma NothingTaken(q: seq<TaskHandle>, n: nat)
    requires NoDupIds(q) && (n == 0 || q == [])
    ensures Once(Pops(q, n))
  {
    assert [] + q == q;
  }

  lemma {:induction false} PopsOnce(q: seq<TaskHandle>, n: nat)
    requires NoDupIds(q)
    ensures Once(Pops(q, n))
    decreases n
  {
    if n == 0 || q == [] {
      NothingTaken(q, n);
    } else {
      var k := Earliest(q);
      RestNoDup(q, k);
      PopsOnce(RemoveAt(q, k), n - 1);
      PopsOnceStep(q, n, k);
    }
  }

  /** No task is taken twice, and none is both taken and left. */
  lemma PopsApart(t: seq<TaskHandle>, left: seq<TaskHandle>)
    requires NoDupIds(t + left)
    ensures NoDupIds(t) && NoDupIds(left)
    ensures forall x, y :: x in t && y in left ==> x.id != y.id
  {
    var all := t + left;
    assert forall i :: 0 <= i < |t| ==> all[i] == t[i];
    assert forall i :: 0 <= i < |left| ==> all[|t| + i] == left[i];
    forall x, y | x in t && y in left ensures x.id != y.id {
      var i :| 0 <= i < |t| && t[i] == x;
      var j :| 0 <= j < |left| && left[j] == y;
      assert all[i] == x && all[|t| + j] == y;
    }
  }

  lemma PopsNoDup(q: seq<TaskHandle>, n: nat)
    requires NoDupIds(q)
    ensures NoDupIds(Pops(q, n).0) && NoDupIds(Pops(q, n).1)
    ensures forall x, y :: x in Pops(q, n).0 && y in Pops(q, n).1 ==> x.id != y.id
  {
    PopsOnce(q, n);
    PopsApart(Pops(q, n).0, Pops(q, n).1);
  }

  lemma ReleaseQueues(w: World, a: int, count: int)
    requires QueuesOk(w) && 0 <= count
    ensures var w' := Release(w, a, count);
      && QueueOf(w'.queues, a) == Pops(QueueOf(w.queues, a), Limit(QueueOf(w.queues, a), count)).1
      && (forall b :: b != a ==> QueueOf(w'.queues, b) == QueueOf(w.queues, b))
      && (forall b :: b in w'.queues ==> w'.queues[b] != [])
  {}

  /** The waiters a wake takes are no longer parked, all others are as before. */
  lemma ReleaseParks(w: World, a: int, count: int, id: int)
    requires QueuesOk(w) && 0 <= count && id in w.waiters
    ensures Parked(Release(w, a, count), id) <==> Parked(w, id) && id !in IdSet(Taken(w, a, count))
    ensures id in IdSet(Taken(w, a, count)) ==> Parked(w, id)
  {
    ReleaseQueues(w, a, count);
    var q := QueueOf(w.queues, a);
    var n := Limit(q, count);
    assert NoDupIds(q);
    PopsCount(q, n);
    if id in IdSet(Taken(w, a, count)) {
      var h :| h in Taken(w, a, count) && h.id == id;
      assert h in q;
      PopsNoDup(q, n);
    }
  }

  lemma ReleaseCounts(w: World, a: int, count: int)
    requires Inv(w) && 0 <= count
    ensures Counted(Release(w, a, count)) && Release(w, a, count).popped <= w.waiters.Keys
  {
    var q, t := QueueOf(w.queues, a), Taken(w, a, count);
    assert NoDupIds(q);
    PopsNoDup(q, Limit(q, count));
    PopsCount(q, Limit(q, count));
    IdSetSize(t);
    forall h | h in t ensures h.id in w.waiters && h.id !in w.popped {
      assert h in q;
      assert Parked(w, h.id);
    }
    assert w.popped !! IdSet(t);
  }

  lemma ReleaseKeeps(w: World, a: int, count: int)
    requires Inv(w) && 0 <= count
    ensures Inv(Release(w, a, count))
  {
    var w' := Release(w, a, count);
    ReleaseQueues(w, a, count);
    ReleaseCounts(w, a, count);
    var q := QueueOf(w.queues, a);
    assert NoDupIds(q);
    PopsNoDup(q, Limit(q, count));
    PopsCount(q, Limit(q, count));
    forall b ensures NoDupIds(QueueOf(w'.queues, b)) { assert NoDupIds(QueueOf(w.queues, b)); }
    forall b, h | h in QueueOf(w'.queues, b) ensures h in QueueOf(w.queues, b) {}
    forall id | id in w'.waiters ensures id in w'.popped <==> !Parked(w', id) { ReleaseParks(w, a, count, id); }
  }

  lemma MemoryKeeps(w: World, mem: Memory)
    requires Inv(w)
    ensures Inv(w.(mem := mem))
  {
    assert forall id :: Parked(w.(mem := mem), id) <==> Parked(w, id);
  }

  lemma StepKeeps(w: World, op: Op)
    requires Inv(w) && Enabled(w, op)
    ensures Inv(Step(w, op).0)
  {
    match op
    case Store(a, v) => MemoryKeeps(w, w.mem[a := v]);
    case Wait(h, a, expected, wakeup) => EnterKeeps(w, h, a, expected, wakeup);
    case WaitAndSet(h, a, expected, wakeup, v) =>
      MemoryKeeps(w, w.mem[a := v]);
      EnterKeeps(w.(mem := w.mem[a := v]), h, a, expected, wakeup);
    case Resume(id, now) => ResumeKeeps(w, id, now);
    case Wake(a, count) => if count >= 0 { ReleaseKeeps(w, a, count); }
    case WakeOrSet(a, count, v) =>
      if count >= 0 {
        ReleaseKeeps(w, a, count);
        MemoryKeeps(Release(w, a, count), w.mem[a := v]);
      }
  }

  // ---- Runs ----

  predicate Follows(w: World, op: Op, w': World) {
    Enabled(w, op) && Step(w, op).0 == w'
  }

  ghost predicate Run(ws: seq<World>, ops: seq<Op>) {
    && |ws| == |ops| + 1
    && ws[0] == Start
    && forall i :: 0 <= i < |ops| ==> Follows(ws[i], ops[i], ws[i + 1])
  }

  /** In every run no queue is empty, and a waiter is queued, once, exactly until a wake takes it. */
  lemma {:induction false} RunsKeepInv(ws: seq<World>, ops: seq<Op>, n: nat)
    requires Run(ws, ops) && n < |ws|
    ensures Inv(ws[n])
  {
    if n > 0 {
      RunsKeepInv(ws, ops, n - 1);
      assert Follows(ws[n - 1], ops[n - 1], ws[n - 1 + 1]);
      StepKeeps(ws[n - 1], ops[n - 1]);
    }
  }

  /** What the wake operation `op` returns, 0 for other operations and for errors. */
  function WakeResult(w: World, op: Op): int {
    if (op.Wake? || op.WakeOrSet?) && Enabled(w, op) && Step(w, op).1.value > 0 then Step(w, op).1.value else 0
  }

  function ZeroReturn(w: World, op: Op): int {
    if op.Resume? && Enabled(w, op) && Step(w, op).1 == Returns(0) then 1 else 0
  }

  function Sum(f: seq<int>, n: nat): int
    requires n <= |f|
  {
    if n == 0 then 0 else Sum(f, n - 1) + f[n - 1]
  }

  /** A quantity that grows by `f[i]` at step `i` is the sum of `f`. */
  lemma {:induction false} Telescope(x: seq<int>, f: seq<int>, n: nat)
    requires |x| == |f| + 1 && x[0] == 0 && n < |x|
    requires forall i :: 0 <= i < |f| ==> x[i + 1] == x[i] + f[i]
    ensures x[n] == Sum(f, n)
  {
    if n > 0 { Telescope(x, f, n - 1); }
  }

  function WakeResults(ws: seq<World>, ops: seq<Op>): (f: seq<int>)
    requires |ws| == |ops| + 1
    ensures |f| == |ops| && forall i :: 0 <= i < |f| ==> f[i] == WakeResult(ws[i], ops[i])
  {
    seq(|ops|, i requires 0 <= i < |ops| => WakeResult(ws[i], ops[i]))
  }

  function ZeroReturns(ws: seq<World>, ops: seq<Op>): (f: seq<int>)
    requires |ws| == |ops| + 1
    ensures |f| == |ops| && forall i :: 0 <= i < |f| ==> f[i] == ZeroReturn(ws[i], ops[i])
  {
    seq(|ops|, i requires 0 <= i < |ops| => ZeroReturn(ws[i], ops[i]))
  }

  /** What the wakes among the first `n` operations returned in all. */
  function WakeTotal(ws: seq<World>, ops: seq<Op>, n: nat): int
    requires |ws| == |ops| + 1 && n <= |ops|
  {
    Sum(WakeResults(ws, ops), n)
  }

  /** How many waits returned 0 in the first `n` operations. */
  function ZeroTotal(ws: seq<World>, ops: seq<Op>, n: nat): int
    requires |ws| == |ops| + 1 && n <= |ops|
  {
    Sum(ZeroReturns(ws, ops), n)
  }

  predicate Saturates(w: World, op: Op) {
    (op.Wake? || op.WakeOrSet?) && 0 <= op.count && |Taken(w, op.a, op.count)| > I32_MAX
  }

  lemma SumIsTotal(ws: seq<World>, ops: seq<Op>, n: nat)
    requires Run(ws, ops) && n < |ws|
    ensures ws[n].sum == WakeTotal(ws, ops, n)
  {
    var x := seq(|ws|, i requires 0 <= i < |ws| => ws[i].sum);
    forall i | 0 <= i < |ops| ensures x[i + 1] == x[i] + WakeResults(ws, ops)[i] { HistoryAt(ws, ops, i); }
    Telescope(x, WakeResults(ws, ops), n);
  }

  lemma ZerosAreTotal(ws: seq<World>, ops: seq<Op>, n: nat)
    requires Run(ws, ops) && n < |ws|
    ensures ws[n].zeros == ZeroTotal(ws, ops, n)
  {
    var x := seq(|ws|, i requires 0 <= i < |ws| => ws[i].zeros as int);
    forall i | 0 <= i < |ops| ensures x[i + 1] == x[i] + ZeroReturns(ws, ops)[i] { HistoryAt(ws, ops, i); }
    Telescope(x, ZeroReturns(ws, ops), n);
  }

  lemma {:induction false} NeverSaturated(ws: seq<World>, ops: seq<Op>, n: nat)
    requires Run(ws, ops) && n < |ws| && forall i :: 0 <= i < n ==> !Saturates(ws[i], ops[i])
    ensures !ws[n].saturated
  {
    if n > 0 {
      NeverSaturated(ws, ops, n - 1);
      HistoryAt(ws, ops, n - 1);
      assert !Saturates(ws[n - 1], ops[n - 1]);
    }
  }

  lemma HistoryAt(ws: seq<World>, ops: seq<Op>, n: nat)
    requires Run(ws, ops) && n < |ops|
    ensures ws[n + 1].sum == ws[n].sum + WakeResult(ws[n], ops[n])
    ensures ws[n + 1].zeros == ws[n].zeros + ZeroReturn(ws[n], ops[n])
    ensures ws[n + 1].saturated <==> ws[n].saturated || Saturates(ws[n], ops[n])
  {
    assert Follows(ws[n], ops[n], ws[n + 1]);
    HistoryStep(ws[n], ops[n]);
  }

  lemma HistoryStep(w: World, op: Op)
    requires Enabled(w, op)
    ensures Step(w, op).0.sum == w.sum + WakeResult(w, op)
    ensures Step(w, op).0.zeros == w.zeros + ZeroReturn(w, op)
    ensures Step(w, op).0.saturated <==> w.saturated || Saturates(w, op)
  {}

  /** The waiters that a wake has taken and that have not returned. */
  function Woken(w: World): set<int> {
    set id | id in w.waiters && !Parked(w, id)
  }

  /**
   * No wake is lost or counted twice: as long as no wake took more than 2^31 - 1 waiters, the results
   * of all wakes add up to the waits that returned 0 and the woken waiters that have not returned.
   */
  lemma WakesAreConserved(ws: seq<World>, ops: seq<Op>, n: nat)
    requires Run(ws, ops) && n < |ws|
    ensures WakeTotal(ws, ops, n) <= ZeroTotal(ws, ops, n) + |Woken(ws[n])|
    ensures (forall i :: 0 <= i < n ==> !Saturates(ws[i], ops[i])) ==>
      WakeTotal(ws, ops, n) == ZeroTotal(ws, ops, n) + |Woken(ws[n])|
  {
    SumIsTotal(ws, ops, n);
    ZerosAreTotal(ws, ops, n);
    RunsKeepInv(ws, ops, n);
    if forall i :: 0 <= i < n ==> !Saturates(ws[i], ops[i]) { NeverSaturated(ws, ops, n); }
    assert Woken(ws[n]) == ws[n].popped;
  }

  /** A wait returns 0 exactly if it was woken, and times out exactly if its time is up and it was not. */
  lemma OutcomesAreExact(ws: seq<World>, ops: seq<Op>, n: nat)
    requires Run(ws, ops) && n < |ops| && ops[n].Resume?
    ensures Enabled(ws[n], ops[n])
    ensures Step(ws[n], ops[n]).1 ==
      if !Parked(ws[n], ops[n].id) then Returns(0)
      else if ws[n].waiters[ops[n].id].wakeup.Some? && ws[n].waiters[ops[n].id].wakeup.value <= ops[n].now
      then Returns(-ETIMEDOUT)
      else Sleeps
  {
    RunsKeepInv(ws, ops, n);
    assert Follows(ws[n], ops[n], ws[n + 1]);
    ResumeOutcome(ws[n], ops[n].id, ops[n].now);
  }

  /** A wake returns how many it was asked for, or how many there were; with 2^31 - 1 it takes them all. */
  lemma WakeTakes(ws: seq<World>, ops: seq<Op>, n: nat)
    requires Run(ws, ops) && n < |ops| && (ops[n].Wake? || ops[n].WakeOrSet?) && ops[n].count >= 0
    ensures Enabled(ws[n], ops[n])
    ensures var waiting, count := |QueueOf(ws[n].queues, ops[n].a)|, ops[n].count;
      && Step(ws[n], ops[n]).1 == Returns(if count <= waiting then count else waiting)
      && |QueueOf(ws[n + 1].queues, ops[n].a)| ==
           if count == 0x7FFF_FFFF || waiting <= count then 0 else waiting - count
  {
    RunsKeepInv(ws, ops, n);
    assert Follows(ws[n], ops[n], ws[n + 1]);
    var q := QueueOf(ws[n].queues, ops[n].a);
    PopsCount(q, Limit(q, ops[n].count));
    ReleaseQueues(ws[n], ops[n].a, ops[n].count);
  }

  // ---- From the call to the return ----

  predicate IsWait(op: Op) {
    op.Wait? || op.WaitAndSet?
  }

  /** The wake operation `op` takes the task `id` from its queue. */
  predicate Takes(w: World, op: Op, id: int) {
    (op.Wake? || op.WakeOrSet?) && op.count >= 0 && id in IdSet(Taken(w, op.a, op.count))
  }

  /** A waiter keeps its arguments until it returns, and its place until a wake takes it. */
  lemma WaiterStep(w: World, op: Op, id: int)
    requires Inv(w) && Enabled(w, op) && id in w.waiters
    requires op.Resume? && op.id == id ==> Step(w, op).1.Sleeps?
    ensures var w' := Step(w, op).0;
      && id in w'.waiters && w'.waiters[id] == w.waiters[id]
      && (Parked(w', id) <==> Parked(w, id) && !Takes(w, op, id))
  {
    match op
    case Resume(x, now) => ResumeQueues(w, x, now, w.waiters[id].addr);
    case Wake(a, count) => if count >= 0 { ReleaseParks(w, a, count, id); }
    case WakeOrSet(a, count, v) =>
      if count >= 0 {
        ReleaseParks(w, a, count, id);
        assert Parked(Step(w, op).0, id) <==> Parked(Release(w, a, count), id);
      }
    case _ =>
  }

  predicate GoesToSleep(w: World, op: Op) {
    Enabled(w, op) && Step(w, op).1.Sleeps?
  }

  /** The task of the wait that entered at `m` has not returned before `n`. */
  ghost predicate WaitsUntil(ws: seq<World>, ops: seq<Op>, m: nat, n: nat)
    requires |ws| == |ops| + 1
  {
    && m < n <= |ops| && IsWait(ops[m]) && GoesToSleep(ws[m], ops[m])
    && forall i :: m < i < n && ops[i].Resume? && ops[i].id == ops[m].h.id ==> GoesToSleep(ws[i], ops[i])
  }

  ghost predicate TakenBetween(ws: seq<World>, ops: seq<Op>, m: nat, n: nat, id: int)
    requires |ws| == |ops| + 1 && n <= |ops|
  {
    exists i :: m < i < n && Takes(ws[i], ops[i], id)
  }

  lemma TakenNext(ws: seq<World>, ops: seq<Op>, m: nat, n: nat, id: int)
    requires |ws| == |ops| + 1 && m < n < |ops|
    ensures TakenBetween(ws, ops, m, n + 1, id) <==> TakenBetween(ws, ops, m, n, id) || Takes(ws[n], ops[n], id)
  {}

  /** The task of the wait `op` is parked with the arguments of `op`, or has been taken. */
  ghost predicate Holds(w: World, op: Op, taken: bool)
    requires IsWait(op)
  {
    && op.h.id in w.waiters
    && w.waiters[op.h.id] == Waiter(op.h, op.a, op.expected, op.wakeup)
    && (Parked(w, op.h.id) <==> !taken)
  }

  lemma WaiterEnters(ws: seq<World>, ops: seq<Op>, m: nat)
    requires Run(ws, ops) && m < |ops| && IsWait(ops[m]) && GoesToSleep(ws[m], ops[m])
    ensures Holds(ws[m + 1], ops[m], false)
  {
    assert Follows(ws[m], ops[m], ws[m + 1]);
    var op, q := ops[m], QueueOf(ws[m].queues, ops[m].a);
    assert QueueOf(ws[m + 1].queues, op.a) == q + [op.h];
  }

  lemma WaiterGoesOn(ws: seq<World>, ops: seq<Op>, op: Op, n: nat, taken: bool)
    requires Run(ws, ops) && n < |ops| && IsWait(op) && Holds(ws[n], op, taken)
    requires ops[n].Resume? && ops[n].id == op.h.id ==> GoesToSleep(ws[n], ops[n])
    ensures Holds(ws[n + 1], op, taken || Takes(ws[n], ops[n], op.h.id))
  {
    assert Follows(ws[n], ops[n], ws[n + 1]);
    RunsKeepInv(ws, ops, n);
    WaiterStep(ws[n], ops[n], op.h.id);
  }

  lemma {:induction false} WaiterUntil(ws: seq<World>, ops: seq<Op>, m: nat, n: nat)
    requires Run(ws, ops) && WaitsUntil(ws, ops, m, n)
    ensures Holds(ws[n], ops[m], TakenBetween(ws, ops, m, n, ops[m].h.id))
    decreases n
  {
    var id := ops[m].h.id;
    if n == m + 1 {
      WaiterEnters(ws, ops, m);
    } else {
      WaiterUntil(ws, ops, m, n - 1);
      WaiterGoesOn(ws, ops, ops[m], n - 1, TakenBetween(ws, ops, m, n - 1, id));
      TakenNext(ws, ops, m, n - 1, id);
    }
  }

  /**
   * From the call to the return: a wait that parked returns 0 if and only if a wake took it in between, times
   * out if and only if none did and the time it was called with has come, and otherwise sleeps on.
   */
  lemma WaitOutcome(ws: seq<World>, ops: seq<Op>, m: nat, n: nat)
    requires Run(ws, ops) && WaitsUntil(ws, ops, m, n) && n < |ops|
    requires ops[n].Resume? && ops[n].id == ops[m].h.id
    ensures Enabled(ws[n], ops[n])
    ensures Step(ws[n], ops[n]).1 ==
      if TakenBetween(ws, ops, m, n, ops[m].h.id) then Returns(0)
      else if ops[m].wakeup.Some? && ops[m].wakeup.value <= ops[n].now then Returns(-110)
      else Sleeps
  {
    OutcomesAreExact(ws, ops, n);
    WaiterUntil(ws, ops, m, n);
  }

  // ---- No lost wake-ups ----

  /** Everyone parked at `a` expects the value `v`. */
  ghost predicate AllExpect(w: World, a: int, v: Word) {
    forall id :: Parked(w, id) && w.waiters[id].addr == a ==> w.waiters[id].expected == v
  }

  lemma ExpectStep(w: World, op: Op, a: int, v: Word)
    requires Inv(w) && Enabled(w, op) && AllExpect(w, a, v) && Load(w.mem, a) == v
    ensures AllExpect(Step(w, op).0, a, v)
  {
    var w' := Step(w, op).0;
    forall id | Parked(w', id) && w'.waiters[id].addr == a ensures w'.waiters[id].expected == v {
      if id in w.waiters { StillParked(w, op, id); }
    }
  }

  /** A parked waiter was parked before the step or has just entered. */
  lemma StillParked(w: World, op: Op, id: int)
    requires Inv(w) && Enabled(w, op) && id in w.waiters && Parked(Step(w, op).0, id)
    ensures Parked(w, id) && Step(w, op).0.waiters[id] == w.waiters[id]
  {
    match op
    case Resume(x, now) => ResumeQueues(w, x, now, w.waiters[id].addr);
    case Wake(a, count) => if count >= 0 { ReleaseParks(w, a, count, id); }
    case WakeOrSet(a, count, v) =>
      if count >= 0 {
        ReleaseParks(w, a, count, id);
        assert Parked(Release(w, a, count), id);
      }
    case _ =>
  }

  lemma WakeAllEmpties(w: World, a: int)
    requires Inv(w)
    ensures QueueOf(Release(w, a, I32_MAX).queues, a) == []
  {
    ReleaseQueues(w, a, I32_MAX);
    PopsCount(QueueOf(w.queues, a), |QueueOf(w.queues, a)|);
  }

  /**
   * No lost wake-ups: after the word was changed to `v` and all waiters were woken, and while it stays
   * `v`, no waiter that checked for another value is parked; whoever checks for another value now does
   * not park.
   */
  lemma {:induction false} NoLostWakeup(ws: seq<World>, ops: seq<Op>, m: nat, n: nat, a: int, v: Word)
    requires Run(ws, ops) && m < n < |ws| && ops[m] == Wake(a, I32_MAX)
    requires forall i :: m <= i <= n ==> Load(ws[i].mem, a) == v
    ensures AllExpect(ws[n], a, v)
    ensures n < |ops| && ops[n].Wait? && ops[n].a == a && ops[n].expected != v ==>
      Enabled(ws[n], ops[n]) && Step(ws[n], ops[n]) == (ws[n], Returns(-EAGAIN))
    decreases n
  {
    if m == n - 1 {
      ExpectAfterWakeAll(ws, ops, m, a, v);
    } else {
      NoLostWakeup(ws, ops, m, n - 1, a, v);
      ExpectAt(ws, ops, n - 1, a, v);
    }
    if n < |ops| { AgainAt(ws, ops, n, a, v); }
  }

  lemma ExpectAfterWakeAll(ws: seq<World>, ops: seq<Op>, m: nat, a: int, v: Word)
    requires Run(ws, ops) && m < |ops| && ops[m] == Wake(a, I32_MAX)
    ensures AllExpect(ws[m + 1], a, v)
  {
    assert Follows(ws[m], ops[m], ws[m + 1]);
    RunsKeepInv(ws, ops, m);
    WakeAllEmpties(ws[m], a);
  }

  lemma ExpectAt(ws: seq<World>, ops: seq<Op>, n: nat, a: int, v: Word)
    requires Run(ws, ops) && n < |ops| && AllExpect(ws[n], a, v) && Load(ws[n].mem, a) == v
    ensures AllExpect(ws[n + 1], a, v)
  {
    assert Follows(ws[n], ops[n], ws[n + 1]);
    RunsKeepInv(ws, ops, n);
    ExpectStep(ws[n], ops[n], a, v);
  }

  lemma AgainAt(ws: seq<World>, ops: seq<Op>, n: nat, a: int, v: Word)
    requires Run(ws, ops) && n < |ops| && Load(ws[n].mem, a) == v
    ensures ops[n].Wait? && ops[n].a == a && ops[n].expected != v ==>
      Enabled(ws[n], ops[n]) && Step(ws[n], ops[n]) == (ws[n], Returns(-EAGAIN))
  {
    assert Follows(ws[n], ops[n], ws[n + 1]);
  }
}
