/** The recursive mutex: a task may acquire it again, and releases it as often as it acquired it. */
module RecursiveMutex {
  import opened Basics
  import opened PriorityLists

  datatype State = State(owner: Option<int>, count: nat, queue: seq<TaskHandle>)

  /** One round of the loop in `acquire`; the flag tells whether the task has the mutex. */
  function Acquired(s: State, h: TaskHandle): (State, bool) {
    if s.owner == Some(h.id) then (s.(count := s.count + 1), true)
    else if s.owner.None? then (s.(owner := Some(h.id), count := 1), true)
    else (s.(queue := s.queue + [h]), false)
  }

  /** `release`, whoever calls it; with the handle that is woken, if any. */
  function Released(s: State): (State, Option<TaskHandle>) {
    var count := if s.count > 0 then s.count - 1 else 0;
    if count > 0 then (s.(count := count), None)
    else if s.queue == [] then (State(None, 0, []), None)
    else
      var i := Earliest(s.queue);
      (State(None, 0, RemoveAt(s.queue, i)), Some(s.queue[i]))
  }

  class Mutex {
    var owner: Option<int>
    var count: nat
    var queue: seq<TaskHandle>

    ghost function View(): State
      reads this
    {
      State(owner, count, queue)
    }

    constructor ()
      ensures View() == State(None, 0, [])
    {
      owner, count, queue := None, 0, [];
    }

    method Acquire(h: TaskHandle) returns (done: bool)
      modifies this
      ensures (View(), done) == Acquired(old(View()), h)
      ensures done <==> old(owner).None? || old(owner) == Some(h.id)
      ensures done ==> owner == Some(h.id) && queue == old(queue)
      ensures done ==> count == if old(owner).None? then 1 else old(count) + 1
      ensures !done ==> owner == old(owner) && count == old(count) && queue == old(queue) + [h]
    {
      if owner.Some? {
        if owner.value == h.id {
          count := count + 1;
          return true;
        }
      } else {
        owner := Some(h.id);
        count := 1;
        return true;
      }
      queue := queue + [h];
      return false;
    }

    /** Frees the mutex at the last level, and wakes the waiter that came first among the most urgent. */
    method Release() returns (wake: Option<TaskHandle>)
      modifies this
      ensures (View(), wake) == Released(old(View()))
      ensures old(count) > 1 ==> owner == old(owner) && count == old(count) - 1 && queue == old(queue) && wake.None?
      ensures old(count) <= 1 ==> owner.None? && count == 0
      ensures old(count) <= 1 && old(queue) == [] ==> queue == [] && wake.None?
      ensures old(count) <= 1 && old(queue) != [] ==>
        exists k: nat :: IsEarliest(old(queue), k) && wake == Some(old(queue)[k]) && queue == RemoveAt(old(queue), k)
    {
      if count > 0 { count := count - 1; }
      if count > 0 { return None; }
      owner := None;
      if queue == [] { return None; }
      var i := Earliest(queue);
      wake := Some(queue[i]);
      queue := RemoveAt(queue, i);
    }
  }

  // ---- Runs ----

  /** `depth` counts the acquires that each task has still to release; `woken` have not attempted again. */
  datatype World = World(s: State, woken: set<int>, depth: map<int, nat>)

  datatype Op = Acquire(h: TaskHandle) | Release(id: int)

  function Depth(w: World, id: int): nat {
    if id in w.depth then w.depth[id] else 0
  }

  predicate Enabled(w: World, op: Op) {
    op.Acquire? ==> !HasId(w.s.queue, op.h.id)
  }

  function Step(w: World, op: Op): World {
    match op
    case Acquire(h) =>
      var r := Acquired(w.s, h);
      World(r.0, w.woken - {h.id}, if r.1 then w.depth[h.id := Depth(w, h.id) + 1] else w.depth)
    case Release(id) =>
      var r := Released(w.s);
      World(r.0, if r.1.Some? then w.woken + {r.1.value.id} else w.woken,
            w.depth[id := if Depth(w, id) > 0 then Depth(w, id) - 1 else 0])
  }

  /** The mutex belongs to the task that has acquired it more often than released it, and to no other. */
  ghost predicate OwnerOk(w: World) {
    && (w.s.owner.Some? <==> w.s.count > 0)
    && forall id :: Depth(w, id) == if w.s.owner == Some(id) then w.s.count else 0
  }

  ghost predicate Inv(w: World) {
    && OwnerOk(w)
    && NoDupIds(w.s.queue)
    && (forall h :: h in w.s.queue ==> h.id !in w.woken && w.s.owner != Some(h.id))
    && (w.s.queue != [] ==> w.s.owner.Some? || w.woken != {})
  }

  lemma AcquireKeeps(w: World, h: TaskHandle)
    requires Inv(w) && !HasId(w.s.queue, h.id)
    ensures Inv(Step(w, Acquire(h)))
  {
    NoDupIdsPush(w.s.queue, h);
    forall x | x in w.s.queue ensures x.id != h.id {
      var i :| 0 <= i < |w.s.queue| && w.s.queue[i] == x;
    }
  }

  /** A release may come from the owner, or when nobody owns the mutex. */
  predicate MayRelease(w: World, id: int) {
    w.s.owner == Some(id) || w.s.owner.None?
  }

  /** Whoever has acquires left to release owns the mutex, as often as it has acquired it. */
  ghost predicate HoldersOk(w: World) {
    forall id :: Depth(w, id) > 0 ==> w.s.owner == Some(id) && w.s.count == Depth(w, id)
  }

  /** Every holder keeps what it holds exactly if the owner releases or nobody owns the mutex. */
  lemma ReleaseKeepsHoldersIff(w: World, id: int)
    requires Inv(w)
    ensures HoldersOk(Step(w, Release(id))) <==> MayRelease(w, id)
    ensures OwnerOk(Step(w, Release(id))) <==> MayRelease(w, id)
  {
    var w' := Step(w, Release(id));
    assert forall x :: x != id ==> Depth(w', x) == Depth(w, x);
    if !MayRelease(w, id) {
      var owner := w.s.owner.value;
      assert Depth(w', owner) == Depth(w, owner) == w.s.count;
      assert w'.s.count < w.s.count;
    } else {
      assert OwnerOk(w');
    }
  }

  lemma ReleaseKeeps(w: World, id: int)
    requires Inv(w) && MayRelease(w, id)
    ensures Inv(Step(w, Release(id)))
  {
    ReleaseKeepsHoldersIff(w, id);
    if w.s.queue != [] {
      var i := Earliest(w.s.queue);
      assert w.s.queue[i] in w.s.queue;
      NoDupIdsDrop(w.s.queue, i);
    }
  }

  /** A release by another task leaves the mutex free while its holder still relies on it. */
  lemma ReleaseByOther(w: World, id: int, other: TaskHandle)
    requires Inv(w) && w.s.owner == Some(id) && w.s.count == 1 && w.s.queue == [] && other.id != id
    ensures var w1 := Step(w, Release(other.id));
      && w1.s.owner.None? && Depth(w1, id) == 1
      && Enabled(w1, Acquire(other)) && Step(w1, Acquire(other)).s.owner == Some(other.id)
  {}

  predicate Follows(w: World, op: Op, w': World) {
    Enabled(w, op) && (op.Release? ==> MayRelease(w, op.id)) && Step(w, op) == w'
  }

  /** Runs in which nobody releases what another task owns. */
  ghost predicate Run(ws: seq<World>, ops: seq<Op>) {
    && |ws| == |ops| + 1
    && ws[0] == World(State(None, 0, []), {}, map[])
    && forall i :: 0 <= i < |ops| ==> Follows(ws[i], ops[i], ws[i + 1])
  }

  lemma {:induction false} RunsKeepInv(ws: seq<World>, ops: seq<Op>, n: nat)
    requires Run(ws, ops) && n < |ws|
    ensures Inv(ws[n])
  {
    if n > 0 {
      RunsKeepInv(ws, ops, n - 1);
      assert Follows(ws[n - 1], ops[n - 1], ws[n - 1 + 1]);
      match ops[n - 1]
      case Acquire(h) => AcquireKeeps(ws[n - 1], h);
      case Release(id) => ReleaseKeeps(ws[n - 1], id);
    }
  }

  /**
   * Mutual exclusion and no lost hand-over: at most one task has the mutex, it has it exactly as often
   * as the count says, and while tasks wait the mutex is taken or a woken task is about to take it.
   */
  lemma MutualExclusion(ws: seq<World>, ops: seq<Op>, n: nat, a: int, b: int)
    requires Run(ws, ops) && n < |ws|
    ensures Depth(ws[n], a) > 0 && Depth(ws[n], b) > 0 ==> a == b
    ensures Depth(ws[n], a) > 0 <==> ws[n].s.owner == Some(a)
    ensures ws[n].s.owner == Some(a) ==> ws[n].s.count == Depth(ws[n], a)
    ensures ws[n].s.queue != [] && ws[n].s.owner.None? ==> ws[n].woken != {}
  {
    RunsKeepInv(ws, ops, n);
  }

  // ---- Who gets the mutex next ----

  /**
   * In every run a task that finds the mutex taken goes to the back of the queue, and the last release
   * wakes the waiter that came first among those of the highest priority.
   */
  lemma HandOver(ws: seq<World>, ops: seq<Op>, n: nat)
    requires Run(ws, ops) && n < |ops|
    ensures var s, s' := ws[n].s, ws[n + 1].s;
      && (ops[n].Acquire? && s.owner.Some? && s.owner != Some(ops[n].h.id) ==>
            s' == State(s.owner, s.count, s.queue + [ops[n].h]))
      && (ops[n].Release? && s.count <= 1 && s.queue != [] ==>
            exists k: nat :: IsEarliest(s.queue, k) && s' == State(None, 0, RemoveAt(s.queue, k))
                             && ws[n + 1].woken == ws[n].woken + {s.queue[k].id})
      && (ops[n].Release? && s.count > 1 ==> s'.queue == s.queue && ws[n + 1].woken == ws[n].woken)
  {
    assert Follows(ws[n], ops[n], ws[n + 1]);
    if ops[n].Release? && ws[n].s.count <= 1 && ws[n].s.queue != [] {
      assert IsEarliest(ws[n].s.queue, Earliest(ws[n].s.queue));
    }
  }

  lemma OrderStep(w: World, op: Op, a: TaskHandle, b: TaskHandle)
    requires NoDupIds(w.s.queue) && Ahead(w.s.queue, a, b) && a.prio >= b.prio && a in Step(w, op).s.queue
    ensures Ahead(Step(w, op).s.queue, a, b)
  {
    match op
    case Acquire(h) => AheadAfterPush(w.s.queue, h, a, b);
    case Release(_) =>
      var k := Earliest(w.s.queue);
      AheadAfterTake(w.s.queue, k, a, b);
      NoDupIdsDrop(w.s.queue, k);
  }

  /** A waiter is not woken before one that came earlier and is at least as urgent. */
  lemma {:induction false} NoOvertaking(ws: seq<World>, ops: seq<Op>, m: nat, n: nat, a: TaskHandle, b: TaskHandle)
    requires Run(ws, ops) && m <= n < |ws| && a.prio >= b.prio
    requires Ahead(ws[m].s.queue, a, b)
    requires forall i :: m <= i <= n ==> a in ws[i].s.queue
    ensures Ahead(ws[n].s.queue, a, b)
  {
    if n > m {
      NoOvertaking(ws, ops, m, n - 1, a, b);
      RunsKeepInv(ws, ops, n - 1);
      assert Follows(ws[n - 1], ops[n - 1], ws[n - 1 + 1]);
      OrderStep(ws[n - 1], ops[n - 1], a, b);
    }
  }
}
