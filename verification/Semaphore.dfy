/**
 * The counting semaphore without time limits. Each round of the loop in `acquire` is one attempt. A task
 * that was woken has to attempt again and may find that another task was faster.
 */
module Semaphore {
  import opened Basics
  import opened PriorityLists

  datatype Outcome = Acquired | Spins | Sleeps

  class CountingSemaphore {
    var count: int
    var queue: seq<TaskHandle>
    /** The wake-ups passed to the scheduler, in order. */
    var wakeups: seq<TaskHandle>

    constructor (count: int)
      ensures this.count == count && queue == [] && wakeups == []
    {
      this.count, queue, wakeups := count, [], [];
    }

    /** One round of `acquire`; on several cores a task spins for a while before it sleeps. */
    method Attempt(h: TaskHandle, spin: bool) returns (r: Outcome)
      modifies this`count, this`queue
      ensures (count, queue, r) == Attempted(old(count), old(queue), h, spin)
      ensures old(count) > 0 ==> r.Acquired? && count == old(count) - 1 && queue == old(queue)
      ensures old(count) <= 0 ==> count == old(count)
      ensures old(count) <= 0 && spin ==> r.Spins? && queue == old(queue)
      ensures old(count) <= 0 && !spin ==> r.Sleeps? && queue == old(queue) + [h]
    {
      if count > 0 {
        count := count - 1;
        return Acquired;
      }
      if spin { return Spins; }
      queue := queue + [h];
      return Sleeps;
    }

    method TryAcquire() returns (ok: bool)
      modifies this`count
      ensures ok <==> old(count) > 0
      ensures count == if ok then old(count) - 1 else old(count)
    {
      if count > 0 {
        count := count - 1;
        return true;
      }
      return false;
    }

    method Release()
      modifies this
      ensures (count, queue) == Released(old(count), old(queue))
      ensures count == old(count) + 1
      ensures old(queue) == [] ==> queue == [] && wakeups == old(wakeups)
      ensures old(queue) != [] ==>
        exists k: nat :: IsEarliest(old(queue), k) && wakeups == old(wakeups) + [old(queue)[k]]
                         && queue == RemoveAt(old(queue), k)
    {
      count := count + 1;
      if queue == [] { return; }
      var i := Earliest(queue);
      wakeups := wakeups + [queue[i]];
      queue := RemoveAt(queue, i);
    }
  }

  function Attempted(count: int, queue: seq<TaskHandle>, h: TaskHandle, spin: bool): (int, seq<TaskHandle>, Outcome) {
    if count > 0 then (count - 1, queue, Acquired)
    else if spin then (count, queue, Spins)
    else (count, queue + [h], Sleeps)
  }

  function Released(count: int, queue: seq<TaskHandle>): (int, seq<TaskHandle>) {
    (count + 1, if queue == [] then [] else RemoveAt(queue, Earliest(queue)))
  }

  // ---- Runs ----

  /** `woken` are the tasks that were woken and have not attempted again. */
  datatype World = World(count: int, queue: seq<TaskHandle>, woken: set<int>, acquired: nat, released: nat)

  datatype Op = Attempt(h: TaskHandle, spin: bool) | TryAcquire | Release

  /** A task that sleeps in the queue makes no attempt. */
  predicate Enabled(w: World, op: Op) {
    op.Attempt? ==> !HasId(w.queue, op.h.id)
  }

  function Step(w: World, op: Op): World {
    match op
    case Attempt(h, spin) =>
      var r := Attempted(w.count, w.queue, h, spin);
      if r.2.Spins? then w
      else
        w.(count := r.0, queue := r.1, woken := w.woken - {h.id},
           acquired := if r.2.Acquired? then w.acquired + 1 else w.acquired)
    case TryAcquire => if w.count > 0 then w.(count := w.count - 1, acquired := w.acquired + 1) else w
    case Release =>
      var r := Released(w.count, w.queue);
      w.(count := r.0, queue := r.1, released := w.released + 1,
         woken := if w.queue == [] then w.woken else w.woken + {w.queue[Earliest(w.queue)].id})
  }

  /** Nobody is both asleep and woken; a unit is left over only for someone who has been woken. */
  ghost predicate Inv(w: World, init: int) {
    && w.count == init + w.released - w.acquired
    && (init >= 0 ==> w.count >= 0)
    && NoDupIds(w.queue)
    && (forall h :: h in w.queue ==> h.id !in w.woken)
    && (w.queue != [] ==> w.count <= |w.woken|)
  }

  lemma AttemptKeeps(w: World, init: int, h: TaskHandle, spin: bool)
    requires Inv(w, init) && !HasId(w.queue, h.id)
    ensures Inv(Step(w, Attempt(h, spin)), init)
  {
    assert h.id !in w.woken ==> w.woken - {h.id} == w.woken;
    if w.count <= 0 && !spin { NoDupIdsPush(w.queue, h); }
  }

  lemma ReleaseKeeps(w: World, init: int)
    requires Inv(w, init)
    ensures Inv(Step(w, Release), init)
  {
    if w.queue != [] {
      var i := Earliest(w.queue);
      assert w.queue[i] in w.queue;
      NoDupIdsDrop(w.queue, i);
    }
  }

  predicate Follows(w: World, op: Op, w': World) {
    Enabled(w, op) && Step(w, op) == w'
  }

  ghost predicate Run(ws: seq<World>, ops: seq<Op>, init: int) {
    && |ws| == |ops| + 1
    && ws[0] == World(init, [], {}, 0, 0)
    && forall i :: 0 <= i < |ops| ==> Follows(ws[i], ops[i], ws[i + 1])
  }

  lemma {:induction false} RunsKeepInv(ws: seq<World>, ops: seq<Op>, init: int, n: nat)
    requires Run(ws, ops, init) && n < |ws|
    ensures Inv(ws[n], init)
  {
    if n > 0 {
      RunsKeepInv(ws, ops, init, n - 1);
      assert Follows(ws[n - 1], ops[n - 1], ws[n - 1 + 1]);
      match ops[n - 1]
      case Attempt(h, spin) => AttemptKeeps(ws[n - 1], init, h, spin);
      case TryAcquire =>
      case Release => ReleaseKeeps(ws[n - 1], init);
    }
  }

  /**
   * In every run units are conserved, no more are handed out than there are, and once all woken tasks
   * have attempted again nobody sleeps while a unit is available.
   */
  lemma NoSleeperMissesAUnit(ws: seq<World>, ops: seq<Op>, init: int, n: nat)
    requires Run(ws, ops, init) && n < |ws|
    ensures ws[n].count == init + ws[n].released - ws[n].acquired
    ensures init >= 0 ==> ws[n].acquired <= init + ws[n].released
    ensures ws[n].queue != [] ==> ws[n].count <= |ws[n].woken|
    ensures ws[n].woken == {} && ws[n].count > 0 ==> ws[n].queue == []
  {
    RunsKeepInv(ws, ops, init, n);
  }

  // ---- Who gets a unit next ----

  /**
   * In every run an attempt takes a unit whenever there is one, spinning or not; otherwise it changes nothing
   * while it spins, and then goes to the back of the queue.
   */
  lemma AttemptEffect(ws: seq<World>, ops: seq<Op>, init: int, n: nat)
    requires Run(ws, ops, init) && n < |ops| && ops[n].Attempt?
    ensures ws[n].count > 0 ==>
      ws[n + 1].count == ws[n].count - 1 && ws[n + 1].queue == ws[n].queue && ws[n + 1].acquired == ws[n].acquired + 1
    ensures ws[n].count <= 0 && ops[n].spin ==> ws[n + 1] == ws[n]
    ensures ws[n].count <= 0 && !ops[n].spin ==>
      ws[n + 1].count == ws[n].count && ws[n + 1].queue == ws[n].queue + [ops[n].h]
  {
    assert Follows(ws[n], ops[n], ws[n + 1]);
  }

  lemma OrderStep(w: World, op: Op, a: TaskHandle, b: TaskHandle)
    requires NoDupIds(w.queue) && Ahead(w.queue, a, b) && a.prio >= b.prio && a in Step(w, op).queue
    ensures Ahead(Step(w, op).queue, a, b)
  {
    match op
    case Attempt(h, _) => AheadAfterPush(w.queue, h, a, b);
    case TryAcquire =>
    case Release =>
      var k := Earliest(w.queue);
      AheadAfterTake(w.queue, k, a, b);
      NoDupIdsDrop(w.queue, k);
  }

  /** A sleeper is not woken before one that came earlier and is at least as urgent. */
  lemma {:induction false} NoOvertaking(ws: seq<World>, ops: seq<Op>, init: int, m: nat, n: nat,
                                        a: TaskHandle, b: TaskHandle)
    requires Run(ws, ops, init) && m <= n < |ws| && a.prio >= b.prio
    requires Ahead(ws[m].queue, a, b)
    requires forall i :: m <= i <= n ==> a in ws[i].queue
    ensures Ahead(ws[n].queue, a, b)
  {
    if n > m {
      NoOvertaking(ws, ops, init, m, n - 1, a, b);
      RunsKeepInv(ws, ops, init, n - 1);
      assert Follows(ws[n - 1], ops[n - 1], ws[n - 1 + 1]);
      OrderStep(ws[n - 1], ops[n - 1], a, b);
    }
  }
}
