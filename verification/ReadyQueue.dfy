/**
 * `PriorityTaskQueue`: the ready queue of one core, an array of lists with a bitmap of the non-empty
 * ones. A queued task is represented by its id, its priority and its core.
 */
module ReadyQueue {
  import opened Basics
  import opened Bitmap
  import opened PriorityLists

  /** The position of the first entry with the given id, `|s|` if there is none. */
  function FirstId(s: seq<TaskHandle>, id: int): (i: nat)
    ensures i <= |s|
    ensures i < |s| ==> s[i].id == id
    ensures forall j :: 0 <= j < i ==> s[j].id != id
  {
    if s == [] then 0 else if s[0].id == id then 0 else 1 + FirstId(s[1..], id)
  }

  /** Moves the first task named by `h` to the end of list `prio`; no effect if it is not queued. */
  function Reprioritize(l: seq<seq<TaskHandle>>, h: TaskHandle, prio: Priority): seq<seq<TaskHandle>>
    requires |l| == NO_PRIORITIES
  {
    var i := FirstId(l[h.prio], h.id);
    if i == |l[h.prio]| then l
    else PushTo(l[h.prio := RemoveAt(l[h.prio], i)], prio, l[h.prio][i].(prio := prio))
  }

  class PriorityTaskQueue {
    const queues: array<seq<TaskHandle>>
    var prioBitmap: nat

    ghost predicate Valid()
      reads this, queues
    {
      && queues.Length == NO_PRIORITIES
      && Agree(prioBitmap, queues[..])
      && forall i, h :: 0 <= i < NO_PRIORITIES && h in queues[i] ==> h.prio == i
    }

    constructor ()
      ensures Valid() && fresh(queues)
      ensures queues[..] == EmptyLists()
    {
      queues := new seq<TaskHandle>[NO_PRIORITIES](_ => []);
      prioBitmap := 0;
      new;
      forall i: nat ensures !Bit(0, i) { BitOfZero(i); }
      assert queues[..] == EmptyLists();
    }

    method Push(task: TaskHandle)
      requires Valid()
      modifies this, queues
      ensures Valid()
      ensures queues[..] == PushTo(old(queues[..]), task.prio, task)
    {
      var i := task.prio;
      AgreePush(prioBitmap, queues[..], i, task);
      prioBitmap := Or(prioBitmap, Shl(i));
      queues[i] := queues[i] + [task];
      assert queues[..] == PushTo(old(queues[..]), i, task);
    }

    method PopFromQueue(queueIndex: nat) returns (task: Option<TaskHandle>)
      requires Valid() && queueIndex < NO_PRIORITIES
      modifies this, queues
      ensures Valid()
      ensures old(queues[queueIndex]) == [] ==> task.None? && queues[..] == old(queues[..])
      ensures old(queues[queueIndex]) != [] ==>
                task == Some(old(queues[queueIndex])[0]) && queues[..] == PopFrom(old(queues[..]), queueIndex)
    {
      var q := queues[queueIndex];
      var rest := if q == [] then [] else q[1..];
      task := if q == [] then None else Some(q[0]);
      AgreeShrink(prioBitmap, queues[..], queueIndex, rest);
      queues[queueIndex] := rest;
      if queues[queueIndex] == [] {
        prioBitmap := AndNot(prioBitmap, Shl(queueIndex));
      }
      assert queues[..] == old(queues[..])[queueIndex := rest];
      assert q == [] ==> queues[..] == old(queues[..]);
      forall h | h in rest ensures h in q {}
    }

    /** Takes the task at `taskIndex` out of list `queueIndex`, `None` if there is no such task. */
    method RemoveFromQueue(taskIndex: nat, queueIndex: nat) returns (element: Option<TaskHandle>)
      requires Valid() && queueIndex < NO_PRIORITIES
      modifies this, queues
      ensures Valid()
      ensures taskIndex >= |old(queues[queueIndex])| ==> element.None? && queues[..] == old(queues[..])
      ensures taskIndex < |old(queues[queueIndex])| ==>
                && element == Some(old(queues[queueIndex])[taskIndex])
                && queues[..] == old(queues[..])[queueIndex := RemoveAt(old(queues[queueIndex]), taskIndex)]
    {
      var q := queues[queueIndex];
      if |q| < taskIndex { return None; }
      var splitList := q[taskIndex..];
      var kept := q[..taskIndex];
      if splitList == [] {
        element := None;
      } else {
        element := Some(splitList[0]);
        splitList := splitList[1..];
      }
      ghost var after := kept + splitList;
      assert element.None? ==> after == q;
      assert element.Some? ==> after == RemoveAt(q, taskIndex);
      AgreeShrink(prioBitmap, queues[..], queueIndex, after);
      queues[queueIndex] := kept + splitList;
      if queues[queueIndex] == [] {
        prioBitmap := AndNot(prioBitmap, Shl(queueIndex));
      }
      assert queues[..] == old(queues[..])[queueIndex := after];
      assert element.None? ==> queues[..] == old(queues[..]);
      assert forall h :: h in after ==> h in q;
    }

    method IsEmpty() returns (empty: bool)
      requires Valid()
      ensures empty <==> forall i :: 0 <= i < NO_PRIORITIES ==> queues[i] == []
    {
      AgreeMsb(prioBitmap, queues[..]);
      empty := prioBitmap == 0;
    }

    /** Takes the longest-waiting task among those of the highest priority. */
    method Pop() returns (task: Option<TaskHandle>)
      requires Valid()
      modifies this, queues
      ensures Valid()
      ensures Top(old(queues[..])).None? ==> task.None? && queues[..] == old(queues[..])
      ensures var top := Top(old(queues[..])); top.Some? ==>
                task == Some(old(queues[..])[top.value][0]) && queues[..] == PopFrom(old(queues[..]), top.value)
    {
      AgreeMsb(prioBitmap, queues[..]);
      var i := Msb(prioBitmap);
      if i.None? { return None; }
      task := PopFromQueue(i.value);
    }

    /** Like `Pop`, but only if the highest priority in the queue is at least `prio`. */
    method PopWithPrio(prio: Priority) returns (task: Option<TaskHandle>)
      requires Valid()
      modifies this, queues
      ensures Valid()
      ensures (Top(old(queues[..])).None? || Top(old(queues[..])).value < prio) ==>
                task.None? && queues[..] == old(queues[..])
      ensures var top := Top(old(queues[..])); top.Some? && top.value >= prio ==>
                task == Some(old(queues[..])[top.value][0]) && queues[..] == PopFrom(old(queues[..]), top.value)
    {
      AgreeMsb(prioBitmap, queues[..]);
      var i := Msb(prioBitmap);
      if i.None? { return None; }
      if i.value < prio { return None; }
      task := PopFromQueue(i.value);
    }

    method GetHighestPriority() returns (prio: Priority)
      requires Valid()
      ensures forall i, h :: 0 <= i < NO_PRIORITIES && h in queues[i] ==> h.prio <= prio
      ensures prio > 0 ==> queues[prio] != []
    {
      AgreeMsb(prioBitmap, queues[..]);
      var i := Msb(prioBitmap);
      prio := if i.None? then 0 else i.value;
    }

    method SetPriority(handle: TaskHandle, prio: Priority) returns (ok: bool)
      requires Valid()
      modifies this, queues
      ensures Valid()
      ensures ok <==> HasId(old(queues[handle.prio]), handle.id)
      ensures queues[..] == Reprioritize(old(queues[..]), handle, prio)
    {
      var q := queues[handle.prio];
      var index := 0;
      while index < |q| && q[index].id != handle.id
        invariant 0 <= index <= |q|
        invariant forall j :: 0 <= j < index ==> q[j].id != handle.id
      {
        index := index + 1;
      }
      if index == |q| { return false; }
      ghost var before := queues[..];
      var task := RemoveFromQueue(index, handle.prio);
      Push(task.value.(prio := prio));
      ok := true;
      assert index == FirstId(q, handle.id);
    }
  }

  // ---- Refinement of the arrival-order reference, over every sequence of operations ----

  datatype Op =
    | OpPush(task: TaskHandle)
    | OpPop
    | OpPopWithPrio(prio: Priority)
    | OpSetPriority(handle: TaskHandle, newPrio: Priority)

  datatype Answer = Done | Popped(task: Option<TaskHandle>) | Changed(ok: bool)

  function StepLists(l: seq<seq<TaskHandle>>, op: Op): (r: (seq<seq<TaskHandle>>, Answer))
    requires |l| == NO_PRIORITIES
    ensures |r.0| == NO_PRIORITIES
  {
    match op
    case OpPush(h) => (PushTo(l, h.prio, h), Done)
    case OpPop =>
      var top := Top(l);
      if top.None? then (l, Popped(None)) else (PopFrom(l, top.value), Popped(Some(l[top.value][0])))
    case OpPopWithPrio(p) =>
      var top := Top(l);
      if top.None? || top.value < p then (l, Popped(None))
      else (PopFrom(l, top.value), Popped(Some(l[top.value][0])))
    case OpSetPriority(h, p) => (Reprioritize(l, h, p), Changed(HasId(l[h.prio], h.id)))
  }

  /** The position of the first arrival that has both the id and the priority of `h`. */
  function FirstQueued(a: seq<TaskHandle>, h: TaskHandle): (i: nat)
    ensures i <= |a|
    ensures i < |a| ==> Same(a[i], h)
    ensures forall j :: 0 <= j < i ==> !Same(a[j], h)
  {
    if a == [] then 0 else if Same(a[0], h) then 0 else 1 + FirstQueued(a[1..], h)
  }

  function StepReference(a: seq<TaskHandle>, op: Op): (seq<TaskHandle>, Answer) {
    match op
    case OpPush(h) => (a + [h], Done)
    case OpPop =>
      if a == [] then (a, Popped(None)) else (RemoveAt(a, Earliest(a)), Popped(Some(a[Earliest(a)])))
    case OpPopWithPrio(p) =>
      if a == [] || a[Earliest(a)].prio < p then (a, Popped(None))
      else (RemoveAt(a, Earliest(a)), Popped(Some(a[Earliest(a)])))
    case OpSetPriority(h, p) =>
      var k := FirstQueued(a, h);
      if k == |a| then (a, Changed(false)) else (RemoveAt(a, k) + [a[k].(prio := p)], Changed(true))
  }

  lemma {:induction false} FirstIdOfPrio(a: seq<TaskHandle>, h: TaskHandle)
    ensures var k := FirstQueued(a, h);
      FirstId(OfPrio(a, h.prio), h.id) == if k == |a| then |OfPrio(a, h.prio)| else |OfPrio(a[..k], h.prio)|
  {
    var k := FirstQueued(a, h);
    var s := OfPrio(a, h.prio);
    if k < |a| {
      RemoveOfPrio(a, k, h.prio);
      SplitAt(a, k, h.prio);
      var x := OfPrio(a[..k], h.prio);
      OfPrioMembers(a[..k], h.prio);
      assert forall j :: 0 <= j < |x| ==> s[j] == x[j] && x[j] in a[..k];
      FirstIdUnique(s, h.id, |x|);
    } else {
      OfPrioMembers(a, h.prio);
      assert forall j :: 0 <= j < |s| ==> s[j] in a;
      FirstIdUnique(s, h.id, |s|);
    }
  }

  lemma FirstIdUnique(s: seq<TaskHandle>, id: int, i: nat)
    requires i <= |s| && (forall j :: 0 <= j < i ==> s[j].id != id) && (i < |s| ==> s[i].id == id)
    ensures FirstId(s, id) == i
  {}

  /** Taking arrival `k` out of the reference takes one entry out of the list of its priority. */
  lemma RemoveOfPrio(a: seq<TaskHandle>, k: nat, p: nat)
    requires k < |a|
    ensures a[k].prio == p ==>
      var i := |OfPrio(a[..k], p)|;
      i < |OfPrio(a, p)| && OfPrio(a, p)[i] == a[k] && OfPrio(RemoveAt(a, k), p) == RemoveAt(OfPrio(a, p), i)
    ensures a[k].prio != p ==> OfPrio(RemoveAt(a, k), p) == OfPrio(a, p)
  {
    SplitAt(a, k, p);
    assert OfPrio(a[..k], p) + [] == OfPrio(a[..k], p);
  }

  lemma SimSetPriority(l: seq<seq<TaskHandle>>, a: seq<TaskHandle>, h: TaskHandle, prio: Priority)
    requires Sim(l, a)
    ensures Sim(Reprioritize(l, h, prio), StepReference(a, OpSetPriority(h, prio)).0)
    ensures HasId(l[h.prio], h.id) <==> FirstQueued(a, h) < |a|
  {
    SimContains(l, a, h);
    var k := FirstQueued(a, h);
    FirstIdOfPrio(a, h);
    if k < |a| {
      RemoveOfPrio(a, k, h.prio);
      var i := |OfPrio(a[..k], h.prio)|;
      var l1 := l[h.prio := RemoveAt(l[h.prio], i)];
      forall p | 0 <= p < NO_PRIORITIES ensures l1[p] == OfPrio(RemoveAt(a, k), p) { RemoveOfPrio(a, k, p); }
      SimPush(l1, RemoveAt(a, k), a[k].(prio := prio));
    }
  }

  lemma StepRefines(l: seq<seq<TaskHandle>>, a: seq<TaskHandle>, op: Op)
    requires Sim(l, a)
    ensures StepLists(l, op).1 == StepReference(a, op).1
    ensures Sim(StepLists(l, op).0, StepReference(a, op).0)
  {
    match op
    case OpPush(h) => SimPush(l, a, h);
    case OpPop => SimTop(l, a); if a != [] { SimPop(l, a); }
    case OpPopWithPrio(p) => SimTop(l, a); if a != [] { SimPop(l, a); }
    case OpSetPriority(h, p) => SimSetPriority(l, a, h, p);
  }

  function RunLists(l: seq<seq<TaskHandle>>, ops: seq<Op>): seq<Answer>
    requires |l| == NO_PRIORITIES
    decreases |ops|
  {
    if ops == [] then [] else [StepLists(l, ops[0]).1] + RunLists(StepLists(l, ops[0]).0, ops[1..])
  }

  function RunReference(a: seq<TaskHandle>, ops: seq<Op>): seq<Answer>
    decreases |ops|
  {
    if ops == [] then [] else [StepReference(a, ops[0]).1] + RunReference(StepReference(a, ops[0]).0, ops[1..])
  }

  /** No sequence of operations tells the 31 lists from a single queue in order of arrival. */
  lemma {:induction false} RunRefines(l: seq<seq<TaskHandle>>, a: seq<TaskHandle>, ops: seq<Op>)
    requires Sim(l, a)
    ensures RunLists(l, ops) == RunReference(a, ops)
    decreases |ops|
  {
    if ops != [] {
      StepRefines(l, a, ops[0]);
      RunRefines(StepLists(l, ops[0]).0, StepReference(a, ops[0]).0, ops[1..]);
    }
  }

  /** In particular from the empty queue. */
  lemma FreshQueueRefines(ops: seq<Op>)
    ensures RunLists(EmptyLists(), ops) == RunReference([], ops)
  {
    SimEmpty();
    RunRefines(EmptyLists(), [], ops);
  }

  /** Re-prioritising a task moves that task alone: every other task keeps its list and its rank in it. */
  lemma OnlyNamedTaskMoves(l: seq<seq<TaskHandle>>, h: TaskHandle, prio: Priority)
    requires |l| == NO_PRIORITIES && HasId(l[h.prio], h.id)
    ensures var i := FirstId(l[h.prio], h.id); var moved := l[h.prio][i].(prio := prio);
      forall p :: 0 <= p < NO_PRIORITIES ==>
        Reprioritize(l, h, prio)[p] ==
          (if p == h.prio then RemoveAt(l[p], i) else l[p]) + (if p == prio then [moved] else [])
  {
    var i := FirstId(l[h.prio], h.id);
    assert RemoveAt(l[h.prio], i) + [] == RemoveAt(l[h.prio], i);
    forall p | 0 <= p < NO_PRIORITIES ensures l[p] + [] == l[p] {}
  }
}
