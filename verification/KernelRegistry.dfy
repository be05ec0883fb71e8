/**
 * The global tables: TASKS and WAITING_TASKS list exactly the tasks that have not exited, and NO_TASKS
 * counts those that are not idle tasks.
 */
module KernelRegistry {
  import opened Basics
  import opened PriorityLists
  import opened BlockedQueue
  import opened KernelState
  import opened KernelInvariant

  function NewIds(ns: seq<NewTask>): (r: seq<int>)
    ensures |r| == |ns| && forall i :: 0 <= i < |ns| ==> r[i] == ns[i].id
  {
    seq(|ns|, i requires 0 <= i < |ns| => ns[i].id)
  }

  /** Task `id` exists and has not exited. */
  predicate AliveIn(tasks: TaskMap, id: int) {
    id in tasks && tasks[id].status != Finished && tasks[id].status != Invalid
  }

  predicate IdlingIn(tasks: TaskMap, id: int) {
    id in tasks && tasks[id].status == Idle
  }

  predicate Alive(k: Kernel, id: int) {
    AliveIn(k.tasks, id)
  }

  /** Task `id` waits in the input of some core to be taken over. */
  predicate PendingAt(k: Kernel, id: int, c: nat) {
    c < |k.cores| && id in NewIds(k.cores[c].newTasks)
  }

  ghost predicate Pending(k: Kernel, id: int) {
    exists c :: PendingAt(k, id, c)
  }

  predicate Idling(k: Kernel, id: int) {
    IdlingIn(k.tasks, id)
  }

  /** The live tasks that are not idle tasks. */
  function Live(k: Kernel): set<int> {
    set id | id in k.registry && !Idling(k, id)
  }

  ghost predicate NewOk(k: Kernel, c: nat)
    requires c < |k.cores|
  {
    && NoDup(NewIds(k.cores[c].newTasks))
    && forall n :: n in k.cores[c].newTasks ==>
         n.core == c && n.id !in k.tasks && n.id in k.registry && k.registry[n.id].core == c
  }

  /** TASKS lists the tasks that have not exited. */
  ghost predicate Known(k: Kernel) {
    forall id :: id in k.registry <==> Alive(k, id) || Pending(k, id)
  }

  /** WAITING_TASKS has the same entries, and the handles are right. */
  ghost predicate Tables(k: Kernel) {
    && k.waiting.Keys == k.registry.Keys
    && (forall id :: id in k.registry ==> k.registry[id].id == id && k.registry[id].core < |k.cores|)
    && (forall id :: Alive(k, id) ==> id in k.registry && k.registry[id].core == k.tasks[id].core)
  }

  ghost predicate Inputs(k: Kernel) {
    forall c :: 0 <= c < |k.cores| ==> NewOk(k, c)
  }

  predicate Counted(k: Kernel) {
    k.noTasks == |Live(k)|
  }

  ghost predicate RegistryOk(k: Kernel) {
    Known(k) && Tables(k) && Inputs(k) && Counted(k)
  }

  /** No task is created, exits or changes its core. */
  ghost predicate SameLives(tasks: TaskMap, tasks': TaskMap) {
    && (forall id :: id in tasks' ==> id in tasks && tasks'[id].core == tasks[id].core)
    && (forall id :: AliveIn(tasks', id) <==> AliveIn(tasks, id))
    && (forall id :: IdlingIn(tasks', id) <==> IdlingIn(tasks, id))
  }

  ghost predicate SameTables(k: Kernel, k': Kernel) {
    && k'.registry == k.registry && k'.waiting.Keys == k.waiting.Keys && k'.noTasks == k.noTasks
    && |k'.cores| == |k.cores|
    && (forall c :: 0 <= c < |k.cores| ==> k'.cores[c].newTasks == k.cores[c].newTasks)
  }

  /** Nothing is created and nothing exits between the two states. */
  ghost predicate Neutral(k: Kernel, k': Kernel) {
    SameTables(k, k') && SameLives(k.tasks, k'.tasks)
  }

  /** The same new tasks wait in the inputs. */
  lemma SamePending(k: Kernel, k': Kernel)
    requires |k'.cores| == |k.cores|
    requires forall c :: 0 <= c < |k.cores| ==> k'.cores[c].newTasks == k.cores[c].newTasks
    ensures forall id :: Pending(k', id) <==> Pending(k, id)
  {
    assert forall id, c :: PendingAt(k', id, c) <==> PendingAt(k, id, c);
  }

  lemma RegistryFrame(k: Kernel, k': Kernel)
    requires RegistryOk(k) && Neutral(k, k')
    ensures RegistryOk(k')
  {
    SamePending(k, k');
    assert Live(k') == Live(k);
    forall c | 0 <= c < |k'.cores| ensures NewOk(k', c) { assert NewOk(k, c); }
  }

  /** A change of one task between statuses of live, non-idle tasks is neutral. */
  lemma StatusNeutral(tasks: TaskMap, id: int, s: Status)
    requires id in tasks && s in {Ready, Running, Blocked} && tasks[id].status in {Ready, Running, Blocked}
    ensures SameLives(tasks, SetStatus(tasks, id, s))
  {}

  lemma BlockNeutral(k: Kernel, c: nat, wakeup: Option<Time>)
    requires Shape(k, c) && CurrentStatus(k, c) == Running
    ensures Neutral(k, BlockCurrent(k, c, wakeup).k)
  {
    StatusNeutral(k.tasks, k.cores[c].current, Blocked);
  }

  lemma CustomWakeupNeutral(k: Kernel, c: nat, h: TaskHandle)
    requires CoresOk(k) && Shape(k, c) && CustomWakeup(k, c, h).Next?
    ensures Neutral(k, CustomWakeup(k, c, h).k)
  {
    if h.core == c {
      WakeLocalKeepsCores(k, c, h.id);
      StatusNeutral(k.tasks, h.id, Ready);
    }
  }

  lemma TakeWakeupNeutral(k: Kernel, c: nat)
    requires CoresOk(k) && Shape(k, c) && k.cores[c].wakeups != [] && TakeWakeup(k, c).Next?
    ensures Neutral(k, TakeWakeup(k, c).k)
  {
    var core := k.cores[c];
    var k1 := SetCore(k, c, core.(wakeups := core.wakeups[1..]));
    assert CoreOk(k.tasks, core, c);
    LocalChange(k, k1, c);
    WakeLocalKeepsCores(k1, c, core.wakeups[0].id);
    StatusNeutral(k.tasks, core.wakeups[0].id, Ready);
  }

  lemma ReadiedNeutral(tasks: TaskMap, tasks': TaskMap, c: nat, ids: seq<int>)
    requires Readied(tasks, tasks', ids) && forall id :: id in ids ==> Here(tasks, id, c, Blocked)
    ensures SameLives(tasks, tasks')
  {}

  lemma ExpiredAreBlocked(k: Kernel, c: nat, now: Time)
    requires CoresOk(k) && c < |k.cores|
    ensures forall id :: id in Ids(Expired(k.cores[c].blocked, now)) ==> Here(k.tasks, id, c, Blocked)
  {
    var core := k.cores[c];
    var e := Expired(core.blocked, now);
    assert CoreOk(k.tasks, core, c);
    ExpiredMembers(core.blocked, now);
    forall id | id in Ids(e) ensures Here(k.tasks, id, c, Blocked) {
      var i :| 0 <= i < |e| && Ids(e)[i] == id;
      assert e[i] in core.blocked;
      var j :| 0 <= j < |core.blocked| && core.blocked[j] == e[i];
      assert Ids(core.blocked)[j] == id;
    }
  }

  lemma HandleWaitingNeutral(k: Kernel, c: nat, now: Time)
    requires CoresOk(k) && c < |k.cores| && Sorted(k.cores[c].blocked)
    ensures Shape(k, c) && HandleWaiting(k, c, now).Next? && Neutral(k, HandleWaiting(k, c, now).k)
  {
    HandleWaitingKeepsCores(k, c, now);
    ExpiredAreBlocked(k, c, now);
    ReadiedNeutral(k.tasks, HandleWaiting(k, c, now).k.tasks, c, Ids(Expired(k.cores[c].blocked, now)));
  }

  lemma ReapNeutral(k: Kernel, c: nat)
    requires CoresOk(k) && c < |k.cores|
    ensures Neutral(k, Reap(k, c))
  {
    assert CoreOk(k.tasks, k.cores[c], c);
    assert forall id :: id in k.tasks && id !in Reap(k, c).tasks ==> Here(k.tasks, id, c, Invalid);
  }

  lemma PreemptNeutral(k: Kernel, c: nat)
    requires CoresOk(k) && Shape(k, c) && CurrentStatus(k, c) == Running && Preempt(k, c).Next?
    ensures Neutral(k, Preempt(k, c).k)
  {
    var core := k.cores[c];
    assert CoreOk(k.tasks, core, c);
    var top := Top(core.ready);
    if top.Some? && top.value >= k.tasks[core.current].prio {
      PreemptCore(k.tasks, core, c, top.value);
      StatusNeutral(k.tasks, core.current, Ready);
      StatusNeutral(SetStatus(k.tasks, core.current, Ready), core.ready[top.value][0].id, Running);
    }
  }

  lemma RunNextNeutral(k: Kernel, c: nat, idling: bool)
    requires Between(k, c) && RunNext(k, c, idling).Next?
    ensures Neutral(k, RunNext(k, c, idling).k)
  {
    var top := Top(k.cores[c].ready);
    if top.Some? {
      SwitchToReady(k, c, top.value);
      StatusNeutral(k.tasks, k.cores[c].ready[top.value][0].id, Running);
    }
  }

  lemma YieldNeutral(k: Kernel, c: nat)
    requires CoresOk(k) && Shape(k, c) && CurrentStatus(k, c) != Running && Dispatch(k, c).Next?
    ensures Neutral(k, Dispatch(k, c).k)
  {
    RetireGivesBetween(k, c);
    var status := CurrentStatus(k, c);
    if status == Finished {
      assert Neutral(k, Retire(k, c));
      RunNextNeutral(Retire(k, c), c, false);
      NeutralTrans(k, Retire(k, c), Dispatch(k, c).k);
    } else {
      RunNextNeutral(k, c, status == Idle);
    }
  }

  lemma NeutralTrans(a: Kernel, b: Kernel, c: Kernel)
    requires Neutral(a, b) && Neutral(b, c)
    ensures Neutral(a, c)
  {}

  lemma RescheduleNeutral(k: Kernel, c: nat)
    requires CoresOk(k) && c < |k.cores|
    ensures Shape(k, c) && Reschedule(k, c).Next? && Neutral(k, Reschedule(k, c).k)
  {
    DispatchKeepsCores(k, c);
    ReapNeutral(k, c);
    ReapKeepsCores(k, c);
    var k1 := Reap(k, c);
    if CurrentStatus(k1, c) == Running { PreemptNeutral(k1, c); } else { YieldNeutral(k1, c); }
  }

  // ---- Creation and exit ----

  lemma SpawnHereTables(k: Kernel, c: nat, id: int, prio: Priority)
    requires Known(k) && Tables(k) && Shape(k, c) && id !in k.registry && id !in k.tasks
    ensures Known(Spawn(k, c, id, prio, c).k) && Tables(Spawn(k, c, id, prio, c).k)
  {
    var k' := Spawn(k, c, id, prio, c).k;
    SamePending(k, k');
    assert forall x :: Alive(k', x) <==> Alive(k, x) || x == id;
  }

  lemma SpawnHereInputs(k: Kernel, c: nat, id: int, prio: Priority)
    requires Inputs(k) && Counted(k) && Shape(k, c) && id !in k.registry && id !in k.tasks
    ensures Inputs(Spawn(k, c, id, prio, c).k) && Counted(Spawn(k, c, id, prio, c).k)
  {
    var k' := Spawn(k, c, id, prio, c).k;
    assert Live(k') == Live(k) + {id};
    forall i | 0 <= i < |k'.cores| ensures NewOk(k', i) { assert NewOk(k, i); }
  }

  /** What sending a new task to another core does to the inputs. */
  lemma PendingAfterSpawn(k: Kernel, c: nat, id: int, prio: Priority, target: nat)
    requires RegistryOk(k) && Shape(k, c) && target < |k.cores| && target != c
    requires id !in k.registry && id !in k.tasks
    ensures var k' := Spawn(k, c, id, prio, target).k;
      && (forall x :: Pending(k', x) <==> Pending(k, x) || x == id)
      && (forall i :: 0 <= i < |k.cores| ==> NewOk(k', i))
  {
    var k' := Spawn(k, c, id, prio, target).k;
    var ns := k.cores[target].newTasks;
    assert NewIds(ns + [NewTask(id, prio, target)]) == NewIds(ns) + [id];
    assert id !in NewIds(ns) by {
      if id in NewIds(ns) { assert PendingAt(k, id, target); assert Pending(k, id); }
    }
    forall x ensures Pending(k', x) <==> Pending(k, x) || x == id {
      if x == id { assert PendingAt(k', id, target); }
      if Pending(k, x) { var i :| PendingAt(k, x, i); assert PendingAt(k', x, i); }
      if Pending(k', x) && x != id { var i :| PendingAt(k', x, i); assert PendingAt(k, x, i); }
    }
    forall i | 0 <= i < |k.cores| ensures NewOk(k', i) { assert NewOk(k, i); }
  }

  lemma SpawnThere(k: Kernel, c: nat, id: int, prio: Priority, target: nat)
    requires RegistryOk(k) && Shape(k, c) && target < |k.cores| && target != c && id !in k.registry && id !in k.tasks
    ensures RegistryOk(Spawn(k, c, id, prio, target).k)
  {
    PendingAfterSpawn(k, c, id, prio, target);
    assert Live(Spawn(k, c, id, prio, target).k) == Live(k) + {id};
  }

  lemma SpawnKeepsRegistry(k: Kernel, c: nat, id: int, prio: Priority, target: nat)
    requires RegistryOk(k) && Shape(k, c) && target < |k.cores| && id !in k.registry && id !in k.tasks
    ensures RegistryOk(Spawn(k, c, id, prio, target).k)
  {
    if target == c {
      SpawnHereTables(k, c, id, prio);
      SpawnHereInputs(k, c, id, prio);
    } else {
      SpawnThere(k, c, id, prio, target);
    }
  }

  lemma AddCoreTables(k: Kernel, id: int)
    requires Known(k) && Tables(k) && id !in k.registry && id !in k.tasks
    requires forall x :: x in k.tasks ==> k.tasks[x].core < |k.cores|
    ensures Known(AddCore(k, id)) && Tables(AddCore(k, id))
  {
    var k' := AddCore(k, id);
    assert NewIds([]) == [];
    assert forall x, i :: PendingAt(k', x, i) <==> PendingAt(k, x, i);
    assert forall x :: Alive(k', x) <==> Alive(k, x) || x == id;
  }

  lemma AddCoreKeepsRegistry(k: Kernel, id: int)
    requires RegistryOk(k) && id !in k.registry && id !in k.tasks
    requires forall x :: x in k.tasks ==> k.tasks[x].core < |k.cores|
    ensures RegistryOk(AddCore(k, id))
  {
    AddCoreTables(k, id);
    var k' := AddCore(k, id);
    assert Live(k') == Live(k);
    assert NewIds([]) == [];
    forall i | 0 <= i < |k'.cores| ensures NewOk(k', i) { if i < |k.cores| { assert NewOk(k, i); } }
  }

  /** A new task waits at one core only. */
  lemma PendingOnce(k: Kernel, id: int, c: nat, i: nat)
    requires RegistryOk(k) && PendingAt(k, id, c) && PendingAt(k, id, i)
    ensures i == c && id !in k.tasks
  {
    PendingCore(k, id, c);
    PendingCore(k, id, i);
  }

  lemma PendingCore(k: Kernel, id: int, c: nat)
    requires RegistryOk(k) && PendingAt(k, id, c)
    ensures id !in k.tasks && id in k.registry && k.registry[id].core == c
  {
    var ns := k.cores[c].newTasks;
    var j :| 0 <= j < |NewIds(ns)| && NewIds(ns)[j] == id;
    assert NewOk(k, c) && ns[j] in ns;
  }

  /** What taking over a new task does to the inputs. */
  lemma PendingAfterTake(k: Kernel, c: nat)
    requires RegistryOk(k) && Shape(k, c) && k.cores[c].newTasks != []
    ensures var n, k' := k.cores[c].newTasks[0], TakeNewTask(k, c);
      && PendingAt(k, n.id, c)
      && forall x, i :: PendingAt(k', x, i) <==> PendingAt(k, x, i) && x != n.id
  {
    var ns := k.cores[c].newTasks;
    var n, k' := ns[0], TakeNewTask(k, c);
    assert NewOk(k, c);
    assert NewIds(ns) == [n.id] + NewIds(ns[1..]);
    assert PendingAt(k, n.id, c);
    forall x, i ensures PendingAt(k', x, i) <==> PendingAt(k, x, i) && x != n.id {
      if PendingAt(k, n.id, i) { PendingOnce(k, n.id, c, i); }
    }
  }

  lemma NewOkAfterTake(k: Kernel, c: nat, i: nat)
    requires RegistryOk(k) && Shape(k, c) && k.cores[c].newTasks != [] && i < |k.cores|
    ensures NewOk(TakeNewTask(k, c), i)
  {
    PendingAfterTake(k, c);
    var k' := TakeNewTask(k, c);
    assert NewOk(k, i);
    var ns, ns' := k.cores[i].newTasks, k'.cores[i].newTasks;
    assert i == c ==> NewIds(ns') == NewIds(ns)[1..];
    forall m | m in ns' ensures m in ns && m.id != k.cores[c].newTasks[0].id {
      var j :| 0 <= j < |ns'| && ns'[j] == m;
      assert NewIds(ns')[j] == m.id;
      assert PendingAt(k', m.id, i);
    }
  }

  lemma PendingLeft(k: Kernel, k': Kernel, id: int)
    requires forall x, i :: PendingAt(k', x, i) <==> PendingAt(k, x, i) && x != id
    ensures forall x :: Pending(k', x) <==> Pending(k, x) && x != id
  {
    forall x ensures Pending(k', x) <==> Pending(k, x) && x != id {
      if Pending(k, x) && x != id { var i :| PendingAt(k, x, i); assert PendingAt(k', x, i); }
    }
  }

  lemma TakeNewTaskTables(k: Kernel, c: nat)
    requires RegistryOk(k) && Shape(k, c) && k.cores[c].newTasks != []
    ensures Known(TakeNewTask(k, c)) && Tables(TakeNewTask(k, c))
  {
    var n, k' := k.cores[c].newTasks[0], TakeNewTask(k, c);
    assert NewOk(k, c) && n in k.cores[c].newTasks;
    PendingAfterTake(k, c);
    PendingLeft(k, k', n.id);
    assert Pending(k, n.id);
    assert forall x :: Alive(k', x) <==> Alive(k, x) || x == n.id;
  }

  /** A new task is taken over by the core it was meant for. */
  lemma TakeNewTaskKeepsRegistry(k: Kernel, c: nat)
    requires RegistryOk(k) && Shape(k, c) && k.cores[c].newTasks != []
    ensures RegistryOk(TakeNewTask(k, c))
    ensures var n := k.cores[c].newTasks[0]; n.core == c && n.id !in k.tasks
  {
    var n, k' := k.cores[c].newTasks[0], TakeNewTask(k, c);
    assert NewOk(k, c) && n in k.cores[c].newTasks;
    TakeNewTaskTables(k, c);
    forall i | 0 <= i < |k'.cores| ensures NewOk(k', i) { NewOkAfterTake(k, c, i); }
    assert Live(k') == Live(k);
  }

  lemma AliveNotPending(k: Kernel, id: int)
    requires RegistryOk(k) && id in k.tasks
    ensures !Pending(k, id)
  {
    if Pending(k, id) {
      var c :| PendingAt(k, id, c);
      PendingCore(k, id, c);
    }
  }

  lemma ExitTables(k: Kernel, k1: Kernel, k2: Kernel, id: int)
    requires Known(k) && Tables(k) && Alive(k, id) && !Pending(k, id) && Neutral(k1, k2)
    requires k1 == k.(tasks := SetStatus(k.tasks, id, Finished), noTasks := k.noTasks - 1, waiting := k.waiting - {id})
    ensures Known(k2.(registry := k2.registry - {id})) && Tables(k2.(registry := k2.registry - {id}))
  {
    var k' := k2.(registry := k2.registry - {id});
    SamePending(k, k');
    assert forall x :: Alive(k', x) <==> Alive(k, x) && x != id;
  }

  lemma ExitInputs(k: Kernel, k1: Kernel, k2: Kernel, id: int)
    requires Inputs(k) && Counted(k) && Alive(k, id) && !Idling(k, id) && id in k.registry && Neutral(k1, k2)
    requires k1 == k.(tasks := SetStatus(k.tasks, id, Finished), noTasks := k.noTasks - 1, waiting := k.waiting - {id})
    ensures Inputs(k2.(registry := k2.registry - {id})) && Counted(k2.(registry := k2.registry - {id}))
  {
    var k' := k2.(registry := k2.registry - {id});
    assert Live(k') == Live(k) - {id};
    forall c | 0 <= c < |k'.cores| ensures NewOk(k', c) {
      assert NewOk(k, c);
      assert forall n :: n in k.cores[c].newTasks ==> n.id != id;
    }
  }

  /** The exit of task `id`: from its being marked finished to its removal from the tables. */
  lemma ExitKeepsRegistry(k: Kernel, k1: Kernel, k2: Kernel, id: int)
    requires RegistryOk(k) && Alive(k, id) && !Idling(k, id)
    requires k1 == k.(tasks := SetStatus(k.tasks, id, Finished), noTasks := k.noTasks - 1, waiting := k.waiting - {id})
    requires Neutral(k1, k2)
    ensures RegistryOk(k2.(registry := k2.registry - {id}))
  {
    AliveNotPending(k, id);
    ExitTables(k, k1, k2, id);
    ExitInputs(k, k1, k2, id);
  }
}
