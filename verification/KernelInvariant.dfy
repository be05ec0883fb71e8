/**
 * The structural invariant of the scheduler: every task is in exactly the queue its status names, on its
 * own core. The lemmas show that each operation of `KernelState` keeps it.
 */
module KernelInvariant {
  import opened Basics
  import opened PriorityLists
  import opened BlockedQueue
  import opened KernelState

  // ---- One core ----

  function Ids(l: seq<Sleeper>): (r: seq<int>)
    ensures |r| == |l| && forall i :: 0 <= i < |l| ==> r[i] == l[i].task
  {
    seq(|l|, i requires 0 <= i < |l| => l[i].task)
  }

  predicate Here(tasks: TaskMap, id: int, c: nat, s: Status) {
    id in tasks && tasks[id].core == c && tasks[id].status == s
  }

  /** The ready queue holds exactly the ready tasks of the core, each once, in the list of its priority. */
  ghost predicate ReadyOk(tasks: TaskMap, ready: seq<seq<TaskHandle>>, c: nat) {
    && |ready| == NO_PRIORITIES
    && (forall p, h :: 0 <= p < NO_PRIORITIES ==>
          (h in ready[p] <==> Here(tasks, h.id, c, Ready) && h == HandleOf(h.id, tasks[h.id]) && h.prio == p))
    && forall p :: 0 <= p < NO_PRIORITIES ==> NoDup(ready[p])
  }

  ghost predicate BlockedOk(tasks: TaskMap, blocked: seq<Sleeper>, c: nat) {
    && (forall id :: id in Ids(blocked) <==> Here(tasks, id, c, Blocked))
    && NoDup(Ids(blocked))
  }

  ghost predicate FinishedOk(tasks: TaskMap, finished: seq<int>, c: nat) {
    && (forall id :: id in finished <==> Here(tasks, id, c, Invalid))
    && NoDup(finished)
  }

  /** The running or exiting task is the current one; the FPU owner is not retired. */
  ghost predicate CurrentOk(tasks: TaskMap, core: Core, c: nat) {
    && core.idle in tasks && tasks[core.idle] == Task(Idle, 0, c)
    && core.current in tasks && tasks[core.current].core == c && tasks[core.current].status != Invalid
    && core.fpuOwner in tasks && tasks[core.fpuOwner].core == c && tasks[core.fpuOwner].status != Invalid
    && (forall id :: Here(tasks, id, c, Running) || Here(tasks, id, c, Finished) ==> id == core.current)
    && (forall id :: Here(tasks, id, c, Idle) ==> id == core.idle)
  }

  ghost predicate CoreOk(tasks: TaskMap, core: Core, c: nat) {
    && ReadyOk(tasks, core.ready, c)
    && BlockedOk(tasks, core.blocked, c)
    && FinishedOk(tasks, core.finished, c)
    && CurrentOk(tasks, core, c)
  }

  ghost predicate CoresOk(k: Kernel) {
    && (forall c :: 0 <= c < |k.cores| ==> CoreOk(k.tasks, k.cores[c], c))
    && (forall id :: id in k.tasks ==> k.tasks[id].core < |k.cores|)
  }

  /** The two task tables agree on the tasks of core `c`. */
  ghost predicate SameOn(tasks: TaskMap, tasks': TaskMap, c: nat) {
    forall id :: (id in tasks && tasks[id].core == c) || (id in tasks' && tasks'[id].core == c) ==>
      id in tasks && id in tasks' && tasks[id] == tasks'[id]
  }

  lemma CoreFrame(tasks: TaskMap, tasks': TaskMap, core: Core, c: nat)
    requires CoreOk(tasks, core, c) && SameOn(tasks, tasks', c)
    ensures CoreOk(tasks', core, c)
  {
    assert forall id, s :: Here(tasks, id, c, s) <==> Here(tasks', id, c, s);
  }

  /** A step that changes only core `c` and its tasks keeps all cores well-formed if it keeps `c` so. */
  lemma OneCoreChanged(k: Kernel, k': Kernel, c: nat)
    requires CoresOk(k) && c < |k.cores| && |k'.cores| == |k.cores|
    requires forall i :: 0 <= i < |k.cores| && i != c ==>
      SameOn(k.tasks, k'.tasks, i) && k'.cores[i].(wakeups := [], newTasks := []) == k.cores[i].(wakeups := [], newTasks := [])
    requires CoreOk(k'.tasks, k'.cores[c], c)
    requires forall id :: id in k'.tasks ==> k'.tasks[id].core < |k.cores|
    ensures CoresOk(k')
  {
    forall i | 0 <= i < |k.cores| ensures CoreOk(k'.tasks, k'.cores[i], i) {
      if i != c {
        CoreFrame(k.tasks, k'.tasks, k.cores[i], i);
        InputIrrelevant(k'.tasks, k.cores[i], k'.cores[i], i);
      }
    }
  }

  /** The two task tables differ in tasks of core `c` only. */
  ghost predicate OnlyCore(tasks: TaskMap, tasks': TaskMap, c: nat) {
    && (forall id :: id in tasks && tasks[id].core != c ==> id in tasks' && tasks'[id] == tasks[id])
    && (forall id :: id in tasks' && tasks'[id].core != c ==> id in tasks && tasks'[id] == tasks[id])
  }

  lemma LocalChange(k: Kernel, k': Kernel, c: nat)
    requires CoresOk(k) && c < |k.cores| && |k'.cores| == |k.cores|
    requires k'.cores == k.cores[c := k'.cores[c]] && OnlyCore(k.tasks, k'.tasks, c)
    requires CoreOk(k'.tasks, k'.cores[c], c)
    ensures CoresOk(k')
  {
    OneCoreChanged(k, k', c);
  }

  lemma InputIrrelevant(tasks: TaskMap, core: Core, core': Core, c: nat)
    requires CoreOk(tasks, core, c)
    requires core'.(wakeups := [], newTasks := []) == core.(wakeups := [], newTasks := [])
    ensures CoreOk(tasks, core', c)
  {
    var a, b := core.(wakeups := [], newTasks := []), core'.(wakeups := [], newTasks := []);
    assert core'.ready == b.ready == a.ready && core'.blocked == b.blocked == a.blocked;
    assert core'.finished == b.finished == a.finished;
    assert core'.current == b.current == a.current && core'.idle == b.idle == a.idle;
    assert core'.fpuOwner == b.fpuOwner == a.fpuOwner;
  }

  // ---- The ready queue ----

  lemma ReadyPush(tasks: TaskMap, ready: seq<seq<TaskHandle>>, c: nat, id: int, t: Task)
    requires ReadyOk(tasks, ready, c)
    requires t.status == Ready && t.core == c && !Here(tasks, id, c, Ready)
    ensures ReadyOk(tasks[id := t], PushTo(ready, t.prio, HandleOf(id, t)), c)
  {
    var h := HandleOf(id, t);
    var tasks', ready' := tasks[id := t], PushTo(ready, t.prio, h);
    assert forall x :: Here(tasks', x, c, Ready) <==> x == id || Here(tasks, x, c, Ready);
    assert h !in ready[t.prio];
  }

  lemma ReadyPop(tasks: TaskMap, ready: seq<seq<TaskHandle>>, c: nat, p: nat)
    requires ReadyOk(tasks, ready, c) && p < NO_PRIORITIES && ready[p] != []
    ensures var id := ready[p][0].id;
      Here(tasks, id, c, Ready) && tasks[id].prio == p
      && ReadyOk(SetStatus(tasks, id, Running), PopFrom(ready, p), c)
  {
    var h := ready[p][0];
    assert h in ready[p];
    var tasks', ready' := SetStatus(tasks, h.id, Running), PopFrom(ready, p);
    assert forall x :: Here(tasks', x, c, Ready) <==> x != h.id && Here(tasks, x, c, Ready);
    assert ready[p] == [h] + ready[p][1..];
    assert h !in ready[p][1..];
  }

  /** The ready queue is untouched by changes to tasks that are not ready before or after. */
  lemma ReadyFrame(tasks: TaskMap, tasks': TaskMap, ready: seq<seq<TaskHandle>>, c: nat)
    requires ReadyOk(tasks, ready, c)
    requires forall id :: Here(tasks, id, c, Ready) || Here(tasks', id, c, Ready) ==>
      id in tasks && id in tasks' && tasks[id] == tasks'[id]
    ensures ReadyOk(tasks', ready, c)
  {
    assert forall x :: Here(tasks', x, c, Ready) <==> Here(tasks, x, c, Ready);
  }

  // ---- The blocked queue ----

  lemma InsertIds(blocked: seq<Sleeper>, s: Sleeper) returns (p: nat)
    ensures p <= |blocked| && Ids(Insert(blocked, s)) == Ids(blocked)[..p] + [s.task] + Ids(blocked)[p..]
  {
    p := if s.wakeup.None? then |blocked| else InsertPos(blocked, s.wakeup.value);
    var l := Insert(blocked, s);
    assert l == blocked[..p] + [s] + blocked[p..];
    assert forall i :: 0 <= i < |l| ==> l[i] == if i < p then blocked[i] else if i == p then s else blocked[i - 1];
  }

  lemma BlockedInsert(tasks: TaskMap, blocked: seq<Sleeper>, c: nat, id: int, w: Option<Time>)
    requires BlockedOk(tasks, blocked, c) && id in tasks && tasks[id].core == c && tasks[id].status != Blocked
    ensures BlockedOk(SetStatus(tasks, id, Blocked), Insert(blocked, Sleeper(id, w)), c)
  {
    var p := InsertIds(blocked, Sleeper(id, w));
    var ids := Ids(blocked);
    assert ids == ids[..p] + ids[p..];
    assert id !in ids;
    NoDupInsert(ids, p, id);
    assert forall x :: Here(SetStatus(tasks, id, Blocked), x, c, Blocked) <==> x == id || Here(tasks, x, c, Blocked);
  }

  lemma NoDupInsert(s: seq<int>, p: nat, x: int)
    requires NoDup(s) && p <= |s| && x !in s
    ensures NoDup(s[..p] + [x] + s[p..])
  {
    var r := s[..p] + [x] + s[p..];
    forall i, j | 0 <= i < j < |r| ensures r[i] != r[j] {
      assert r[i] == if i < p then s[i] else if i == p then x else s[i - 1];
      assert r[j] == if j < p then s[j] else if j == p then x else s[j - 1];
    }
  }

  lemma IndexOfBlocked(l: seq<Sleeper>, id: int)
    ensures IndexOf(l, id) < |l| <==> id in Ids(l)
  {
    if id in Ids(l) {
      var i :| 0 <= i < |Ids(l)| && Ids(l)[i] == id;
      assert l[i].task == id;
    }
  }

  lemma BlockedRemove(tasks: TaskMap, blocked: seq<Sleeper>, c: nat, i: nat, s: Status)
    requires BlockedOk(tasks, blocked, c) && i < |blocked| && s != Blocked
    ensures var id := blocked[i].task;
      Here(tasks, id, c, Blocked) && BlockedOk(SetStatus(tasks, id, s), RemoveAt(blocked, i), c)
  {
    var id := blocked[i].task;
    var ids := Ids(blocked);
    assert ids[i] in ids;
    assert Ids(RemoveAt(blocked, i)) == RemoveAt(ids, i);
    NoDupRemove(ids, i);
    assert forall x :: Here(SetStatus(tasks, id, s), x, c, Blocked) <==> x != id && Here(tasks, x, c, Blocked);
  }

  lemma NoDupRemove(s: seq<int>, i: nat)
    requires NoDup(s) && i < |s|
    ensures NoDup(RemoveAt(s, i)) && s[i] !in RemoveAt(s, i)
    ensures forall x :: x in RemoveAt(s, i) <==> x in s && x != s[i]
  {
    var r := RemoveAt(s, i);
    forall x ensures x in r <==> x in s && x != s[i] {
      if x in r {
        var j :| 0 <= j < |r| && r[j] == x;
        assert x == s[if j < i then j else j + 1];
      }
    }
  }

  lemma BlockedFrame(tasks: TaskMap, tasks': TaskMap, blocked: seq<Sleeper>, c: nat)
    requires BlockedOk(tasks, blocked, c)
    requires forall id :: Here(tasks, id, c, Blocked) <==> Here(tasks', id, c, Blocked)
    ensures BlockedOk(tasks', blocked, c)
  {}

  lemma FinishedFrame(tasks: TaskMap, tasks': TaskMap, finished: seq<int>, c: nat)
    requires FinishedOk(tasks, finished, c)
    requires forall id :: Here(tasks, id, c, Invalid) <==> Here(tasks', id, c, Invalid)
    ensures FinishedOk(tasks', finished, c)
  {}

  // ---- The current task ----

  /** A task that is neither idle nor retired may change to any status that fits its being current or not. */
  lemma CurrentFrame(tasks: TaskMap, core: Core, c: nat, id: int, s: Status)
    requires CurrentOk(tasks, core, c)
    requires id in tasks && tasks[id].core == c && tasks[id].status != Idle
    requires s != Idle && s != Invalid && (s == Running || s == Finished ==> id == core.current)
    ensures CurrentOk(SetStatus(tasks, id, s), core, c)
  {
    var tasks' := SetStatus(tasks, id, s);
    forall x | Here(tasks', x, c, Running) || Here(tasks', x, c, Finished) ensures x == core.current {
      assert x == id || Here(tasks, x, c, Running) || Here(tasks, x, c, Finished);
    }
    forall x | Here(tasks', x, c, Idle) ensures x == core.idle {
      assert Here(tasks, x, c, Idle);
    }
  }

  /** Changing the status of one task of core `c` to a status with a place of its own. */
  lemma StatusKeepsOthers(k: Kernel, k': Kernel, c: nat, id: int, s: Status)
    requires CoresOk(k) && c < |k.cores| && |k'.cores| == |k.cores|
    requires id in k.tasks && k.tasks[id].core == c && k'.tasks == SetStatus(k.tasks, id, s)
    requires forall i :: 0 <= i < |k.cores| && i != c ==> k'.cores[i] == k.cores[i]
    requires CoreOk(k'.tasks, k'.cores[c], c)
    ensures CoresOk(k')
  {
    OneCoreChanged(k, k', c);
  }

  // ---- Blocking ----

  lemma BlockKeepsCores(k: Kernel, c: nat, w: Option<Time>)
    requires CoresOk(k) && Shape(k, c) && CurrentStatus(k, c) == Running
    ensures BlockCurrent(k, c, w).Next? && CoresOk(BlockCurrent(k, c, w).k)
  {
    var k' := BlockCurrent(k, c, w).k;
    var core := k.cores[c];
    var id := core.current;
    assert k'.tasks == SetStatus(k.tasks, id, Blocked);
    BlockedInsert(k.tasks, core.blocked, c, id, w);
    ReadyFrame(k.tasks, k'.tasks, core.ready, c);
    FinishedFrame(k.tasks, k'.tasks, core.finished, c);
    CurrentFrame(k.tasks, core, c, id, Blocked);
    StatusKeepsOthers(k, k', c, id, Blocked);
  }

  // ---- Waking ----

  lemma WakeOneBlocked(tasks: TaskMap, ready: seq<seq<TaskHandle>>, c: nat, id: int)
    requires ReadyOk(tasks, ready, c) && Here(tasks, id, c, Blocked)
    ensures var r := WakeOne(tasks, ready, id);
      r.0 == SetStatus(tasks, id, Ready) && ReadyOk(r.0, r.1, c)
  {
    ReadyPush(tasks, ready, c, id, tasks[id].(status := Ready));
  }

  /** Taking the blocked task at position `i` to the ready queue keeps the core well-formed. */
  lemma WakeAt(tasks: TaskMap, core: Core, c: nat, i: nat)
    requires CoreOk(tasks, core, c) && i < |core.blocked|
    ensures var id := core.blocked[i].task;
      var r := WakeOne(tasks, core.ready, id);
      && Here(tasks, id, c, Blocked) && r.0 == SetStatus(tasks, id, Ready)
      && CoreOk(r.0, core.(ready := r.1, blocked := RemoveAt(core.blocked, i)), c)
  {
    var id := core.blocked[i].task;
    BlockedRemove(tasks, core.blocked, c, i, Ready);
    WakeOneBlocked(tasks, core.ready, c, id);
    FinishedFrame(tasks, SetStatus(tasks, id, Ready), core.finished, c);
    CurrentFrame(tasks, core, c, id, Ready);
  }

  /** Waking a task succeeds exactly if it is blocked on the core. */
  lemma WakeLocalKeepsCores(k: Kernel, c: nat, id: int)
    requires CoresOk(k) && c < |k.cores|
    ensures Shape(k, c)
    ensures WakeLocal(k, c, id).Panic? <==> !Here(k.tasks, id, c, Blocked)
    ensures WakeLocal(k, c, id).Next? ==> CoresOk(WakeLocal(k, c, id).k)
    ensures WakeLocal(k, c, id).Next? ==> WakeLocal(k, c, id).k.tasks == SetStatus(k.tasks, id, Ready)
  {
    var core := k.cores[c];
    assert CoreOk(k.tasks, core, c);
    IndexOfBlocked(core.blocked, id);
    if Here(k.tasks, id, c, Blocked) {
      WakeAt(k.tasks, core, c, IndexOf(core.blocked, id));
      StatusKeepsOthers(k, WakeLocal(k, c, id).k, c, id, Ready);
    }
  }

  /** The task table after the tasks in `e` were readied. */
  ghost predicate Readied(tasks: TaskMap, tasks': TaskMap, ids: seq<int>) {
    && tasks'.Keys == tasks.Keys
    && forall id :: id in tasks ==> tasks'[id] == if id in ids then tasks[id].(status := Ready) else tasks[id]
  }

  lemma ReadiedCons(tasks: TaskMap, tasks': TaskMap, id: int, ids: seq<int>)
    requires id in tasks && Readied(SetStatus(tasks, id, Ready), tasks', ids)
    ensures Readied(tasks, tasks', [id] + ids)
  {}

  lemma PrefixIsBlocked(tasks: TaskMap, l: seq<Sleeper>, c: nat, e: seq<Sleeper>, r: seq<Sleeper>)
    requires BlockedOk(tasks, l, c) && l == e + r
    ensures forall s :: s in e ==> Here(tasks, s.task, c, Blocked)
  {
    forall s | s in e ensures Here(tasks, s.task, c, Blocked) {
      var i :| 0 <= i < |e| && e[i] == s;
      assert l[i] == s && Ids(l)[i] == s.task;
    }
  }

  /** The tasks in `e` are ready, those in `r` still blocked. */
  ghost predicate PrefixWoken(tasks: TaskMap, core: Core, c: nat, e: seq<Sleeper>, r: seq<Sleeper>)
    requires |core.ready| == NO_PRIORITIES
  {
    var w := WakeAll(tasks, core.ready, e);
    CoreOk(w.0, core.(ready := w.1, blocked := r), c) && Readied(tasks, w.0, Ids(e))
  }

  lemma WakeFirst(tasks: TaskMap, core: Core, c: nat, e: seq<Sleeper>, r: seq<Sleeper>, w: (TaskMap, seq<seq<TaskHandle>>))
    requires |core.ready| == NO_PRIORITIES && e != [] && e[0].task in tasks
    requires w == WakeOne(tasks, core.ready, e[0].task) && w.0 == SetStatus(tasks, e[0].task, Ready)
    requires PrefixWoken(w.0, core.(ready := w.1, blocked := e[1..] + r), c, e[1..], r)
    ensures PrefixWoken(tasks, core, c, e, r)
  {
    assert WakeAll(tasks, core.ready, e) == WakeAll(w.0, w.1, e[1..]);
    ReadiedCons(tasks, WakeAll(w.0, w.1, e[1..]).0, e[0].task, Ids(e[1..]));
    assert Ids(e) == [e[0].task] + Ids(e[1..]);
  }

  /** Readying the first `|e|` blocked tasks leaves the rest blocked. */
  lemma {:induction false} WakePrefix(tasks: TaskMap, core: Core, c: nat, e: seq<Sleeper>, r: seq<Sleeper>)
    requires CoreOk(tasks, core, c) && core.blocked == e + r
    ensures PrefixWoken(tasks, core, c, e, r)
    decreases |e|
  {
    if e == [] {
      assert e + r == r;
    } else {
      WakeAt(tasks, core, c, 0);
      var w := WakeOne(tasks, core.ready, e[0].task);
      assert RemoveAt(core.blocked, 0) == e[1..] + r;
      WakePrefix(w.0, core.(ready := w.1, blocked := e[1..] + r), c, e[1..], r);
      WakeFirst(tasks, core, c, e, r, w);
    }
  }

  lemma HandleWaitingKeepsCores(k: Kernel, c: nat, now: Time)
    requires CoresOk(k) && c < |k.cores| && Sorted(k.cores[c].blocked)
    ensures Shape(k, c) && HandleWaiting(k, c, now).Next? && CoresOk(HandleWaiting(k, c, now).k)
    ensures Readied(k.tasks, HandleWaiting(k, c, now).k.tasks, Ids(Expired(k.cores[c].blocked, now)))
  {
    var core := k.cores[c];
    assert CoreOk(k.tasks, core, c);
    var e, r := Expired(core.blocked, now), Remaining(core.blocked, now);
    ElapsedIsPrefix(core.blocked, now);
    WakePrefix(k.tasks, core, c, e, r);
    PrefixIsBlocked(k.tasks, core.blocked, c, e, r);
    var k' := HandleWaiting(k, c, now).k;
    forall id | id in Ids(e) ensures Here(k.tasks, id, c, Blocked) {
      var i :| 0 <= i < |e| && Ids(e)[i] == id;
      assert e[i] in e;
    }
    LocalChange(k, k', c);
  }

  // ---- New tasks ----

  lemma AdoptKeepsCores(k: Kernel, c: nat, n: NewTask)
    requires CoresOk(k) && c < |k.cores| && n.core == c && n.id !in k.tasks
    ensures Shape(k, c) && CoresOk(Adopt(k, c, n))
  {
    var core := k.cores[c];
    assert CoreOk(k.tasks, core, c);
    var k' := Adopt(k, c, n);
    var t := Task(Ready, n.prio, c);
    ReadyPush(k.tasks, core.ready, c, n.id, t);
    BlockedFrame(k.tasks, k'.tasks, core.blocked, c);
    FinishedFrame(k.tasks, k'.tasks, core.finished, c);
    assert forall x, s :: Here(k'.tasks, x, c, s) && s != Ready ==> Here(k.tasks, x, c, s);
    LocalChange(k, k', c);
  }

  lemma AddCoreKeepsCores(k: Kernel, id: int)
    requires CoresOk(k) && id !in k.tasks
    ensures CoresOk(AddCore(k, id))
  {
    var k' := AddCore(k, id);
    var c := |k.cores|;
    forall i | 0 <= i < |k'.cores| ensures CoreOk(k'.tasks, k'.cores[i], i) {
      if i < c {
        CoreFrame(k.tasks, k'.tasks, k.cores[i], i);
      } else {
        assert forall x, s :: Here(k'.tasks, x, c, s) ==> x == id && s == Idle;
        assert Ids([]) == [];
      }
    }
  }

  // ---- Ending and dispatching tasks ----

  lemma FinishKeepsCores(k: Kernel, c: nat)
    requires CoresOk(k) && Shape(k, c) && CurrentStatus(k, c) == Running
    ensures CoresOk(k.(tasks := SetStatus(k.tasks, k.cores[c].current, Finished)))
  {
    var core := k.cores[c];
    var tasks' := SetStatus(k.tasks, core.current, Finished);
    ReadyFrame(k.tasks, tasks', core.ready, c);
    BlockedFrame(k.tasks, tasks', core.blocked, c);
    FinishedFrame(k.tasks, tasks', core.finished, c);
    CurrentFrame(k.tasks, core, c, core.current, Finished);
    StatusKeepsOthers(k, k.(tasks := tasks'), c, core.current, Finished);
  }

  /** `cleanup_tasks` drops retired tasks only, so everything else keeps its place. */
  lemma ReapKeepsCores(k: Kernel, c: nat)
    requires CoresOk(k) && c < |k.cores|
    ensures CoresOk(Reap(k, c))
  {
    var core := k.cores[c];
    var k' := Reap(k, c);
    assert CoreOk(k.tasks, core, c);
    assert forall id :: id in k.tasks && id !in k'.tasks <==> Here(k.tasks, id, c, Invalid);
    assert forall x, s :: Here(k'.tasks, x, c, s) <==> Here(k.tasks, x, c, s) && s != Invalid;
    ReadyFrame(k.tasks, k'.tasks, core.ready, c);
    BlockedFrame(k.tasks, k'.tasks, core.blocked, c);
    LocalChange(k, k', c);
  }

  /** Pre-emption: the running task goes to the back of its list, the next ready task runs. */
  lemma PreemptCore(tasks: TaskMap, core: Core, c: nat, p: nat)
    requires CoreOk(tasks, core, c) && tasks[core.current].status == Running
    requires p < NO_PRIORITIES && core.ready[p] != []
    ensures var cur, next := core.current, core.ready[p][0].id;
      var tasks' := SetStatus(SetStatus(tasks, cur, Ready), next, Running);
      && Here(tasks, next, c, Ready)
      && CoreOk(tasks', core.(current := next,
                              ready := PushTo(PopFrom(core.ready, p), tasks[cur].prio, HandleOf(cur, tasks[cur]))), c)
  {
    var cur, next := core.current, core.ready[p][0].id;
    ReadyPop(tasks, core.ready, c, p);
    var tasks1 := SetStatus(tasks, next, Running);
    ReadyPush(tasks1, PopFrom(core.ready, p), c, cur, tasks[cur].(status := Ready));
    var tasks' := SetStatus(SetStatus(tasks, cur, Ready), next, Running);
    assert tasks' == SetStatus(tasks1, cur, Ready);
    BlockedFrame(tasks, tasks', core.blocked, c);
    FinishedFrame(tasks, tasks', core.finished, c);
    assert forall x :: Here(tasks', x, c, Running) ==> x == next || (Here(tasks, x, c, Running) && x != cur);
    assert forall x :: Here(tasks', x, c, Finished) ==> Here(tasks, x, c, Finished);
    assert forall x :: Here(tasks', x, c, Idle) ==> Here(tasks, x, c, Idle);
  }

  lemma PreemptKeepsCores(k: Kernel, c: nat)
    requires CoresOk(k) && Shape(k, c) && CurrentStatus(k, c) == Running
    ensures Dispatch(k, c).Next? && CoresOk(Dispatch(k, c).k)
  {
    var core := k.cores[c];
    var top := Top(core.ready);
    if top.Some? && top.value >= k.tasks[core.current].prio {
      PreemptCore(k.tasks, core, c, top.value);
      LocalChange(k, Dispatch(k, c).k, c);
    }
  }

  lemma FinishedPush(tasks: TaskMap, finished: seq<int>, c: nat, id: int)
    requires FinishedOk(tasks, finished, c) && id in tasks && tasks[id].core == c && tasks[id].status != Invalid
    ensures FinishedOk(SetStatus(tasks, id, Invalid), finished + [id], c)
  {
    assert forall x :: Here(SetStatus(tasks, id, Invalid), x, c, Invalid) <==> x == id || Here(tasks, x, c, Invalid);
    assert !Here(tasks, id, c, Invalid);
  }

  /** All of the core but its current task, which has just been retired if it was finished. */
  ghost predicate Between(k: Kernel, c: nat) {
    && c < |k.cores|
    && ReadyOk(k.tasks, k.cores[c].ready, c)
    && BlockedOk(k.tasks, k.cores[c].blocked, c)
    && FinishedOk(k.tasks, k.cores[c].finished, c)
    && k.cores[c].idle in k.tasks && k.tasks[k.cores[c].idle] == Task(Idle, 0, c)
    && k.cores[c].fpuOwner in k.tasks && k.tasks[k.cores[c].fpuOwner].core == c
    && k.tasks[k.cores[c].fpuOwner].status != Invalid
    && (forall id :: !Here(k.tasks, id, c, Running) && !Here(k.tasks, id, c, Finished))
    && (forall id :: Here(k.tasks, id, c, Idle) ==> id == k.cores[c].idle)
  }

  lemma RetireGivesBetween(k: Kernel, c: nat)
    requires CoresOk(k) && Shape(k, c) && CurrentStatus(k, c) != Running
    ensures Between(if CurrentStatus(k, c) == Finished then Retire(k, c) else k, c)
  {
    var core := k.cores[c];
    assert CoreOk(k.tasks, core, c);
    if CurrentStatus(k, c) == Finished {
      var k' := Retire(k, c);
      FinishedPush(k.tasks, core.finished, c, core.current);
      ReadyFrame(k.tasks, k'.tasks, core.ready, c);
      BlockedFrame(k.tasks, k'.tasks, core.blocked, c);
      assert forall x :: Here(k'.tasks, x, c, Running) ==> Here(k.tasks, x, c, Running);
      assert forall x :: Here(k'.tasks, x, c, Finished) ==> Here(k.tasks, x, c, Finished) && x != core.current;
      assert forall x :: Here(k'.tasks, x, c, Idle) ==> Here(k.tasks, x, c, Idle);
    }
  }

  /** Switching to the next ready task completes the core. */
  lemma SwitchToReady(k: Kernel, c: nat, p: nat)
    requires Between(k, c) && p < NO_PRIORITIES && k.cores[c].ready[p] != []
    ensures var next := k.cores[c].ready[p][0].id;
      next in k.tasks && CoreOk(SwitchTo(TakeReady(k, c, p), c, next).tasks, SwitchTo(TakeReady(k, c, p), c, next).cores[c], c)
      && Here(k.tasks, next, c, Ready)
  {
    var core := k.cores[c];
    var next := core.ready[p][0].id;
    ReadyPop(k.tasks, core.ready, c, p);
    var k' := SwitchTo(TakeReady(k, c, p), c, next);
    assert k'.tasks == SetStatus(k.tasks, next, Running);
    BlockedFrame(k.tasks, k'.tasks, core.blocked, c);
    FinishedFrame(k.tasks, k'.tasks, core.finished, c);
    assert forall x :: Here(k'.tasks, x, c, Running) ==> x == next || Here(k.tasks, x, c, Running);
    assert forall x :: Here(k'.tasks, x, c, Finished) ==> Here(k.tasks, x, c, Finished);
    assert forall x :: Here(k'.tasks, x, c, Idle) ==> Here(k.tasks, x, c, Idle);
  }

  /** With nothing ready the idle task completes the core. */
  lemma SwitchToIdle(k: Kernel, c: nat)
    requires Between(k, c)
    ensures var k' := SwitchTo(k, c, k.cores[c].idle); k'.tasks == k.tasks && CoreOk(k'.tasks, k'.cores[c], c)
  {}

  lemma RunNextOk(k: Kernel, c: nat, idling: bool)
    requires Between(k, c)
    requires idling ==> k.cores[c].current == k.cores[c].idle
    ensures RunNext(k, c, idling).Next?
    ensures var k' := RunNext(k, c, idling).k;
      && |k'.cores| == |k.cores| && k'.cores == k.cores[c := k'.cores[c]]
      && OnlyCore(k.tasks, k'.tasks, c) && CoreOk(k'.tasks, k'.cores[c], c)
  {
    var top := Top(k.cores[c].ready);
    if top.Some? { SwitchToReady(k, c, top.value); } else { SwitchToIdle(k, c); }
  }

  /** A task that cannot go on gives way to the next ready task or to the idle task. */
  lemma YieldKeepsCores(k: Kernel, c: nat)
    requires CoresOk(k) && Shape(k, c) && CurrentStatus(k, c) != Running
    ensures Dispatch(k, c).Next? && CoresOk(Dispatch(k, c).k)
  {
    assert CoreOk(k.tasks, k.cores[c], c);
    RetireGivesBetween(k, c);
    var status := CurrentStatus(k, c);
    var k1 := if status == Finished then Retire(k, c) else k;
    assert status == Idle ==> Here(k.tasks, k.cores[c].current, c, Idle);
    RunNextOk(k1, c, status == Idle);
    LocalChange(k, RunNext(k1, c, status == Idle).k, c);
  }

  lemma DispatchKeepsCores(k: Kernel, c: nat)
    requires CoresOk(k) && c < |k.cores|
    ensures Shape(k, c) && Reschedule(k, c).Next? && CoresOk(Reschedule(k, c).k)
  {
    assert CoreOk(k.tasks, k.cores[c], c);
    ReapKeepsCores(k, c);
    var k1 := Reap(k, c);
    assert CoreOk(k1.tasks, k1.cores[c], c);
    if CurrentStatus(k1, c) == Running { PreemptKeepsCores(k1, c); } else { YieldKeepsCores(k1, c); }
  }

  lemma PriorityKeepsCores(k: Kernel, c: nat, prio: Priority)
    requires CoresOk(k) && Shape(k, c) && CurrentStatus(k, c) == Running
    ensures CoresOk(k.(tasks := k.tasks[k.cores[c].current := k.tasks[k.cores[c].current].(prio := prio)]))
  {
    var core := k.cores[c];
    var k' := k.(tasks := k.tasks[core.current := k.tasks[core.current].(prio := prio)]);
    assert forall x, s :: Here(k'.tasks, x, c, s) <==> Here(k.tasks, x, c, s);
    ReadyFrame(k.tasks, k'.tasks, core.ready, c);
    BlockedFrame(k.tasks, k'.tasks, core.blocked, c);
    FinishedFrame(k.tasks, k'.tasks, core.finished, c);
    LocalChange(k, k', c);
  }
}
