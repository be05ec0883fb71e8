/** What holds in every run of the kernel, from boot, over all cores and interleavings of steps. */
module KernelRuns {
  import opened Basics
  import opened PriorityLists
  import opened BlockedQueue
  import opened KernelState
  import opened KernelInvariant
  import opened KernelLedger
  import opened KernelRegistry
  import opened KernelSteps

  lemma BootInv()
    ensures Inv(Boot)
  {
    assert Live(Boot) == {};
    assert forall pl :: HandlesAt(Boot, [], pl) == [];
    assert Balanced(At(Boot, []), Sleeping(Boot), map[]);
  }

  /**
   * Every state of every run is well-formed, whether or not the run has timed waits, and NO_TASKS is
   * the number of live tasks that are not idle tasks.
   */
  lemma {:induction false} RunsAreWellFormed(ks: seq<Kernel>, ss: seq<Step>, n: nat)
    requires Run(ks, ss) && n < |ks|
    ensures Base(ks[n]) && ks[n].noTasks == |Live(ks[n])|
  {
    if n == 0 {
      BootInv();
    } else {
      RunsAreWellFormed(ks, ss, n - 1);
      assert Follows(ks[n - 1], ss[n - 1], ks[n - 1 + 1]);
      StepKeepsBase(ks[n - 1], ss[n - 1]);
    }
  }

  ghost predicate Untimed(ss: seq<Step>) {
    forall i :: 0 <= i < |ss| ==> !ss[i].DoParkTimed?
  }

  lemma {:induction false} UntimedRunsBalance(ks: seq<Kernel>, ss: seq<Step>, n: nat)
    requires Run(ks, ss) && Untimed(ss) && n < |ks|
    ensures Inv(ks[n])
  {
    if n == 0 {
      BootInv();
    } else {
      UntimedRunsBalance(ks, ss, n - 1);
      assert Follows(ks[n - 1], ss[n - 1], ks[n - 1 + 1]);
      assert !NeedsBitmap(ks[n - 1], ss[n - 1]);
      StepKeepsInv(ks[n - 1], ss[n - 1]);
    }
  }

  /** In a run without timed waits in wait queues a further such step panics only for want of a bitmap. */
  lemma UntimedRunsPanicIff(ks: seq<Kernel>, ss: seq<Step>, n: nat, s: Step)
    requires Run(ks, ss) && Untimed(ss) && n < |ks| && Enabled(ks[n], s) && !s.DoParkTimed?
    ensures Apply(ks[n], s).Panic? <==> NeedsBitmap(ks[n], s)
  {
    UntimedRunsBalance(ks, ss, n);
    if !NeedsBitmap(ks[n], s) { StepKeepsInv(ks[n], s); }
  }

  // ---- Every task is in one place ----

  datatype Location =
    | OnCpu(c: nat)
    | ReadyIn(c: nat, p: nat, i: nat)
    | BlockedIn(c: nat, i: nat)
    | InputOf(c: nat, i: nat)
    | RetiredIn(c: nat, i: nat)

  /** A current task counts as on the CPU unless it has been blocked or woken and not yet switched away. */
  ghost predicate Occupies(k: Kernel, id: int, l: Location) {
    && l.c < |k.cores|
    && var core := k.cores[l.c];
       match l
       case OnCpu(c) => core.current == id && (Here(k.tasks, id, c, Running) || Here(k.tasks, id, c, Finished))
       case ReadyIn(_, p, i) => p < |core.ready| && i < |core.ready[p]| && core.ready[p][i].id == id
       case BlockedIn(_, i) => i < |core.blocked| && core.blocked[i].task == id
       case InputOf(_, i) => i < |core.newTasks| && core.newTasks[i].id == id
       case RetiredIn(_, i) => i < |core.finished| && core.finished[i] == id
  }

  /** The place that the status of a task names, on its core. */
  ghost predicate Agrees(k: Kernel, id: int, l: Location) {
    if id !in k.tasks then l.InputOf?
    else
      && l.c == k.tasks[id].core
      && match k.tasks[id].status
         case Running => l.OnCpu?
         case Finished => l.OnCpu?
         case Ready => l.ReadyIn? && l.p == k.tasks[id].prio
         case Blocked => l.BlockedIn?
         case Invalid => l.RetiredIn?
         case Idle => false
  }

  lemma OccupiedAgrees(k: Kernel, id: int, l: Location)
    requires Base(k) && Occupies(k, id, l)
    ensures Agrees(k, id, l)
  {
    var c := l.c;
    var core := k.cores[c];
    assert CoreOk(k.tasks, core, c);
    match l
    case OnCpu(_) =>
    case ReadyIn(_, p, i) =>
      assert core.ready[p][i] in core.ready[p];
      assert Here(k.tasks, id, c, Ready);
    case BlockedIn(_, i) =>
      assert Ids(core.blocked)[i] == id;
      assert Here(k.tasks, id, c, Blocked);
    case InputOf(_, i) =>
      assert NewIds(core.newTasks)[i] == id;
      PendingCore(k, id, c);
    case RetiredIn(_, i) =>
      assert core.finished[i] in core.finished;
      assert Here(k.tasks, id, c, Invalid);
  }

  lemma NoTwoPlaces(k: Kernel, id: int, l: Location, l': Location)
    requires Base(k) && Occupies(k, id, l) && Occupies(k, id, l')
    ensures l == l'
  {
    OccupiedAgrees(k, id, l);
    OccupiedAgrees(k, id, l');
    if l.InputOf? {
      assert NewIds(k.cores[l.c].newTasks)[l.i] == id && NewIds(k.cores[l'.c].newTasks)[l'.i] == id;
      PendingOnce(k, id, l.c, l'.c);
      assert NewOk(k, l.c);
    } else {
      SameIndex(k, id, l, l');
    }
  }

  lemma SameIndex(k: Kernel, id: int, l: Location, l': Location)
    requires CoresOk(k) && Occupies(k, id, l) && Occupies(k, id, l')
    requires Agrees(k, id, l) && Agrees(k, id, l') && id in k.tasks
    ensures l == l'
  {
    var core := k.cores[l.c];
    assert CoreOk(k.tasks, core, l.c);
    match l
    case ReadyIn(_, p, i) =>
      assert core.ready[p][i] in core.ready[p] && core.ready[p][l'.i] in core.ready[p];
    case BlockedIn(_, i) => assert Ids(core.blocked)[i] == Ids(core.blocked)[l'.i];
    case _ =>
  }

  /** Every task that is not an idle task has a place. */
  lemma SomePlace(k: Kernel, id: int) returns (l: Location)
    requires Base(k) && (id in k.tasks || Pending(k, id)) && !Idling(k, id)
    ensures Occupies(k, id, l)
  {
    if id !in k.tasks {
      var c: nat :| PendingAt(k, id, c);
      var i :| 0 <= i < |NewIds(k.cores[c].newTasks)| && NewIds(k.cores[c].newTasks)[i] == id;
      l := InputOf(c, i);
    } else {
      var t, c := k.tasks[id], k.tasks[id].core;
      var core := k.cores[c];
      assert CoreOk(k.tasks, core, c);
      assert Here(k.tasks, id, c, t.status);
      match t.status
      case Ready =>
        assert HandleOf(id, t) in core.ready[t.prio];
        var i :| 0 <= i < |core.ready[t.prio]| && core.ready[t.prio][i] == HandleOf(id, t);
        l := ReadyIn(c, t.prio, i);
      case Blocked =>
        var i :| 0 <= i < |Ids(core.blocked)| && Ids(core.blocked)[i] == id;
        l := BlockedIn(c, i);
      case Invalid =>
        var i :| 0 <= i < |core.finished| && core.finished[i] == id;
        l := RetiredIn(c, i);
      case _ => l := OnCpu(c);
    }
  }

  /**
   * In every state of every run, every task that is not an idle task, new or old, live or retired, is in
   * exactly one place, the one its status and core name.
   */
  lemma ExactlyOnePlace(ks: seq<Kernel>, ss: seq<Step>, n: nat, id: int) returns (l: Location)
    requires Run(ks, ss) && n < |ks|
    requires id in ks[n].tasks || id in ks[n].registry
    requires !Idling(ks[n], id)
    ensures Occupies(ks[n], id, l) && Agrees(ks[n], id, l)
    ensures forall l' :: Occupies(ks[n], id, l') ==> l' == l
  {
    RunsAreWellFormed(ks, ss, n);
    l := SomePlace(ks[n], id);
    OccupiedAgrees(ks[n], id, l);
    forall l' | Occupies(ks[n], id, l') ensures l' == l { NoTwoPlaces(ks[n], id, l, l'); }
  }

  /** The idle task is never queued, and the current task is running, exiting, idle, or in the window. */
  lemma IdleIsNeverQueued(ks: seq<Kernel>, ss: seq<Step>, n: nat, c: nat)
    requires Run(ks, ss) && n < |ks| && c < |ks[n].cores|
    ensures forall l :: !Occupies(ks[n], ks[n].cores[c].idle, l)
    ensures ks[n].cores[c].current in ks[n].tasks && ks[n].tasks[ks[n].cores[c].current].status != Invalid
  {
    RunsAreWellFormed(ks, ss, n);
    var k := ks[n];
    assert CoreOk(k.tasks, k.cores[c], c);
    forall l ensures !Occupies(k, k.cores[c].idle, l) {
      if Occupies(k, k.cores[c].idle, l) { OccupiedAgrees(k, k.cores[c].idle, l); }
    }
  }

  // ---- Every sleeper has one handle ----

  /** Handle `i` at place `pl` belongs to task `id`. */
  predicate Holds(k: Kernel, pl: Place, i: nat, id: int) {
    i < |HandlesAt(k, [], pl)| && HandlesAt(k, [], pl)[i].id == id
  }

  /** A handle anywhere belongs to a task asleep on the handle's core. */
  lemma HandleMeansAsleep(k: Kernel, pl: Place, i: nat, id: int)
    requires Ledger(k, []) && Holds(k, pl, i, id)
    ensures Asleep(k, id, HandlesAt(k, [], pl)[i].core)
    ensures pl.Inbox? ==> pl.core == HandlesAt(k, [], pl)[i].core
  {
    var w :| Balanced(At(k, []), Sleeping(k), w);
    var h := HandlesAt(k, [], pl)[i];
    assert h in At(k, [])(pl);
    assert Justified(Sleeping(k), pl, h);
  }

  lemma PlaceOfHandle(k: Kernel, w: map<int, Place>, pl: Place, i: nat, id: int)
    requires Balanced(At(k, []), Sleeping(k), w) && Holds(k, pl, i, id)
    ensures id in w && w[id] == pl
  {
    assert HandlesAt(k, [], pl)[i] in At(k, [])(pl);
  }

  lemma OneIndex(hs: seq<TaskHandle>, i: nat, j: nat)
    requires NoDupIds(hs) && i < |hs| && j < |hs| && hs[i].id == hs[j].id
    ensures i == j
  {}

  lemma OneHandle(k: Kernel, pl: Place, i: nat, pl': Place, i': nat, id: int)
    requires Ledger(k, []) && Holds(k, pl, i, id) && Holds(k, pl', i', id)
    ensures pl == pl' && i == i'
  {
    var w :| Balanced(At(k, []), Sleeping(k), w);
    PlaceOfHandle(k, w, pl, i, id);
    PlaceOfHandle(k, w, pl', i', id);
    assert NoDupIds(At(k, [])(pl));
    OneIndex(HandlesAt(k, [], pl), i, i');
  }

  lemma AsleepHasHandle(k: Kernel, id: int, c: nat) returns (pl: Place, i: nat)
    requires Ledger(k, []) && Asleep(k, id, c)
    ensures Holds(k, pl, i, id)
  {
    var w :| Balanced(At(k, []), Sleeping(k), w);
    assert Sleeping(k)(id, c);
    pl := w[id];
    assert HasId(At(k, [])(pl), id);
    i :| 0 <= i < |At(k, [])(pl)| && At(k, [])(pl)[i].id == id;
  }

  ghost predicate IsAsleep(k: Kernel, id: int) {
    exists c: nat :: Asleep(k, id, c)
  }

  ghost predicate IsHeld(k: Kernel, id: int) {
    exists pl, i: nat :: Holds(k, pl, i, id)
  }

  /**
   * In every run without timed waits in wait queues, a task is blocked without a time limit exactly if
   * its handle is in a join queue, a wait queue or the input of its core, and then it is there once.
   */
  lemma BlockedIffHandleOnce(ks: seq<Kernel>, ss: seq<Step>, n: nat, id: int)
    requires Run(ks, ss) && Untimed(ss) && n < |ks|
    ensures IsAsleep(ks[n], id) <==> IsHeld(ks[n], id)
    ensures forall pl, i: nat, pl', i': nat ::
      Holds(ks[n], pl, i, id) && Holds(ks[n], pl', i', id) ==> pl == pl' && i == i'
  {
    var k := ks[n];
    UntimedRunsBalance(ks, ss, n);
    if IsAsleep(k, id) {
      var c: nat :| Asleep(k, id, c);
      var pl, i := AsleepHasHandle(k, id, c);
    }
    if IsHeld(k, id) {
      var pl, i: nat :| Holds(k, pl, i, id);
      HandleMeansAsleep(k, pl, i, id);
    }
    forall pl, i: nat, pl', i': nat | Holds(k, pl, i, id) && Holds(k, pl', i', id) ensures pl == pl' && i == i' {
      OneHandle(k, pl, i, pl', i', id);
    }
  }
}
