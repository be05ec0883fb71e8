/**
 * The ledger of wake-ups: every task that blocks without a time limit has its handle in exactly one
 * place from which it will be woken, a join queue, a wait queue or the input of its core. Handles taken
 * out of a queue and not yet delivered are in the waker's hand.
 */
module KernelLedger {
  import opened Basics
  import opened PriorityLists
  import opened BlockedQueue
  import opened KernelState
  import opened KernelInvariant

  datatype Place = JoinQueue(id: int) | WaitQueue(q: int) | Inbox(core: nat) | Hand

  // ---- Book-keeping, independent of the kernel ----

  /**
   * `at` tells which handles are at a place, `asleep` which tasks sleep on which core. The ledger `w`
   * names for every sleeping task the one place that holds its handle, once.
   */
  ghost predicate Balanced(at: Place -> seq<TaskHandle>, asleep: (int, nat) -> bool, w: map<int, Place>) {
    && (forall pl, h :: h in at(pl) ==> h.id in w && w[h.id] == pl && Justified(asleep, pl, h))
    && (forall pl :: NoDupIds(at(pl)))
    && (forall id :: id in w ==> HasId(at(w[id]), id))
    && (forall id, c :: asleep(id, c) ==> id in w)
  }

  predicate Justified(asleep: (int, nat) -> bool, pl: Place, h: TaskHandle) {
    asleep(h.id, h.core) && (pl.Inbox? ==> pl.core == h.core)
  }

  /** A task without an entry has no handle anywhere. */
  lemma NoEntryNoHandle(at: Place -> seq<TaskHandle>, asleep: (int, nat) -> bool, w: map<int, Place>, pl: Place, id: int)
    requires Balanced(at, asleep, w) && (id in w ==> w[id] != pl)
    ensures !HasId(at(pl), id)
  {
    var hs := at(pl);
    forall i | 0 <= i < |hs| ensures hs[i].id != id { assert hs[i] in at(pl); }
  }

  lemma HandleHasEntry(at: Place -> seq<TaskHandle>, asleep: (int, nat) -> bool, w: map<int, Place>, pl: Place, h: TaskHandle)
    requires Balanced(at, asleep, w) && h in at(pl)
    ensures h.id in w && w[h.id] == pl && Justified(asleep, pl, h)
  {}

  /** A new sleeper's handle is put somewhere. */
  lemma Enter(at: Place -> seq<TaskHandle>, at': Place -> seq<TaskHandle>,
              asleep: (int, nat) -> bool, asleep': (int, nat) -> bool, w: map<int, Place>, b: Place, h: TaskHandle)
    requires Balanced(at, asleep, w) && h.id !in w && !b.Inbox?
    requires at'(b) == at(b) + [h] && forall pl :: pl != b ==> at'(pl) == at(pl)
    requires forall id, c :: asleep'(id, c) <==> asleep(id, c) || (id == h.id && c == h.core)
    ensures Balanced(at', asleep', w[h.id := b])
  {
    NoEntryNoHandle(at, asleep, w, b, h.id);
    NoDupIdsPush(at(b), h);
    forall pl ensures NoDupIds(at'(pl)) { assert NoDupIds(at(pl)); }
  }

  /** One place after a handle was taken from `a` to `b`. */
  lemma MovedAt(at: Place -> seq<TaskHandle>, at': Place -> seq<TaskHandle>, asleep: (int, nat) -> bool, w: map<int, Place>,
                a: Place, i: nat, b: Place, pl: Place)
    requires Balanced(at, asleep, w) && a != b && i < |at(a)|
    requires at'(a) == RemoveAt(at(a), i) && at'(b) == at(b) + [at(a)[i]]
    requires forall p :: p != a && p != b ==> at'(p) == at(p)
    ensures NoDupIds(at'(pl))
    ensures forall x :: x in at'(pl) ==> (x in at(pl) && x.id != at(a)[i].id) || (pl == b && x == at(a)[i])
    ensures forall id :: id != at(a)[i].id && HasId(at(pl), id) ==> HasId(at'(pl), id)
    ensures pl == b ==> HasId(at'(pl), at(a)[i].id)
  {
    var h := at(a)[i];
    assert h in at(a) && NoDupIds(at(pl));
    if pl == a {
      NoDupIdsDrop(at(a), i);
    } else {
      NoEntryNoHandle(at, asleep, w, pl, h.id);
      if pl == b { NoDupIdsPush(at(b), h); }
      forall x | x in at(pl) ensures x.id != h.id {
        var j :| 0 <= j < |at(pl)| && at(pl)[j] == x;
      }
    }
  }

  /** A handle is taken from one place to another. */
  lemma Move(at: Place -> seq<TaskHandle>, at': Place -> seq<TaskHandle>,
             asleep: (int, nat) -> bool, w: map<int, Place>, a: Place, i: nat, b: Place)
    requires Balanced(at, asleep, w) && a != b && i < |at(a)|
    requires b.Inbox? ==> b.core == at(a)[i].core
    requires at'(a) == RemoveAt(at(a), i) && at'(b) == at(b) + [at(a)[i]]
    requires forall pl :: pl != a && pl != b ==> at'(pl) == at(pl)
    ensures Balanced(at', asleep, w[at(a)[i].id := b])
  {
    var h := at(a)[i];
    assert h in at(a);
    var w' := w[h.id := b];
    forall pl ensures NoDupIds(at'(pl)) { MovedAt(at, at', asleep, w, a, i, b, pl); }
    forall pl, x | x in at'(pl) ensures x.id in w' && w'[x.id] == pl && Justified(asleep, pl, x) {
      MovedAt(at, at', asleep, w, a, i, b, pl);
    }
    forall id | id in w' ensures HasId(at'(w'[id]), id) {
      MovedAt(at, at', asleep, w, a, i, b, w'[id]);
      if id != h.id { assert HasId(at(w[id]), id); }
    }
  }

  /** What is left at every place when one handle is taken away. */
  lemma LeftAt(at: Place -> seq<TaskHandle>, at': Place -> seq<TaskHandle>, asleep: (int, nat) -> bool, w: map<int, Place>,
               a: Place, i: nat, pl: Place)
    requires Balanced(at, asleep, w) && i < |at(a)|
    requires at'(a) == RemoveAt(at(a), i) && forall p :: p != a ==> at'(p) == at(p)
    ensures NoDupIds(at'(pl))
    ensures forall x :: x in at'(pl) ==> x in at(pl) && x.id != at(a)[i].id
    ensures forall id :: id != at(a)[i].id && HasId(at(pl), id) ==> HasId(at'(pl), id)
  {
    assert at(a)[i] in at(a);
    NoDupIdsDrop(at(a), i);
    assert NoDupIds(at(pl));
  }

  /** A handle is used up: its task is awake. */
  lemma Leave(at: Place -> seq<TaskHandle>, at': Place -> seq<TaskHandle>,
              asleep: (int, nat) -> bool, asleep': (int, nat) -> bool, w: map<int, Place>, a: Place, i: nat)
    requires Balanced(at, asleep, w) && i < |at(a)|
    requires at'(a) == RemoveAt(at(a), i) && forall pl :: pl != a ==> at'(pl) == at(pl)
    requires forall id, c :: asleep'(id, c) <==> asleep(id, c) && id != at(a)[i].id
    ensures Balanced(at', asleep', w - {at(a)[i].id})
  {
    var w' := w - {at(a)[i].id};
    forall pl ensures NoDupIds(at'(pl)) { LeftAt(at, at', asleep, w, a, i, pl); }
    forall pl, x | x in at'(pl) ensures x.id in w' && w'[x.id] == pl && Justified(asleep', pl, x) {
      LeftAt(at, at', asleep, w, a, i, pl);
    }
    forall id | id in w' ensures HasId(at'(w'[id]), id) {
      assert HasId(at(w[id]), id);
      LeftAt(at, at', asleep, w, a, i, w[id]);
    }
  }

  /** All handles of a place are taken to an empty place. */
  lemma MoveAll(at: Place -> seq<TaskHandle>, at': Place -> seq<TaskHandle>,
                asleep: (int, nat) -> bool, w: map<int, Place>, a: Place, b: Place)
    requires Balanced(at, asleep, w) && a != b && at(b) == [] && !b.Inbox?
    requires at'(a) == [] && at'(b) == at(a) && forall pl :: pl != a && pl != b ==> at'(pl) == at(pl)
    ensures Balanced(at', asleep, map id | id in w :: if w[id] == a then b else w[id])
  {
    var w' := map id | id in w :: if w[id] == a then b else w[id];
    forall pl ensures NoDupIds(at'(pl)) { assert NoDupIds(at(pl)) && NoDupIds(at(a)); }
    forall pl, x | x in at'(pl) ensures x.id in w' && w'[x.id] == pl && Justified(asleep, pl, x) {
      if pl == b { assert x in at(a); } else { assert x in at(pl); }
    }
    forall id | id in w' ensures HasId(at'(w'[id]), id) {
      assert HasId(at(w[id]), id);
      assert w[id] != b;
    }
  }

  lemma Unmoved(at: Place -> seq<TaskHandle>, at': Place -> seq<TaskHandle>,
                asleep: (int, nat) -> bool, asleep': (int, nat) -> bool, w: map<int, Place>)
    requires Balanced(at, asleep, w)
    requires forall pl :: at'(pl) == at(pl)
    requires forall id, c :: asleep'(id, c) <==> asleep(id, c)
    ensures Balanced(at', asleep', w)
  {
    forall pl ensures NoDupIds(at'(pl)) { assert NoDupIds(at(pl)); }
  }

  // ---- The ledger of the kernel ----

  function HandlesAt(k: Kernel, hand: seq<TaskHandle>, pl: Place): seq<TaskHandle> {
    match pl
    case JoinQueue(id) => if id in k.waiting then k.waiting[id] else []
    case WaitQueue(q) => QueueAt(k, q)
    case Inbox(c) => if c < |k.cores| then k.cores[c].wakeups else []
    case Hand => hand
  }

  /** Task `id` is blocked on core `c` without a time limit. */
  predicate Asleep(k: Kernel, id: int, c: nat) {
    c < |k.cores| && Sleeper(id, None) in k.cores[c].blocked
  }

  function At(k: Kernel, hand: seq<TaskHandle>): Place -> seq<TaskHandle> {
    pl => HandlesAt(k, hand, pl)
  }

  function Sleeping(k: Kernel): (int, nat) -> bool {
    (id: int, c: nat) => Asleep(k, id, c)
  }

  ghost predicate Ledger(k: Kernel, hand: seq<TaskHandle>) {
    exists w :: Balanced(At(k, hand), Sleeping(k), w)
  }

  /** A step that moves no handle and wakes or blocks nobody for good keeps the ledger. */
  lemma LedgerFrame(k: Kernel, k': Kernel, hand: seq<TaskHandle>)
    requires Ledger(k, hand)
    requires forall pl :: HandlesAt(k', hand, pl) == HandlesAt(k, hand, pl)
    requires forall id, c :: Asleep(k', id, c) <==> Asleep(k, id, c)
    ensures Ledger(k', hand)
  {
    var w :| Balanced(At(k, hand), Sleeping(k), w);
    Unmoved(At(k, hand), At(k', hand), Sleeping(k), Sleeping(k'), w);
  }

  lemma AsleepIsBlocked(k: Kernel, id: int, c: nat)
    requires CoresOk(k) && Asleep(k, id, c)
    ensures Here(k.tasks, id, c, Blocked)
  {
    var l := k.cores[c].blocked;
    var i :| 0 <= i < |l| && l[i] == Sleeper(id, None);
    assert Ids(l)[i] == id;
    assert CoreOk(k.tasks, k.cores[c], c);
  }

  /** Whoever has an entry is blocked. */
  lemma EntryIsBlocked(k: Kernel, hand: seq<TaskHandle>, w: map<int, Place>, id: int)
    requires CoresOk(k) && Balanced(At(k, hand), Sleeping(k), w) && id in w
    ensures id in k.tasks && k.tasks[id].status == Blocked
  {
    var hs := At(k, hand)(w[id]);
    assert HasId(hs, id);
    var i :| 0 <= i < |hs| && hs[i].id == id;
    assert hs[i] in At(k, hand)(w[id]);
    AsleepIsBlocked(k, id, hs[i].core);
  }

  /** A handle in a wait queue belongs to a blocked task. */
  lemma QueuedIsBlocked(k: Kernel, q: int, i: nat)
    requires CoresOk(k) && Ledger(k, []) && i < |QueueAt(k, q)|
    ensures QueueAt(k, q)[i].id in k.tasks && k.tasks[QueueAt(k, q)[i].id].status == Blocked
  {
    var w :| Balanced(At(k, []), Sleeping(k), w);
    assert At(k, [])(WaitQueue(q)) == QueueAt(k, q);
    HandleHasEntry(At(k, []), Sleeping(k), w, WaitQueue(q), QueueAt(k, q)[i]);
    EntryIsBlocked(k, [], w, QueueAt(k, q)[i].id);
  }

  // ---- Blocking ----

  lemma InsertMembers(l: seq<Sleeper>, s: Sleeper)
    ensures forall x :: x in Insert(l, s) <==> x == s || x in l
  {
    var p := if s.wakeup.None? then |l| else InsertPos(l, s.wakeup.value);
    assert Insert(l, s) == l[..p] + [s] + l[p..];
    assert l == l[..p] + l[p..];
  }

  lemma AsleepAfterBlock(k: Kernel, c: nat, wakeup: Option<Time>)
    requires Shape(k, c) && CurrentStatus(k, c) == Running
    ensures forall x, i :: Asleep(BlockCurrent(k, c, wakeup).k, x, i) <==>
      (Asleep(k, x, i) || (wakeup.None? && x == k.cores[c].current && i == c))
  {
    InsertMembers(k.cores[c].blocked, Sleeper(k.cores[c].current, wakeup));
  }

  /** `k1` is `k` with the handle of the current task of core `c` added at `pl`. */
  ghost predicate WithHandle(k: Kernel, k1: Kernel, c: nat, pl: Place)
    requires Shape(k, c)
  {
    && k1.cores == k.cores && k1.tasks == k.tasks
    && HandlesAt(k1, [], pl) == HandlesAt(k, [], pl) + [CurrentHandle(k, c)]
    && forall x :: x != pl ==> HandlesAt(k1, [], x) == HandlesAt(k, [], x)
  }

  /** Blocking without a time limit, with the handle put at `pl`, is recorded in the ledger. */
  lemma SleepWithHandle(k: Kernel, k1: Kernel, c: nat, pl: Place)
    requires CoresOk(k) && Shape(k, c) && CurrentStatus(k, c) == Running && Ledger(k, [])
    requires WithHandle(k, k1, c, pl) && !pl.Inbox? && pl != Hand
    ensures BlockCurrent(k1, c, None).Next? && Ledger(BlockCurrent(k1, c, None).k, [])
  {
    var w :| Balanced(At(k, []), Sleeping(k), w);
    var h := CurrentHandle(k, c);
    if h.id in w { EntryIsBlocked(k, [], w, h.id); }
    var k' := BlockCurrent(k1, c, None).k;
    assert CoreOk(k.tasks, k.cores[c], c);
    AsleepAfterBlock(k1, c, None);
    assert forall x :: HandlesAt(k', [], x) == HandlesAt(k1, [], x);
    assert forall id, i :: Asleep(k1, id, i) <==> Asleep(k, id, i);
    Enter(At(k, []), At(k', []), Sleeping(k), Sleeping(k'), w, pl, h);
  }

  /** Sleeping with a time limit and without a handle is no business of the ledger. */
  lemma TimedSleep(k: Kernel, c: nat, wt: Time)
    requires Shape(k, c) && CurrentStatus(k, c) == Running && Ledger(k, [])
    ensures BlockCurrent(k, c, Some(wt)).Next? && Ledger(BlockCurrent(k, c, Some(wt)).k, [])
  {
    AsleepAfterBlock(k, c, Some(wt));
    var k' := BlockCurrent(k, c, Some(wt)).k;
    assert forall pl :: HandlesAt(k', [], pl) == HandlesAt(k, [], pl);
    LedgerFrame(k, k', []);
  }

  // ---- Waking ----

  /** Who is asleep after a task was woken by hand. */
  lemma AsleepAfterWake(k: Kernel, c: nat, id: int)
    requires CoresOk(k) && c < |k.cores| && Asleep(k, id, c)
    ensures Shape(k, c) && WakeLocal(k, c, id).Next? && CoresOk(WakeLocal(k, c, id).k)
    ensures forall x, i :: Asleep(WakeLocal(k, c, id).k, x, i) <==> Asleep(k, x, i) && x != id
  {
    AsleepIsBlocked(k, id, c);
    WakeLocalKeepsCores(k, c, id);
    var core := k.cores[c];
    assert CoreOk(k.tasks, core, c);
    var i := IndexOf(core.blocked, id);
    NoDupRemove(Ids(core.blocked), i);
    var k' := WakeLocal(k, c, id).k;
    assert Ids(RemoveAt(core.blocked, i)) == RemoveAt(Ids(core.blocked), i);
    forall x, j ensures Asleep(k', x, j) <==> Asleep(k, x, j) && x != id {
      if Asleep(k', x, j) && j == c {
        var l := RemoveAt(core.blocked, i);
        var m :| 0 <= m < |l| && l[m] == Sleeper(x, None);
        assert Ids(l)[m] == x;
      }
      if Asleep(k, x, j) && x == id { AsleepIsBlocked(k, x, j); }
    }
  }

  /** Waking a task by hand touches no queue of handles. */
  lemma HandlesAfterWake(k: Kernel, c: nat, id: int, hand: seq<TaskHandle>)
    requires Shape(k, c) && WakeLocal(k, c, id).Next?
    ensures forall pl :: HandlesAt(WakeLocal(k, c, id).k, hand, pl) == HandlesAt(k, hand, pl)
  {}

  lemma DeliverHere(k: Kernel, c: nat, h: TaskHandle, rest: seq<TaskHandle>, w: map<int, Place>)
    requires CoresOk(k) && c < |k.cores| && Balanced(At(k, [h] + rest), Sleeping(k), w) && h.core == c
    requires Asleep(k, h.id, c)
    ensures Shape(k, c) && CustomWakeup(k, c, h).Next?
    ensures CoresOk(CustomWakeup(k, c, h).k) && Ledger(CustomWakeup(k, c, h).k, rest)
  {
    AsleepAfterWake(k, c, h.id);
    var k' := CustomWakeup(k, c, h).k;
    var hand := [h] + rest;
    assert RemoveAt(hand, 0) == rest;
    HandlesAfterWake(k, c, h.id, rest);
    assert forall pl :: pl != Hand ==> HandlesAt(k, rest, pl) == HandlesAt(k, hand, pl);
    Leave(At(k, hand), At(k', rest), Sleeping(k), Sleeping(k'), w, Hand, 0);
  }

  /** What leaving a handle in the input of another core changes. */
  lemma PushInbox(k: Kernel, c: nat, h: TaskHandle, rest: seq<TaskHandle>)
    requires CoresOk(k) && Shape(k, c) && h.core != c && h.core < |k.cores|
    ensures CustomWakeup(k, c, h).Next?
    ensures var k' := CustomWakeup(k, c, h).k;
      && CoresOk(k')
      && (forall x, i :: Asleep(k', x, i) <==> Asleep(k, x, i))
      && HandlesAt(k', rest, Inbox(h.core)) == HandlesAt(k, rest, Inbox(h.core)) + [h]
      && (forall pl :: pl != Inbox(h.core) ==> HandlesAt(k', rest, pl) == HandlesAt(k, rest, pl))
  {
    var k' := CustomWakeup(k, c, h).k;
    assert CoreOk(k.tasks, k.cores[h.core], h.core);
    LocalChange(k, k', h.core);
  }

  lemma DeliverThere(k: Kernel, c: nat, h: TaskHandle, rest: seq<TaskHandle>, w: map<int, Place>)
    requires CoresOk(k) && Shape(k, c) && Balanced(At(k, [h] + rest), Sleeping(k), w) && h.core != c
    requires Asleep(k, h.id, h.core)
    ensures CustomWakeup(k, c, h).Next?
    ensures CoresOk(CustomWakeup(k, c, h).k) && Ledger(CustomWakeup(k, c, h).k, rest)
  {
    PushInbox(k, c, h, rest);
    var k' := CustomWakeup(k, c, h).k;
    var hand := [h] + rest;
    assert RemoveAt(hand, 0) == rest;
    assert forall pl :: pl != Hand ==> HandlesAt(k, rest, pl) == HandlesAt(k, hand, pl);
    Move(At(k, hand), At(k', rest), Sleeping(k), w, Hand, 0, Inbox(h.core));
    Unmoved(At(k', rest), At(k', rest), Sleeping(k), Sleeping(k'), w[h.id := Inbox(h.core)]);
  }

  /** Delivering the first handle in hand never panics: its task is asleep on its core. */
  lemma Deliver(k: Kernel, c: nat, h: TaskHandle, rest: seq<TaskHandle>)
    requires CoresOk(k) && c < |k.cores| && Ledger(k, [h] + rest)
    ensures Shape(k, c) && CustomWakeup(k, c, h).Next?
    ensures CoresOk(CustomWakeup(k, c, h).k) && Ledger(CustomWakeup(k, c, h).k, rest)
  {
    assert CoreOk(k.tasks, k.cores[c], c);
    var w :| Balanced(At(k, [h] + rest), Sleeping(k), w);
    assert h in At(k, [h] + rest)(Hand);
    assert Justified(Sleeping(k), Hand, h);
    if h.core == c { DeliverHere(k, c, h, rest, w); } else { DeliverThere(k, c, h, rest, w); }
  }

  /** Waking a whole queue of handles in hand. */
  lemma {:induction false} DeliverAll(k: Kernel, c: nat, hs: seq<TaskHandle>)
    requires CoresOk(k) && c < |k.cores| && Ledger(k, hs)
    ensures WakeEach(k, c, hs).Next? && CoresOk(WakeEach(k, c, hs).k) && Ledger(WakeEach(k, c, hs).k, [])
    ensures |WakeEach(k, c, hs).k.cores| == |k.cores|
    decreases |hs|
  {
    if hs != [] {
      assert hs == [hs[0]] + hs[1..];
      Deliver(k, c, hs[0], hs[1..]);
      DeliverAll(CustomWakeup(k, c, hs[0]).k, c, hs[1..]);
    }
  }

  /** Taking one handle out of a wait queue. */
  lemma TakeOne(k: Kernel, q: int, i: nat)
    requires Ledger(k, []) && i < |QueueAt(k, q)|
    ensures Ledger(k.(parked := k.parked[q := RemoveAt(QueueAt(k, q), i)]), [QueueAt(k, q)[i]])
  {
    var w :| Balanced(At(k, []), Sleeping(k), w);
    var hs := QueueAt(k, q);
    var k' := k.(parked := k.parked[q := RemoveAt(hs, i)]);
    assert [] + [hs[i]] == [hs[i]];
    assert forall pl :: pl != Hand && pl != WaitQueue(q) ==> HandlesAt(k', [hs[i]], pl) == HandlesAt(k, [], pl);
    assert forall x, c :: Asleep(k', x, c) <==> Asleep(k, x, c);
    Move(At(k, []), At(k', [hs[i]]), Sleeping(k), w, WaitQueue(q), i, Hand);
    Unmoved(At(k', [hs[i]]), At(k', [hs[i]]), Sleeping(k), Sleeping(k'), w[hs[i].id := Hand]);
  }

  /** Taking a join queue away as a whole. */
  lemma TakeJoiners(k: Kernel, k': Kernel, id: int)
    requires Ledger(k, []) && id in k.waiting
    requires k'.waiting == k.waiting - {id} && k'.parked == k.parked && k'.cores == k.cores
    ensures Ledger(k', k.waiting[id])
  {
    var w :| Balanced(At(k, []), Sleeping(k), w);
    var hs := k.waiting[id];
    assert forall pl :: pl != Hand && pl != JoinQueue(id) ==> HandlesAt(k', hs, pl) == HandlesAt(k, [], pl);
    assert forall x, c :: Asleep(k', x, c) <==> Asleep(k, x, c);
    MoveAll(At(k, []), At(k', hs), Sleeping(k), w, JoinQueue(id), Hand);
    var w' := map x | x in w :: if w[x] == JoinQueue(id) then Hand else w[x];
    Unmoved(At(k', hs), At(k', hs), Sleeping(k), Sleeping(k'), w');
  }

  /** The kernel without the first wake-up in the input of core `c`. */
  function Shortened(k: Kernel, c: nat): Kernel
    requires c < |k.cores| && k.cores[c].wakeups != []
  {
    SetCore(k, c, k.cores[c].(wakeups := k.cores[c].wakeups[1..]))
  }

  lemma ShortenKeepsCores(k: Kernel, c: nat)
    requires CoresOk(k) && c < |k.cores| && k.cores[c].wakeups != []
    ensures CoresOk(Shortened(k, c))
  {
    assert CoreOk(k.tasks, k.cores[c], c);
    LocalChange(k, Shortened(k, c), c);
  }

  lemma ShortenInbox(k: Kernel, c: nat)
    requires CoresOk(k) && c < |k.cores| && k.cores[c].wakeups != []
    ensures var k1 := SetCore(k, c, k.cores[c].(wakeups := k.cores[c].wakeups[1..]));
      && CoresOk(k1)
      && (forall x, i :: Asleep(k1, x, i) <==> Asleep(k, x, i))
      && HandlesAt(k1, [], Inbox(c)) == RemoveAt(HandlesAt(k, [], Inbox(c)), 0)
      && (forall pl :: pl != Inbox(c) ==> HandlesAt(k1, [], pl) == HandlesAt(k, [], pl))
  {
    ShortenKeepsCores(k, c);
    assert RemoveAt(k.cores[c].wakeups, 0) == k.cores[c].wakeups[1..];
  }

  /** Taking a wake-up from the input of its core never panics either. */
  lemma TakeWakeupOk(k: Kernel, c: nat)
    requires CoresOk(k) && c < |k.cores| && Ledger(k, []) && k.cores[c].wakeups != []
    ensures Shape(k, c) && TakeWakeup(k, c).Next?
    ensures CoresOk(TakeWakeup(k, c).k) && Ledger(TakeWakeup(k, c).k, [])
  {
    var w :| Balanced(At(k, []), Sleeping(k), w);
    var h := k.cores[c].wakeups[0];
    assert h in At(k, [])(Inbox(c));
    assert Justified(Sleeping(k), Inbox(c), h);
    ShortenInbox(k, c);
    var k1 := SetCore(k, c, k.cores[c].(wakeups := k.cores[c].wakeups[1..]));
    AsleepAfterWake(k1, c, h.id);
    HandlesAfterWake(k1, c, h.id, []);
    Leave(At(k, []), At(TakeWakeup(k, c).k, []), Sleeping(k), Sleeping(TakeWakeup(k, c).k), w, Inbox(c), 0);
  }
}
