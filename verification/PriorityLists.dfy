/**
 * One FIFO list per priority, the representation shared by the ready queue and the wait queues, and
 * its reference: a single sequence in order of arrival, from which the earliest entry of the highest
 * priority is taken. `Sim` relates the two; the lemmas below show each operation preserves it.
 */
module PriorityLists {
  import opened Basics
  import opened Bitmap

  // ---- One list per priority ----

  function EmptyLists<T>(): (l: seq<seq<T>>)
    ensures |l| == NO_PRIORITIES
    ensures forall p :: 0 <= p < |l| ==> l[p] == []
  {
    seq(NO_PRIORITIES, _ => [])
  }

  function PushTo<T>(l: seq<seq<T>>, p: nat, x: T): seq<seq<T>>
    requires p < |l|
  {
    l[p := l[p] + [x]]
  }

  function PopFrom<T>(l: seq<seq<T>>, p: nat): seq<seq<T>>
    requires p < |l| && l[p] != []
  {
    l[p := l[p][1..]]
  }

  /** The highest priority whose list holds an entry. */
  function Top<T>(l: seq<seq<T>>): (r: Option<nat>)
    ensures r.None? <==> forall p :: 0 <= p < |l| ==> l[p] == []
    ensures r.Some? ==> r.value < |l| && l[r.value] != []
    ensures r.Some? ==> forall p :: r.value < p < |l| ==> l[p] == []
  {
    if l == [] then None
    else if l[|l| - 1] != [] then Some(|l| - 1)
    else
      var r := Top(l[..|l| - 1]);
      assert forall p :: 0 <= p < |l| - 1 ==> l[p] == l[..|l| - 1][p];
      r
  }

  /** The entries of `s` whose id is not `id`, in order. */
  function DropId(s: seq<TaskHandle>, id: int): seq<TaskHandle> {
    if s == [] then [] else (if s[0].id == id then [] else [s[0]]) + DropId(s[1..], id)
  }

  predicate HasId(s: seq<TaskHandle>, id: int) {
    exists i :: 0 <= i < |s| && s[i].id == id
  }

  // ---- The bitmap of non-empty lists ----

  /** Bit `i` is set exactly when list `i` holds a task. */
  ghost predicate Agree(bitmap: nat, l: seq<seq<TaskHandle>>) {
    forall i: nat :: Bit(bitmap, i) <==> i < |l| && l[i] != []
  }

  lemma AgreePush(b: nat, l: seq<seq<TaskHandle>>, p: nat, h: TaskHandle)
    requires Agree(b, l) && p < |l|
    ensures Agree(Or(b, Shl(p)), PushTo(l, p, h))
  {
    forall i: nat ensures Bit(Or(b, Shl(p)), i) <==> i < |l| && PushTo(l, p, h)[i] != [] { SetBit(b, p, i); }
  }

  /** Shrinking list `p` keeps agreement when its bit is cleared once the list is empty. */
  lemma AgreeShrink(b: nat, l: seq<seq<TaskHandle>>, p: nat, s: seq<TaskHandle>)
    requires Agree(b, l) && p < |l|
    requires l[p] == [] ==> s == []
    ensures Agree(if s == [] then AndNot(b, Shl(p)) else b, l[p := s])
  {
    var b' := if s == [] then AndNot(b, Shl(p)) else b;
    forall i: nat ensures Bit(b', i) <==> i < |l| && l[p := s][i] != [] { ClearBit(b, p, i); }
  }

  /** The most significant bit of an agreeing bitmap is the highest priority in the queue. */
  lemma AgreeMsb(b: nat, l: seq<seq<TaskHandle>>)
    requires Agree(b, l)
    ensures Msb(b) == Top(l)
  {
    if b > 0 {
      var m := Msb(b).value;
      MsbIsHighest(b, m);
      forall j | 0 <= j < |l| && l[j] != [] ensures j <= m { MsbIsHighest(b, j); }
    } else {
      forall j | 0 <= j < |l| ensures l[j] == [] { BitOfZero(j); }
    }
  }

  // ---- The arrival-order reference ----

  /** No entry is more urgent than entry `k`, and none before it is as urgent. */
  predicate IsEarliest(a: seq<TaskHandle>, k: nat) {
    && k < |a|
    && (forall j :: 0 <= j < |a| ==> a[j].prio <= a[k].prio)
    && (forall j :: 0 <= j < k ==> a[j].prio < a[k].prio)
  }

  lemma {:induction false} SomeEarliest(a: seq<TaskHandle>) returns (k: nat)
    requires a != []
    ensures IsEarliest(a, k)
  {
    var n := |a| - 1;
    if n == 0 {
      k := 0;
    } else {
      k := SomeEarliest(a[..n]);
      assert forall j :: 0 <= j < n ==> a[j] == a[..n][j];
      if a[n].prio > a[k].prio { k := n; }
    }
  }

  /** There is exactly one such entry. */
  lemma OneEarliest(a: seq<TaskHandle>)
    requires a != []
    ensures exists k: nat :: IsEarliest(a, k)
    ensures forall k: nat, l: nat :: IsEarliest(a, k) && IsEarliest(a, l) ==> k == l
  {
    var _ := SomeEarliest(a);
    forall k: nat, l: nat | IsEarliest(a, k) && IsEarliest(a, l) ensures k == l {
      assert a[k].prio <= a[l].prio && a[l].prio <= a[k].prio;
    }
  }

  /** The earliest entry among those of the highest priority. */
  function Earliest(a: seq<TaskHandle>): (k: nat)
    requires a != []
    ensures IsEarliest(a, k)
  {
    OneEarliest(a);
    var k: nat :| IsEarliest(a, k);
    k
  }

  /** The entries of priority `p`, in order of arrival. */
  function OfPrio(a: seq<TaskHandle>, p: nat): seq<TaskHandle> {
    if a == [] then [] else if a[0].prio == p then [a[0]] + OfPrio(a[1..], p) else OfPrio(a[1..], p)
  }

  /** What `remove(h)` leaves: the list of `h`'s priority loses every entry with `h`'s id. */
  function Without(a: seq<TaskHandle>, h: TaskHandle): seq<TaskHandle> {
    if a == [] then [] else (if Same(a[0], h) then [] else [a[0]]) + Without(a[1..], h)
  }

  predicate Same(x: TaskHandle, h: TaskHandle) {
    x.id == h.id && x.prio == h.prio
  }

  predicate Queued(a: seq<TaskHandle>, h: TaskHandle) {
    exists i :: 0 <= i < |a| && Same(a[i], h)
  }

  ghost predicate Sim(l: seq<seq<TaskHandle>>, a: seq<TaskHandle>) {
    |l| == NO_PRIORITIES && forall p :: 0 <= p < NO_PRIORITIES ==> l[p] == OfPrio(a, p)
  }

  // ---- Simulation ----

  lemma OfPrioCons(h: TaskHandle, a: seq<TaskHandle>, p: nat)
    ensures OfPrio([h] + a, p) == if h.prio == p then [h] + OfPrio(a, p) else OfPrio(a, p)
  {
    assert ([h] + a)[1..] == a;
  }

  lemma {:induction false} OfPrioConcat(a: seq<TaskHandle>, b: seq<TaskHandle>, p: nat)
    ensures OfPrio(a + b, p) == OfPrio(a, p) + OfPrio(b, p)
  {
    if a == [] {
      assert a + b == b;
    } else {
      var x, rest := a[0], a[1..];
      OfPrioConcat(rest, b, p);
      assert a + b == [x] + (rest + b);
      OfPrioCons(x, rest + b, p);
      if x.prio == p {
        assert [x] + (OfPrio(rest, p) + OfPrio(b, p)) == ([x] + OfPrio(rest, p)) + OfPrio(b, p);
      }
    }
  }

  lemma {:induction false} OfPrioNone(a: seq<TaskHandle>, p: nat)
    requires forall j :: 0 <= j < |a| ==> a[j].prio != p
    ensures OfPrio(a, p) == []
  {
    if a != [] { OfPrioNone(a[1..], p); }
  }

  lemma SimEmpty()
    ensures Sim(EmptyLists(), [])
  {}

  lemma SimPush(l: seq<seq<TaskHandle>>, a: seq<TaskHandle>, h: TaskHandle)
    requires Sim(l, a)
    ensures Sim(PushTo(l, h.prio, h), a + [h])
  {
    forall p | 0 <= p < NO_PRIORITIES ensures PushTo(l, h.prio, h)[p] == OfPrio(a + [h], p) {
      OfPrioConcat(a, [h], p);
      assert OfPrio([h], p) == if h.prio == p then [h] else [];
    }
  }

  /** Splitting the reference around entry `k` splits the list of every priority. */
  lemma SplitAt(a: seq<TaskHandle>, k: nat, p: nat)
    requires k < |a|
    ensures OfPrio(a, p) == OfPrio(a[..k], p) + (if a[k].prio == p then [a[k]] else []) + OfPrio(a[k + 1..], p)
    ensures OfPrio(RemoveAt(a, k), p) == OfPrio(a[..k], p) + OfPrio(a[k + 1..], p)
  {
    var before, after := a[..k], a[k + 1..];
    assert a == before + ([a[k]] + after);
    OfPrioConcat(before, [a[k]] + after, p);
    OfPrioCons(a[k], after, p);
    var x, z := OfPrio(before, p), OfPrio(after, p);
    if a[k].prio == p {
      assert x + ([a[k]] + z) == x + [a[k]] + z;
    } else {
      assert x + [] + z == x + z;
    }
    assert RemoveAt(a, k) == before + after;
    OfPrioConcat(before, after, p);
  }

  /** Taking the next entry shortens the list of its priority at the front and no other list. */
  lemma PopOfPrio(a: seq<TaskHandle>, q: nat)
    requires a != []
    ensures a[Earliest(a)].prio == q ==> OfPrio(a, q) == [a[Earliest(a)]] + OfPrio(RemoveAt(a, Earliest(a)), q)
    ensures a[Earliest(a)].prio != q ==> OfPrio(a, q) == OfPrio(RemoveAt(a, Earliest(a)), q)
  {
    var k := Earliest(a);
    SplitAt(a, k, q);
    if q == a[k].prio {
      OfPrioNone(a[..k], q);
      assert [] + [a[k]] == [a[k]];
      assert [] + OfPrio(a[k + 1..], q) == OfPrio(a[k + 1..], q);
    } else {
      assert OfPrio(a[..k], q) + [] == OfPrio(a[..k], q);
    }
  }

  lemma TopIs<T>(l: seq<seq<T>>, p: nat)
    requires p < |l| && l[p] != [] && forall q :: p < q < |l| ==> l[q] == []
    ensures Top(l) == Some(p)
  {}

  /** Both representations agree on whether there is an entry and on which one is next. */
  lemma SimTop(l: seq<seq<TaskHandle>>, a: seq<TaskHandle>)
    requires Sim(l, a)
    ensures Top(l).None? <==> a == []
    ensures a != [] ==> Top(l) == Some(a[Earliest(a)].prio)
    ensures a != [] ==> l[Top(l).value][0] == a[Earliest(a)]
  {
    if a != [] {
      var p := a[Earliest(a)].prio;
      PopOfPrio(a, p);
      forall q | p < q < NO_PRIORITIES ensures l[q] == [] { OfPrioNone(a, q); }
      TopIs(l, p);
    }
  }

  lemma SimPop(l: seq<seq<TaskHandle>>, a: seq<TaskHandle>)
    requires Sim(l, a) && a != []
    ensures Top(l).Some? && Sim(PopFrom(l, Top(l).value), RemoveAt(a, Earliest(a)))
  {
    SimTop(l, a);
    forall q | 0 <= q < NO_PRIORITIES
      ensures PopFrom(l, Top(l).value)[q] == OfPrio(RemoveAt(a, Earliest(a)), q)
    {
      PopOfPrio(a, q);
    }
  }

  lemma {:induction false} WithoutOfPrio(a: seq<TaskHandle>, h: TaskHandle, p: nat)
    ensures OfPrio(Without(a, h), p) == if p == h.prio then DropId(OfPrio(a, p), h.id) else OfPrio(a, p)
  {
    if a != [] {
      var x, rest := a[0], a[1..];
      WithoutOfPrio(rest, h, p);
      if Same(x, h) {
        assert Without(a, h) == Without(rest, h);
      } else {
        assert Without(a, h) == [x] + Without(rest, h);
        OfPrioCons(x, Without(rest, h), p);
      }
      if x.prio == p {
        assert OfPrio(a, p) == [x] + OfPrio(rest, p);
        DropIdCons(x, OfPrio(rest, p), h.id);
      } else {
        assert OfPrio(a, p) == OfPrio(rest, p);
      }
    }
  }

  lemma DropIdCons(x: TaskHandle, s: seq<TaskHandle>, id: int)
    ensures DropId([x] + s, id) == (if x.id == id then [] else [x]) + DropId(s, id)
  {
    assert ([x] + s)[1..] == s;
  }

  lemma {:induction false} OfPrioMembers(a: seq<TaskHandle>, p: nat)
    ensures forall h :: h in OfPrio(a, p) <==> h in a && h.prio == p
  {
    if a != [] {
      OfPrioMembers(a[1..], p);
      assert a == [a[0]] + a[1..];
    }
  }

  lemma SimRemove(l: seq<seq<TaskHandle>>, a: seq<TaskHandle>, h: TaskHandle)
    requires Sim(l, a)
    ensures Sim(l[h.prio := DropId(l[h.prio], h.id)], Without(a, h))
  {
    forall p | 0 <= p < NO_PRIORITIES
      ensures l[h.prio := DropId(l[h.prio], h.id)][p] == OfPrio(Without(a, h), p)
    {
      WithoutOfPrio(a, h, p);
    }
  }

  /** Looking `h` up in the list of its priority finds it exactly when it is queued. */
  lemma SimContains(l: seq<seq<TaskHandle>>, a: seq<TaskHandle>, h: TaskHandle)
    requires Sim(l, a)
    ensures HasId(l[h.prio], h.id) <==> Queued(a, h)
  {
    var s := l[h.prio];
    OfPrioMembers(a, h.prio);
    if HasId(s, h.id) {
      var i :| 0 <= i < |s| && s[i].id == h.id;
      assert s[i] in a;
      var j :| 0 <= j < |a| && a[j] == s[i];
      assert Same(a[j], h);
    }
    if Queued(a, h) {
      var i :| 0 <= i < |a| && Same(a[i], h);
      assert a[i] in s;
    }
  }

  /** `remove` shortens the queue exactly when the handle was in it. */
  lemma {:induction false} WithoutShrinks(a: seq<TaskHandle>, h: TaskHandle)
    ensures |Without(a, h)| <= |a|
    ensures |Without(a, h)| < |a| <==> Queued(a, h)
    ensures !Queued(a, h) ==> Without(a, h) == a
  {
    if a != [] {
      WithoutShrinks(a[1..], h);
      if Queued(a[1..], h) {
        var i :| 0 <= i < |a[1..]| && Same(a[1..][i], h);
        assert Same(a[i + 1], h);
      }
      if Queued(a, h) && !Same(a[0], h) {
        var i :| 0 <= i < |a| && Same(a[i], h);
        assert Same(a[1..][i - 1], h);
      }
      assert a == [a[0]] + a[1..];
    }
  }

  // ---- Queues with one handle per task ----

  lemma NoDupIdsPush(s: seq<TaskHandle>, h: TaskHandle)
    requires NoDupIds(s) && !HasId(s, h.id)
    ensures NoDupIds(s + [h])
    ensures forall id :: HasId(s + [h], id) <==> HasId(s, id) || id == h.id
  {
    forall id ensures HasId(s + [h], id) <==> HasId(s, id) || id == h.id {
      if HasId(s, id) {
        var i :| 0 <= i < |s| && s[i].id == id;
        assert (s + [h])[i].id == id;
      }
      if id == h.id { assert (s + [h])[|s|].id == id; }
    }
  }

  lemma NoDupIdsDrop(s: seq<TaskHandle>, i: nat)
    requires NoDupIds(s) && i < |s|
    ensures NoDupIds(RemoveAt(s, i))
    ensures forall h :: h in RemoveAt(s, i) ==> h in s && h.id != s[i].id
    ensures forall id :: id != s[i].id && HasId(s, id) ==> HasId(RemoveAt(s, i), id)
  {
    var r := RemoveAt(s, i);
    forall id | id != s[i].id && HasId(s, id) ensures HasId(r, id) {
      var j :| 0 <= j < |s| && s[j].id == id;
      assert r[if j < i then j else j - 1].id == id;
    }
    forall h | h in r ensures h in s && h.id != s[i].id {
      var j :| 0 <= j < |r| && r[j] == h;
      assert h == s[if j < i then j else j + 1];
    }
  }

  lemma NotIn(s: seq<TaskHandle>, r: seq<TaskHandle>, id: int)
    requires forall x :: x in r ==> x in s
    requires forall i :: 0 <= i < |s| ==> s[i].id != id
    ensures !HasId(r, id)
  {
    forall i | 0 <= i < |r| ensures r[i].id != id { assert r[i] in s; }
  }

  lemma NoDupIdsCons(h: TaskHandle, s: seq<TaskHandle>)
    requires NoDupIds(s) && !HasId(s, h.id)
    ensures NoDupIds([h] + s)
  {}

  // ---- No overtaking ----

  /** `a` stands before `b`. */
  predicate Ahead(s: seq<TaskHandle>, a: TaskHandle, b: TaskHandle) {
    exists i, j :: 0 <= i < j < |s| && s[i] == a && s[j] == b
  }

  lemma AheadAfterPush(s: seq<TaskHandle>, h: TaskHandle, a: TaskHandle, b: TaskHandle)
    ensures Ahead(s, a, b) ==> Ahead(s + [h], a, b)
    ensures a in s ==> Ahead(s + [h], a, h)
  {
    if Ahead(s, a, b) {
      var i, j :| 0 <= i < j < |s| && s[i] == a && s[j] == b;
      assert (s + [h])[i] == a && (s + [h])[j] == b;
    }
    if a in s {
      var i :| 0 <= i < |s| && s[i] == a;
      assert (s + [h])[i] == a && (s + [h])[|s|] == h;
    }
  }

  /** Taking the earliest of the highest priority does not take `b` past `a`, unless `b` is more urgent. */
  lemma AheadAfterTake(s: seq<TaskHandle>, k: nat, a: TaskHandle, b: TaskHandle)
    requires IsEarliest(s, k) && Ahead(s, a, b) && a.prio >= b.prio
    ensures a == s[k] || Ahead(RemoveAt(s, k), a, b)
  {
    var i, j :| 0 <= i < j < |s| && s[i] == a && s[j] == b;
    if i != k {
      var r := RemoveAt(s, k);
      var i', j' := if i < k then i else i - 1, if j < k then j else j - 1;
      assert j != k;
      assert r[i'] == a && r[j'] == b;
    }
  }
}
