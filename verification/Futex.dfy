/**
 * Futexes: the parking lot maps an address to the queue of tasks parked there. A wait is two kinds of
 * steps: the entry under the lock, and after every reschedule the check whether to return. Queues are
 * in order of arrival; `HandleQueue` relates them to the bitmap-indexed lists.
 */
module Futex {
  import opened Basics
  import opened PriorityLists

  const I32_MAX: int := 0x7FFF_FFFF
  const EAGAIN: int := 11
  const EINVAL: int := 22
  const ETIMEDOUT: int := 110

  type Word = w: nat | w <= U32_MAX

  type Memory = map<int, Word>
  type Queues = map<int, seq<TaskHandle>>

  datatype Answer = Returns(value: int) | Sleeps

  function Load(mem: Memory, a: int): Word {
    if a in mem then mem[a] else 0
  }

  function QueueOf(qs: Queues, a: int): seq<TaskHandle> {
    if a in qs then qs[a] else []
  }

  /** An empty queue is taken out of the map. */
  function SetQueue(qs: Queues, a: int, q: seq<TaskHandle>): Queues {
    if q == [] then qs - {a} else qs[a := q]
  }

  function Park(qs: Queues, a: int, h: TaskHandle): Queues {
    qs[a := QueueOf(qs, a) + [h]]
  }

  /** Up to `n` handles in the order they are popped, and the queue that is left. */
  function Pops(q: seq<TaskHandle>, n: nat): (seq<TaskHandle>, seq<TaskHandle>) {
    if n == 0 || q == [] then ([], q)
    else
      var i := Earliest(q);
      var r := Pops(RemoveAt(q, i), n - 1);
      ([q[i]] + r.0, r.1)
  }

  /** `Pops` taken apart once. */
  lemma PopsNext(q: seq<TaskHandle>, n: nat, k: nat)
    requires n > 0 && q != [] && k == Earliest(q)
    ensures Pops(q, n).0 == [q[k]] + Pops(RemoveAt(q, k), n - 1).0
    ensures Pops(q, n).1 == Pops(RemoveAt(q, k), n - 1).1
  {}

  /** After `taken` was popped of at most `n` handles, `q` is left of `q0`. */
  ghost predicate Progress(q0: seq<TaskHandle>, n: nat, taken: seq<TaskHandle>, q: seq<TaskHandle>) {
    && |taken| <= n && |taken| + |q| == |q0|
    && var r := Pops(q, n - |taken|);
       Pops(q0, n) == (taken + r.0, r.1)
  }

  lemma ProgressStart(q: seq<TaskHandle>, n: nat)
    ensures Progress(q, n, [], q)
  {
    assert [] + Pops(q, n).0 == Pops(q, n).0;
  }

  lemma ProgressStep(q0: seq<TaskHandle>, n: nat, taken: seq<TaskHandle>, q: seq<TaskHandle>)
    requires Progress(q0, n, taken, q) && |taken| < n && q != []
    ensures Progress(q0, n, taken + [q[Earliest(q)]], RemoveAt(q, Earliest(q)))
  {
    var i := Earliest(q);
    var rest := Pops(RemoveAt(q, i), n - |taken| - 1);
    assert taken + ([q[i]] + rest.0) == (taken + [q[i]]) + rest.0;
  }

  lemma ProgressEnd(q0: seq<TaskHandle>, n: nat, taken: seq<TaskHandle>, q: seq<TaskHandle>)
    requires Progress(q0, n, taken, q) && (|taken| == n || q == [])
    ensures Pops(q0, n) == (taken, q)
  {
    assert taken + [] == taken;
  }

  function Limit(q: seq<TaskHandle>, count: int): nat
    requires 0 <= count
  {
    if count == I32_MAX then |q| else count
  }

  function Saturate(n: nat): int {
    if n <= I32_MAX then n else I32_MAX
  }

  predicate Due(wakeup: Option<Time>, now: Time) {
    wakeup.Some? && wakeup.value <= now
  }

  /** The check of the waiter with handle `h` after it was scheduled again. */
  function Check(qs: Queues, a: int, h: TaskHandle, wakeup: Option<Time>, now: Time): (Queues, Answer) {
    if Due(wakeup, now) then
      if a !in qs then (qs, Returns(0))
      else
        (SetQueue(qs, a, Without(qs[a], h)), if Queued(qs[a], h) then Returns(-ETIMEDOUT) else Returns(0))
    else
      (qs, if a in qs && Queued(qs[a], h) then Sleeps else Returns(0))
  }

  /** The parking lot, the futex words, and the wake-ups passed to the scheduler, in order. */
  class ParkingLot {
    var mem: Memory
    var queues: Queues
    var wakeups: seq<TaskHandle>

    constructor ()
      ensures mem == map[] && queues == map[] && wakeups == []
    {
      mem, queues, wakeups := map[], map[], [];
    }

    /** The entry of `futex_wait`. */
    method FutexWait(a: int, expected: Word, h: TaskHandle) returns (r: Answer)
      modifies this`queues
      ensures r == if Load(mem, a) == expected then Sleeps else Returns(-EAGAIN)
      ensures queues == if r.Sleeps? then Park(old(queues), a, h) else old(queues)
    {
      if Load(mem, a) != expected { return Returns(-EAGAIN); }
      if a !in queues { queues := queues[a := []]; }
      queues := queues[a := queues[a] + [h]];
      return Sleeps;
    }

    /** The entry of `futex_wait_and_set`: the new value is stored whether or not the task parks. */
    method FutexWaitAndSet(a: int, expected: Word, h: TaskHandle, newValue: Word) returns (r: Answer)
      modifies this`queues, this`mem
      ensures mem == old(mem)[a := newValue]
      ensures r == if Load(old(mem), a) == expected then Sleeps else Returns(-EAGAIN)
      ensures queues == if r.Sleeps? then Park(old(queues), a, h) else old(queues)
    {
      var previous := Load(mem, a);
      mem := mem[a := newValue];
      if previous != expected { return Returns(-EAGAIN); }
      if a !in queues { queues := queues[a := []]; }
      queues := queues[a := queues[a] + [h]];
      return Sleeps;
    }

    /** One round of the loop in which a parked task waits. */
    method CheckWaiter(a: int, h: TaskHandle, wakeup: Option<Time>, now: Time) returns (r: Answer)
      modifies this`queues
      ensures (queues, r) == Check(old(queues), a, h, wakeup, now)
    {
      if wakeup.Some? && wakeup.value <= now {
        var wasWoken := true;
        if a in queues {
          wasWoken := !Queued(queues[a], h);
          queues := queues[a := Without(queues[a], h)];
          if queues[a] == [] { queues := queues - {a}; }
          assert queues == SetQueue(old(queues), a, Without(old(queues)[a], h));
        }
        return if wasWoken then Returns(0) else Returns(-ETIMEDOUT);
      }
      return if a in queues && Queued(queues[a], h) then Sleeps else Returns(0);
    }

    /** The loop of `futex_wake` and `futex_wake_or_set` over an existing queue. */
    method WakeLoop(a: int, count: int) returns (woken: int)
      requires a in queues && 0 <= count <= I32_MAX
      modifies this`queues, this`wakeups
      ensures var r := Pops(old(queues)[a], Limit(old(queues)[a], count));
        wakeups == old(wakeups) + r.0 && queues == SetQueue(old(queues), a, r.1) && woken == Saturate(|r.0|)
    {
      woken := 0;
      ghost var q0, n := queues[a], Limit(queues[a], count);
      ghost var taken: seq<TaskHandle> := [];
      ProgressStart(q0, n);
      assert queues == old(queues)[a := q0];
      while woken != count || count == I32_MAX
        invariant a in queues && queues == old(queues)[a := queues[a]]
        invariant wakeups == old(wakeups) + taken && woken == Saturate(|taken|)
        invariant Progress(q0, n, taken, queues[a])
        decreases |queues[a]|
      {
        if queues[a] == [] { break; }
        ProgressStep(q0, n, taken, queues[a]);
        var i := Earliest(queues[a]);
        var h := queues[a][i];
        queues := queues[a := RemoveAt(queues[a], i)];
        wakeups := wakeups + [h];
        taken := taken + [h];
        woken := if woken == I32_MAX then woken else woken + 1;
      }
      ProgressEnd(q0, n, taken, queues[a]);
      if queues[a] == [] { queues := queues - {a}; }
      assert queues == SetQueue(old(queues), a, Pops(q0, n).1);
    }

    method FutexWake(a: int, count: int) returns (r: int)
      requires count <= I32_MAX
      modifies this`queues, this`wakeups
      ensures count < 0 ==> r == -EINVAL && queues == old(queues) && wakeups == old(wakeups)
      ensures count >= 0 && a !in old(queues) ==> r == 0 && queues == old(queues) && wakeups == old(wakeups)
      ensures count >= 0 && a in old(queues) ==>
        var t := Pops(old(queues)[a], Limit(old(queues)[a], count));
        wakeups == old(wakeups) + t.0 && queues == SetQueue(old(queues), a, t.1) && r == Saturate(|t.0|)
    {
      if count < 0 { return -EINVAL; }
      if a !in queues { return 0; }
      r := WakeLoop(a, count);
    }

    method FutexWakeOrSet(a: int, count: int, newValue: Word) returns (r: int)
      requires count <= I32_MAX
      modifies this
      ensures count < 0 ==> r == -EINVAL && queues == old(queues) && wakeups == old(wakeups) && mem == old(mem)
      ensures count >= 0 ==>
        var q := QueueOf(old(queues), a);
        var t := Pops(q, Limit(q, count));
        && wakeups == old(wakeups) + t.0
        && queues == (if a in old(queues) then SetQueue(old(queues), a, t.1) else old(queues))
        && r == Saturate(|t.0|)
        && mem == if t.0 == [] then old(mem)[a := newValue] else old(mem)
    {
      if count < 0 { return -EINVAL; }
      if a !in queues {
        mem := mem[a := newValue];
        return 0;
      }
      r := WakeLoop(a, count);
      if r == 0 { mem := mem[a := newValue]; }
    }
  }
}
