/**
 * The restart limiter of the supervisor: how many restarts an entry point is granted, and how many
 * of them can fall into any interval shorter than the configured window.
 */
module Supervisor {
  import opened Basics

  type U32 = x: nat | x <= U32_MAX

  /** `window` is the policy's window in microseconds, truncated to 64 bits. */
  datatype RestartPolicy = Never | Always | MaxN(count: U32, window: Time)

  datatype Entry = Entry(policy: RestartPolicy, restartCount: U32, windowStart: Time)

  function NewEntry(policy: RestartPolicy): Entry {
    Entry(policy, 0, 0)
  }

  function SaturatingInc(x: U32): U32 {
    if x == U32_MAX then x else x + 1
  }

  function SaturatingSub(x: nat, y: nat): nat {
    if x >= y then x - y else 0
  }

  /** The decision of `may_restart` at time `now` and the history it leaves. */
  function Decide(e: Entry, now: Time): (Entry, bool) {
    match e.policy
    case Never => (e, false)
    case Always => (e.(restartCount := SaturatingInc(e.restartCount)), true)
    case MaxN(count, window) =>
      var e1 := Slide(e, now, window);
      if e1.restartCount < count then (e1.(restartCount := SaturatingInc(e1.restartCount)), true) else (e1, false)
  }

  function Slide(e: Entry, now: Time, window: Time): Entry {
    if window != 0 && e.windowStart != 0 && SaturatingSub(now, e.windowStart) >= window
    then e.(restartCount := 0, windowStart := now)
    else if e.windowStart == 0 then e.(windowStart := now)
    else e
  }

  class RestartEntry {
    const policy: RestartPolicy
    var restartCount: U32
    var windowStart: Time
    /** The times of all calls so far. */
    ghost var calls: seq<Time>

    function View(): Entry
      reads this
    {
      Entry(policy, restartCount, windowStart)
    }

    ghost predicate Valid()
      reads this
    {
      View() == After(NewEntry(policy), calls)
    }

    constructor (policy: RestartPolicy)
      ensures Valid() && this.policy == policy && calls == []
    {
      this.policy := policy;
      restartCount := 0;
      windowStart := 0;
      calls := [];
    }

    /**
     * Decides one restart. While the clock does not go back, no interval shorter than the window that ends
     * with this call has more than `2 * count - 1` grants. A call with fewer than `count` grants in the
     * `window` ticks before it is granted, unless grants at time zero are carried over.
     */
    method MayRestart(now: Time) returns (granted: bool)
      requires Valid()
      modifies this
      ensures Valid() && calls == old(calls) + [now]
      ensures Granted(NewEntry(policy), calls) == Granted(NewEntry(policy), old(calls)) + if granted then 1 else 0
      ensures (policy.Never? ==> !granted) && (policy.Always? ==> granted)
      ensures policy.MaxN? && policy.count > 0 && NonDecreasing(calls) ==>
        forall lo: nat :: lo < |calls| && now - calls[lo] < policy.window ==>
          GrantedBetween(policy, calls, lo, |calls|) <= 2 * policy.count - 1
      ensures policy.MaxN? && policy.window == 0 ==>
        (granted <==> Granted(NewEntry(policy), old(calls)) < policy.count)
      ensures policy.MaxN? && policy.window > 0 && policy.count > 0 && NonDecreasing(calls)
              && GrantsSince(NewEntry(policy), old(calls), now - policy.window + 1) < policy.count ==>
        (granted <==> !CarriedOver(policy, old(calls), now))
    {
      match policy {
        case Never => granted := false;
        case Always =>
          restartCount := SaturatingInc(restartCount);
          granted := true;
        case MaxN(count, window) =>
          if window != 0 && windowStart != 0 && SaturatingSub(now, windowStart) >= window {
            restartCount := 0;
            windowStart := now;
          } else if windowStart == 0 {
            windowStart := now;
          }
          if restartCount < count {
            restartCount := SaturatingInc(restartCount);
            granted := true;
          } else {
            granted := false;
          }
      }
      assert (View(), granted) == Decide(old(View()), now);
      OneMoreCall(NewEntry(policy), calls, now);
      if policy.MaxN? { LastCallIsGranted(policy, calls, now); }
      calls := calls + [now];
      RateOfLastCall(policy, calls);
    }
  }

  // ---- Runs ----

  /** The history after the calls at `times`. */
  function After(e: Entry, times: seq<Time>): Entry
    decreases |times|
  {
    if times == [] then e else After(Decide(e, times[0]).0, times[1..])
  }

  /** How many of the calls at `times` are granted. */
  function Granted(e: Entry, times: seq<Time>): nat
    decreases |times|
  {
    if times == [] then 0 else (if Decide(e, times[0]).1 then 1 else 0) + Granted(Decide(e, times[0]).0, times[1..])
  }

  ghost predicate NonDecreasing(times: seq<Time>) {
    forall i, j :: 0 <= i <= j < |times| ==> times[i] <= times[j]
  }

  /** Grants among calls `lo` to `hi - 1` of a run that starts with a fresh entry. */
  function GrantedBetween(policy: RestartPolicy, times: seq<Time>, lo: nat, hi: nat): nat
    requires lo <= hi <= |times|
  {
    Granted(After(NewEntry(policy), times[..lo]), times[lo..hi])
  }

  /** No call in `times` leaves the window that is open in `e`. */
  ghost predicate Inside(e: Entry, times: seq<Time>)
    requires e.policy.MaxN?
  {
    forall i :: 0 <= i < |times| ==> e.policy.window == 0 || SaturatingSub(times[i], e.windowStart) < e.policy.window
  }

  /** While the window stays open at most the remainder of the allowance is granted. */
  lemma {:induction false} InsideBound(e: Entry, times: seq<Time>)
    requires e.policy.MaxN? && e.restartCount <= e.policy.count
    requires e.windowStart != 0 && Inside(e, times)
    ensures Granted(e, times) <= e.policy.count - e.restartCount
    decreases |times|
  {
    if times != [] {
      var e' := Decide(e, times[0]).0;
      assert e'.windowStart == e.windowStart;
      assert forall i :: 0 <= i < |times[1..]| ==> times[1..][i] == times[i + 1];
      InsideBound(e', times[1..]);
    }
  }

  /** A history without an open window opens one at the first call that is not at time zero. */
  lemma {:induction false} OpeningBound(e: Entry, times: seq<Time>)
    requires e.policy.MaxN? && e.restartCount <= e.policy.count && e.windowStart == 0
    requires NonDecreasing(times)
    requires times != [] ==> times[|times| - 1] - times[0] < e.policy.window
    ensures Granted(e, times) <= e.policy.count - e.restartCount
    decreases |times|
  {
    if times != [] {
      var e' := Decide(e, times[0]).0;
      assert forall i :: 0 <= i < |times[1..]| ==> times[1..][i] == times[i + 1];
      if times[0] == 0 {
        OpeningBound(e', times[1..]);
      } else {
        InsideBound(e', times[1..]);
      }
    }
  }

  /** In an interval shorter than the window at most one new window is opened. */
  lemma {:induction false} IntervalBound(e: Entry, times: seq<Time>)
    requires e.policy.MaxN? && e.restartCount <= e.policy.count
    requires NonDecreasing(times)
    requires times != [] ==> times[|times| - 1] - times[0] < e.policy.window
    ensures Granted(e, times) <= e.policy.count - e.restartCount + e.policy.count
    ensures e.windowStart == 0 ==> Granted(e, times) <= e.policy.count - e.restartCount
    decreases |times|
  {
    if e.windowStart == 0 {
      OpeningBound(e, times);
    } else if times != [] {
      var e' := Decide(e, times[0]).0;
      assert forall i :: 0 <= i < |times[1..]| ==> times[1..][i] == times[i + 1];
      if SaturatingSub(times[0], e.windowStart) >= e.policy.window {
        InsideBound(e', times[1..]);
      } else {
        IntervalBound(e', times[1..]);
      }
    }
  }

  /** Once called, an entry with a positive allowance has spent part of its current window. */
  lemma {:induction false} SpentAfter(e: Entry, times: seq<Time>)
    requires e.policy.MaxN? && e.restartCount <= e.policy.count && e.policy.count > 0
    ensures After(e, times).policy == e.policy && After(e, times).restartCount <= e.policy.count
    ensures times == [] ==> After(e, times) == e
    ensures times != [] ==> After(e, times).restartCount > 0
    decreases |times|
  {
    if times != [] { SpentAfter(Decide(e, times[0]).0, times[1..]); }
  }

  /**
   * The rate the limiter really enforces: calls `lo` to `hi - 1` of any run, when the first and the
   * last are less than a window apart, are granted at most `2 * count - 1` times.
   */
  lemma RestartRate(count: U32, window: Time, times: seq<Time>, lo: nat, hi: nat)
    requires count > 0 && lo < hi <= |times| && NonDecreasing(times)
    requires times[hi - 1] - times[lo] < window
    ensures GrantedBetween(MaxN(count, window), times, lo, hi) <= 2 * count - 1
  {
    var e := NewEntry(MaxN(count, window));
    SpentAfter(e, times[..lo]);
    IntervalBound(After(e, times[..lo]), times[lo..hi]);
  }

  lemma RateOfLastCall(policy: RestartPolicy, calls: seq<Time>)
    requires calls != []
    ensures policy.MaxN? && policy.count > 0 && NonDecreasing(calls) ==>
      forall lo: nat :: lo < |calls| && calls[|calls| - 1] - calls[lo] < policy.window ==>
        GrantedBetween(policy, calls, lo, |calls|) <= 2 * policy.count - 1
  {
    if policy.MaxN? && policy.count > 0 && NonDecreasing(calls) {
      forall lo: nat | lo < |calls| && calls[|calls| - 1] - calls[lo] < policy.window
        ensures GrantedBetween(policy, calls, lo, |calls|) <= 2 * policy.count - 1
      {
        RestartRate(policy.count, policy.window, calls, lo, |calls|);
      }
    }
  }

  // ---- The documented rate, and exactly which policies meet it ----

  /** "At most `count` restarts within a `window`": no interval shorter than the window has more. */
  ghost predicate SlidingRate(count: U32, window: Time) {
    forall times, lo: nat, hi: nat ::
      lo < hi <= |times| && NonDecreasing(times) && times[hi - 1] - times[lo] < window ==>
        GrantedBetween(MaxN(count, window), times, lo, hi) <= count
  }

  function Repeat(t: Time, n: nat): (r: seq<Time>)
    ensures |r| == n && forall i :: 0 <= i < n ==> r[i] == t
  {
    if n == 0 then [] else [t] + Repeat(t, n - 1)
  }

  /** Calls at one moment inside an open window use up the allowance and no more. */
  lemma {:induction false} RepeatedCalls(e: Entry, t: Time, n: nat)
    requires e.policy.MaxN? && e.windowStart != 0 && e.restartCount + n <= e.policy.count
    requires e.policy.window == 0 || SaturatingSub(t, e.windowStart) < e.policy.window
    ensures Granted(e, Repeat(t, n)) == n
    ensures After(e, Repeat(t, n)) == e.(restartCount := e.restartCount + n)
    decreases n
  {
    if n > 0 {
      assert Repeat(t, n)[1..] == Repeat(t, n - 1);
      RepeatedCalls(Decide(e, t).0, t, n - 1);
    }
  }

  lemma {:induction false} Split(e: Entry, a: seq<Time>, b: seq<Time>)
    ensures Granted(e, a + b) == Granted(e, a) + Granted(After(e, a), b)
    ensures After(e, a + b) == After(After(e, a), b)
    decreases |a|
  {
    if a == [] {
      assert a + b == b;
    } else {
      assert (a + b)[1..] == a[1..] + b;
      Split(Decide(e, a[0]).0, a[1..], b);
    }
  }

  lemma OneMoreCall(e: Entry, times: seq<Time>, now: Time)
    ensures After(e, times + [now]) == Decide(After(e, times), now).0
    ensures Granted(e, times + [now]) == Granted(e, times) + if Decide(After(e, times), now).1 then 1 else 0
  {
    Split(e, times, [now]);
    assert [now][1..] == [];
  }

  /** With one grant used at time 1, the rest at the end of the window and all of the next one are granted. */
  lemma BurstIsGranted(count: U32, window: Time)
    requires count >= 2 && 2 <= window < U64_MAX
    ensures Granted(Entry(MaxN(count, window), 1, 1), Repeat(window, count - 1) + Repeat(window + 1, count)) == 2 * count - 1
  {
    var e1 := Entry(MaxN(count, window), 1, 1);
    var late, next := Repeat(window, count - 1), Repeat(window + 1, count);
    Split(e1, late, next);
    RepeatedCalls(e1, window, count - 1);
    var e2 := e1.(restartCount := count);
    var e3 := Entry(MaxN(count, window), 1, window + 1);
    assert Decide(e2, window + 1) == (e3, true);
    assert next[1..] == Repeat(window + 1, count - 1);
    RepeatedCalls(e3, window + 1, count - 1);
  }

  /** One grant early in a window, the rest at its end, and a full new allowance one tick later. */
  lemma BurstAcrossWindows(count: U32, window: Time)
    requires count >= 2 && 2 <= window < U64_MAX
    ensures var times := [1] + Repeat(window, count - 1) + Repeat(window + 1, count);
      && NonDecreasing(times)
      && GrantedBetween(MaxN(count, window), times, 1, |times|) == 2 * count - 1
  {
    var late, next := Repeat(window, count - 1), Repeat(window + 1, count);
    var times := [1] + late + next;
    assert times[..1] == [1] && times[1..|times|] == late + next;
    assert After(NewEntry(MaxN(count, window)), [1]) == Entry(MaxN(count, window), 1, 1);
    BurstIsGranted(count, window);
  }

  /** With one-tick windows, calls at one moment are granted at most `count` times. */
  lemma OneTickWindow(e: Entry, times: seq<Time>)
    requires e.policy.MaxN? && e.restartCount <= e.policy.count && e.policy.window == 1
    requires NonDecreasing(times) && times != [] && times[|times| - 1] == times[0]
    ensures Granted(e, times) <= e.policy.count
  {
    assert forall i :: 0 <= i < |times| ==> times[i] == times[0];
    if e.windowStart == 0 {
      OpeningBound(e, times);
    } else if SaturatingSub(times[0], e.windowStart) < 1 {
      InsideBound(e, times);
    } else {
      var e' := Decide(e, times[0]).0;
      assert forall i :: 0 <= i < |times[1..]| ==> times[1..][i] == times[i + 1];
      InsideBound(e', times[1..]);
    }
  }

  /** A window of 2^64 - 1 ticks is never left. */
  lemma EndlessWindow(e: Entry, times: seq<Time>)
    requires e.policy.MaxN? && e.restartCount <= e.policy.count && e.policy.window == U64_MAX
    requires NonDecreasing(times) && times != [] && times[|times| - 1] - times[0] < U64_MAX
    ensures Granted(e, times) <= e.policy.count
  {
    if e.windowStart == 0 { OpeningBound(e, times); } else { InsideBound(e, times); }
  }

  lemma {:induction false} NoAllowance(e: Entry, times: seq<Time>)
    requires e.policy.MaxN? && e.policy.count == 0
    ensures Granted(e, times) == 0
    decreases |times|
  {
    if times != [] { NoAllowance(Decide(e, times[0]).0, times[1..]); }
  }

  lemma {:induction false} CountStaysBounded(e: Entry, times: seq<Time>)
    requires e.policy.MaxN? && e.restartCount <= e.policy.count
    ensures After(e, times).policy == e.policy && After(e, times).restartCount <= e.policy.count
    decreases |times|
  {
    if times != [] { CountStaysBounded(Decide(e, times[0]).0, times[1..]); }
  }

  /** A policy for which the documented rate holds, on one interval. */
  lemma SlidingRateOn(count: U32, window: Time, times: seq<Time>, lo: nat, hi: nat)
    requires count <= 1 || window <= 1 || window == U64_MAX
    requires lo < hi <= |times| && NonDecreasing(times) && times[hi - 1] - times[lo] < window
    ensures GrantedBetween(MaxN(count, window), times, lo, hi) <= count
  {
    var e := NewEntry(MaxN(count, window));
    var mid, part := After(e, times[..lo]), times[lo..hi];
    CountStaysBounded(e, times[..lo]);
    assert part[0] == times[lo] && part[|part| - 1] == times[hi - 1];
    assert NonDecreasing(part) by { assert forall i :: 0 <= i < |part| ==> part[i] == times[lo + i]; }
    if count == 0 { NoAllowance(mid, part); }
    else if count == 1 { RestartRate(count, window, times, lo, hi); }
    else if window == U64_MAX { EndlessWindow(mid, part); }
    else {
      assert part[|part| - 1] == part[0];
      OneTickWindow(mid, part);
    }
  }

  /** The documented sliding rate holds exactly for these policies; for all others it is exceeded. */
  lemma SlidingRateIff(count: U32, window: Time)
    ensures SlidingRate(count, window) <==> count <= 1 || window <= 1 || window == U64_MAX
  {
    if count <= 1 || window <= 1 || window == U64_MAX {
      forall times, lo: nat, hi: nat |
        lo < hi <= |times| && NonDecreasing(times) && times[hi - 1] - times[lo] < window
        ensures GrantedBetween(MaxN(count, window), times, lo, hi) <= count
      {
        SlidingRateOn(count, window, times, lo, hi);
      }
    } else {
      BurstAcrossWindows(count, window);
      var times := [1] + Repeat(window, count - 1) + Repeat(window + 1, count);
      assert times[|times| - 1] == window + 1 && times[1] == window;
      assert GrantedBetween(MaxN(count, window), times, 1, |times|) > count;
    }
  }

  // ---- What the limiter must not refuse ----

  /** How many of the granted calls are at time `t` or later. */
  function GrantsSince(e: Entry, times: seq<Time>, t: int): nat
    decreases |times|
  {
    if times == [] then 0
    else
      (if Decide(e, times[0]).1 && times[0] >= t then 1 else 0) + GrantsSince(Decide(e, times[0]).0, times[1..], t)
  }

  lemma {:induction false} GrantsSinceSnoc(e: Entry, times: seq<Time>, now: Time, t: int)
    ensures GrantsSince(e, times + [now], t)
         == GrantsSince(e, times, t) + if Decide(After(e, times), now).1 && now >= t then 1 else 0
    decreases |times|
  {
    if times == [] {
      assert times + [now] == [now] && [now][1..] == [];
    } else {
      assert (times + [now])[1..] == times[1..] + [now];
      GrantsSinceSnoc(Decide(e, times[0]).0, times[1..], now, t);
    }
  }

  lemma {:induction false} GrantsSinceMonotone(e: Entry, times: seq<Time>, t: int, u: int)
    requires t <= u
    ensures GrantsSince(e, times, u) <= GrantsSince(e, times, t)
    ensures t <= 0 ==> GrantsSince(e, times, t) == Granted(e, times)
    decreases |times|
  {
    if times != [] { GrantsSinceMonotone(Decide(e, times[0]).0, times[1..], t, u); }
  }

  /** The first time that is not zero, or zero. */
  function FirstNonZero(times: seq<Time>): (t: Time)
    ensures t == 0 <==> forall i :: 0 <= i < |times| ==> times[i] == 0
    decreases |times|
  {
    if times == [] then 0
    else if times[0] != 0 then times[0]
    else
      assert forall i :: 0 < i < |times| ==> times[i] == times[1..][i - 1];
      FirstNonZero(times[1..])
  }

  lemma {:induction false} FirstNonZeroSnoc(times: seq<Time>, now: Time)
    ensures FirstNonZero(times + [now]) == if FirstNonZero(times) != 0 then FirstNonZero(times) else now
    decreases |times|
  {
    if times == [] {
      assert times + [now] == [now] && [now][1..] == [];
    } else {
      assert (times + [now])[1..] == times[1..] + [now];
      FirstNonZeroSnoc(times[1..], now);
    }
  }

  /**
   * A window start of zero stands for "no window yet". Calls at time zero therefore open none, and what they
   * were granted counts in the window of the first later call.
   */
  predicate CarriedOver(policy: RestartPolicy, times: seq<Time>, now: Time)
    requires policy.MaxN?
  {
    && times != [] && times[0] == 0
    && now - FirstNonZero(times + [now]) < policy.window
    && FirstNonZero(times + [now]) != 0
    && Granted(NewEntry(policy), times) >= policy.count
  }

  /** The open window began at a call, and the count covers no grant before it, time zero apart. */
  ghost predicate Counts(count: U32, window: Time, times: seq<Time>) {
    var e0 := NewEntry(MaxN(count, window));
    var e := After(e0, times);
    && e.policy == MaxN(count, window)
    && (e.windowStart == 0 ==> FirstNonZero(times) == 0 && e.restartCount == Granted(e0, times))
    && (e.windowStart != 0 ==>
          && times != [] && 0 < FirstNonZero(times) <= e.windowStart <= times[|times| - 1]
          && (if times[0] == 0 && e.windowStart - FirstNonZero(times) < window
              then e.windowStart == FirstNonZero(times) && e.restartCount == Granted(e0, times)
              else e.restartCount <= GrantsSince(e0, times, e.windowStart)))
  }

  lemma CountsSnoc(count: U32, window: Time, times: seq<Time>, now: Time)
    requires count > 0 && window > 0 && Counts(count, window, times)
    requires times != [] ==> times[|times| - 1] <= now
    ensures Counts(count, window, times + [now])
  {
    var e0 := NewEntry(MaxN(count, window));
    var e := After(e0, times);
    OneMoreCall(e0, times, now);
    FirstNonZeroSnoc(times, now);
    var e' := Decide(e, now).0;
    GrantsSinceSnoc(e0, times, now, e'.windowStart);
    if e.windowStart == 0 && times != [] { assert times[0] == 0; }
  }

  lemma {:induction false} RunCounts(count: U32, window: Time, times: seq<Time>)
    requires count > 0 && window > 0 && NonDecreasing(times)
    ensures Counts(count, window, times)
    decreases |times|
  {
    if times != [] {
      var n := |times| - 1;
      assert times[..n] + [times[n]] == times;
      RunCounts(count, window, times[..n]);
      CountsSnoc(count, window, times[..n], times[n]);
    }
  }

  /**
   * The other half of the rate: a call is granted whenever fewer than `count` grants lie in the `window` ticks
   * before it, except exactly when grants at time zero are carried over.
   */
  lemma RestartIsGranted(count: U32, window: Time, times: seq<Time>, now: Time)
    requires count > 0 && window > 0 && NonDecreasing(times + [now])
    requires GrantsSince(NewEntry(MaxN(count, window)), times, now - window + 1) < count
    ensures Decide(After(NewEntry(MaxN(count, window)), times), now).1 <==> !CarriedOver(MaxN(count, window), times, now)
  {
    var e0 := NewEntry(MaxN(count, window));
    var e := After(e0, times);
    assert forall i :: 0 <= i < |times| ==> (times + [now])[i] == times[i];
    assert times != [] ==> times[|times| - 1] <= (times + [now])[|times|];
    RunCounts(count, window, times);
    FirstNonZeroSnoc(times, now);
    if e.windowStart != 0 && now - e.windowStart < window {
      GrantsSinceMonotone(e0, times, now - window + 1, e.windowStart);
    } else if e.windowStart == 0 {
      GrantsSinceMonotone(e0, times, now - window + 1, now - window + 1);
      if times != [] { assert times[0] == 0; }
    }
  }

  /** A limiter that is not called at time zero grants every call with allowance left in the last `window` ticks. */
  lemma RestartIsGrantedAfterZero(count: U32, window: Time, times: seq<Time>, now: Time)
    requires count > 0 && window > 0 && NonDecreasing(times + [now]) && (times != [] ==> times[0] > 0)
    requires GrantsSince(NewEntry(MaxN(count, window)), times, now - window + 1) < count
    ensures Decide(After(NewEntry(MaxN(count, window)), times), now).1
  {
    RestartIsGranted(count, window, times, now);
  }

  /** One grant at time zero refuses a call long after the window has passed. */
  lemma CarriedOverFromZero()
    ensures var e := NewEntry(MaxN(1, 10));
      GrantsSince(e, [0], 100 - 10 + 1) == 0 && !Decide(After(e, [0]), 100).1
  {
    var e := NewEntry(MaxN(1, 10));
    assert [0 as Time][1..] == [];
    assert After(e, [0]) == Entry(MaxN(1, 10), 1, 0);
  }

  /** Without a window the allowance is for ever. */
  lemma {:induction false} NeverForgets(count: U32, times: seq<Time>)
    ensures After(NewEntry(MaxN(count, 0)), times).policy == MaxN(count, 0)
    ensures After(NewEntry(MaxN(count, 0)), times).restartCount == Granted(NewEntry(MaxN(count, 0)), times)
    ensures Granted(NewEntry(MaxN(count, 0)), times) <= count
    decreases |times|
  {
    if times != [] {
      var n := |times| - 1;
      assert times[..n] + [times[n]] == times;
      NeverForgets(count, times[..n]);
      OneMoreCall(NewEntry(MaxN(count, 0)), times[..n], times[n]);
    }
  }

  /** Both cases, as the limiter decides them. */
  lemma LastCallIsGranted(policy: RestartPolicy, times: seq<Time>, now: Time)
    requires policy.MaxN?
    ensures var granted := Decide(After(NewEntry(policy), times), now).1;
      && (policy.window == 0 ==> (granted <==> Granted(NewEntry(policy), times) < policy.count))
      && (policy.window > 0 && policy.count > 0 && NonDecreasing(times + [now])
          && GrantsSince(NewEntry(policy), times, now - policy.window + 1) < policy.count ==>
            (granted <==> !CarriedOver(policy, times, now)))
  {
    if policy.window == 0 {
      NeverForgets(policy.count, times);
    } else if policy.count > 0 && NonDecreasing(times + [now])
              && GrantsSince(NewEntry(policy), times, now - policy.window + 1) < policy.count {
      RestartIsGranted(policy.count, policy.window, times, now);
    }
  }
}
