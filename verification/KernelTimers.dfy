/**
 * The timers of all cores: the blocked queues stay sorted, the scheduler slot is never later than the
 * first wake-up time, and the hardware timer stands at the earliest slot.
 */
module KernelTimers {
  import opened Basics
  import opened BlockedQueue
  import opened KernelState
  import Timers

  predicate Finite(l: seq<Sleeper>) {
    forall i :: 0 <= i < |l| && l[i].wakeup.Some? ==> l[i].wakeup.value < U64_MAX
  }

  ghost predicate TimerOk(t: Timers.Slots, l: seq<Sleeper>) {
    Sorted(l) && SlotInTime(t, l) && Finite(l) && Timers.Armed(t)
  }

  ghost predicate TimersOk(k: Kernel) {
    forall c :: 0 <= c < |k.cores| ==> TimerOk(k.cores[c].timers, k.cores[c].blocked)
  }

  /** The timers are kept by a step that touches the timers and the blocked queue of one core at most. */
  lemma OneTimerChanged(k: Kernel, k': Kernel, c: nat)
    requires TimersOk(k) && c < |k.cores| && |k'.cores| == |k.cores|
    requires forall i :: 0 <= i < |k.cores| && i != c ==>
      k'.cores[i].timers == k.cores[i].timers && k'.cores[i].blocked == k.cores[i].blocked
    requires TimerOk(k'.cores[c].timers, k'.cores[c].blocked)
    ensures TimersOk(k')
  {}

  lemma SetTimerArmed(t: Timers.Slots, wakeup: Option<Time>)
    requires Timers.Armed(t) && (wakeup.Some? ==> wakeup.value < U64_MAX)
    ensures Timers.Armed(SetTimer(t, wakeup))
  {
    if wakeup.Some? { Timers.CreateKeepsArmed(t, Timers.Scheduler, wakeup.value); }
  }

  lemma InsertTimer(t: Timers.Slots, l: seq<Sleeper>, s: Sleeper)
    requires TimerOk(t, l) && (s.wakeup.Some? ==> s.wakeup.value < U64_MAX)
    ensures TimerOk(SetTimer(t, s.wakeup), Insert(l, s))
  {
    InsertKeepsOrder(l, s, t);
    SetTimerArmed(t, s.wakeup);
    var p := InsertPlace(l, s);
    var r := Insert(l, s);
    assert forall i :: 0 <= i < |r| ==> r[i] == if i < p then l[i] else if i == p then s else l[i - 1];
  }

  lemma RemoveTimer(t: Timers.Slots, l: seq<Sleeper>, i: nat)
    requires TimerOk(t, l) && i < |l|
    ensures TimerOk(TimerAfterRemove(t, l, i), RemoveAt(l, i))
  {
    RemoveKeepsOrder(l, i, t);
    if i == 0 && |l| > 1 { SetTimerArmed(t, l[1].wakeup); }
  }

  /** Expiry needs nothing of the scheduler slot: it sets it again. */
  lemma ExpireTimer(t: Timers.Slots, l: seq<Sleeper>, now: Time)
    requires Sorted(l) && Finite(l) && Timers.Armed(t)
    ensures TimerOk(TimerAfterExpiry(t, Remaining(l, now)), Remaining(l, now))
  {
    ExpiryRestoresTimer(l, now, t);
    var e, r := Expired(l, now), Remaining(l, now);
    assert forall i :: 0 <= i < |r| ==> r[i] == l[|e| + i];
    if r != [] { SetTimerArmed(t, r[0].wakeup); }
  }

  lemma BlockKeepsTimers(k: Kernel, c: nat, wakeup: Option<Time>)
    requires TimersOk(k) && Shape(k, c) && CurrentStatus(k, c) == Running
    requires wakeup.Some? ==> wakeup.value < U64_MAX
    ensures TimersOk(BlockCurrent(k, c, wakeup).k)
  {
    InsertTimer(k.cores[c].timers, k.cores[c].blocked, Sleeper(k.cores[c].current, wakeup));
    OneTimerChanged(k, BlockCurrent(k, c, wakeup).k, c);
  }

  lemma WakeKeepsTimers(k: Kernel, c: nat, id: int)
    requires TimersOk(k) && Shape(k, c) && WakeLocal(k, c, id).Next?
    ensures TimersOk(WakeLocal(k, c, id).k)
  {
    var core := k.cores[c];
    RemoveTimer(core.timers, core.blocked, IndexOf(core.blocked, id));
    OneTimerChanged(k, WakeLocal(k, c, id).k, c);
  }

  lemma ExpiryKeepsTimers(k: Kernel, c: nat, now: Time)
    requires TimersOk(k) && Shape(k, c) && HandleWaiting(k, c, now).Next?
    ensures TimersOk(HandleWaiting(k, c, now).k)
  {
    ExpireTimer(k.cores[c].timers, k.cores[c].blocked, now);
    OneTimerChanged(k, HandleWaiting(k, c, now).k, c);
  }

  /** The interrupt clears the slot that fired before the queue sets it again. */
  lemma InterruptKeepsTimers(k: Kernel, c: nat, now: Time)
    requires TimersOk(k) && Shape(k, c) && TimerInterrupt(k, c, now).Next?
    ensures TimersOk(TimerInterrupt(k, c, now).k)
  {
    var core := k.cores[c];
    Timers.ClearActiveEffect(core.timers, now);
    ExpireTimer(Timers.ClearActive(core.timers, now), core.blocked, now);
    OneTimerChanged(k, TimerInterrupt(k, c, now).k, c);
  }

  lemma NetworkTimerOk(t: Timers.Slots, l: seq<Sleeper>, wt: Time)
    requires TimerOk(t, l) && wt < U64_MAX
    ensures TimerOk(Timers.Create(t, Timers.Network, wt), l)
  {
    Timers.CreateKeepsArmed(t, Timers.Network, wt);
    Timers.CreateIsMinimum(t, Timers.Network, wt);
  }
}
