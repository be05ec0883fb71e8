/**
 * `TimerList`: two timer sources share one hardware timer. A slot with the value 2^64 - 1 is not set.
 * The hardware timer is modelled by the last value programmed into it.
 */
module Timers {
  import opened Basics

  datatype Source = Network | Scheduler

  datatype Slots = Slots(network: Time, scheduler: Time, armed: Option<Time>)

  const NoTimers: Slots := Slots(U64_MAX, U64_MAX, None)

  function Min(a: nat, b: nat): nat {
    if a <= b then a else b
  }

  function Earliest(t: Slots): Time {
    Min(t.network, t.scheduler)
  }

  /** The hardware timer is programmed to the earliest set slot, and off when none is set. */
  predicate Armed(t: Slots) {
    t.armed == if Earliest(t) == U64_MAX then None else Some(Earliest(t))
  }

  /** `create_timer_abs`: the slot takes the minimum; the hardware is programmed if `wt` is now next. */
  function Create(t: Slots, source: Source, wt: Time): Slots {
    var t1 := if source.Network? then t.(network := Min(t.network, wt)) else t.(scheduler := Min(t.scheduler, wt));
    if Earliest(t1) == wt then t1.(armed := Some(wt)) else t1
  }

  function Shift(w: Time, offset: nat): Time
    requires w == U64_MAX || offset <= w
  {
    if w == U64_MAX then w else w - offset
  }

  /** `clear_active_and_set_next` at time `now`; an unset timer list fails an assertion. */
  function ClearActive(t: Slots, now: Time): Slots
    requires Earliest(t) != U64_MAX
  {
    var fired := Earliest(t);
    var t1 := if t.network <= t.scheduler then t.(network := U64_MAX) else t.(scheduler := U64_MAX);
    var offset := if fired > now then fired - now else 0;
    var t2 := t1.(network := Shift(t1.network, offset), scheduler := Shift(t1.scheduler, offset));
    t2.(armed := if Earliest(t2) == U64_MAX then None else Some(Earliest(t2)))
  }

  datatype Slot = Slot(source: Source, wakeupTime: Time)

  class TimerList {
    const slots: array<Slot>
    var armed: Option<Time>

    ghost predicate Valid()
      reads this, slots
    {
      slots.Length == 2 && slots[0].source == Network && slots[1].source == Scheduler
    }

    ghost function View(): Slots
      requires Valid()
      reads this, slots
    {
      Slots(slots[0].wakeupTime, slots[1].wakeupTime, armed)
    }

    constructor ()
      ensures Valid() && fresh(slots) && View() == NoTimers
    {
      slots := new Slot[][Slot(Network, U64_MAX), Slot(Scheduler, U64_MAX)];
      armed := None;
    }

    method SlotBySource(source: Source) returns (i: nat)
      requires Valid()
      ensures i < slots.Length && slots[i].source == source
    {
      i := 0;
      while slots[i].source != source
        invariant i < slots.Length
        invariant i == 1 ==> source == Scheduler
        decreases slots.Length - i
      {
        i := i + 1;
      }
    }

    /** The slot that fires next; of two equal ones the first. */
    method NextTimer() returns (i: nat)
      requires Valid()
      ensures i < slots.Length
      ensures forall j :: 0 <= j < slots.Length ==> slots[i].wakeupTime <= slots[j].wakeupTime
      ensures forall j :: 0 <= j < i ==> slots[i].wakeupTime < slots[j].wakeupTime
    {
      i := 0;
      for j := 1 to slots.Length
        invariant i < slots.Length
        invariant forall k :: 0 <= k < j ==> slots[i].wakeupTime <= slots[k].wakeupTime
        invariant forall k :: 0 <= k < i ==> slots[i].wakeupTime < slots[k].wakeupTime
      {
        if slots[j].wakeupTime < slots[i].wakeupTime { i := j; }
      }
    }

    method CreateTimerAbs(source: Source, wakeupTime: Time)
      requires Valid()
      modifies this, slots
      ensures Valid() && View() == Create(old(View()), source, wakeupTime)
    {
      var i := SlotBySource(source);
      slots[i] := slots[i].(wakeupTime := Min(slots[i].wakeupTime, wakeupTime));
      var n := NextTimer();
      assert slots[n].wakeupTime == Min(slots[0].wakeupTime, slots[1].wakeupTime);
      if slots[n].wakeupTime == wakeupTime { armed := Some(wakeupTime); }
    }

    /** Moves every set timer `offset` earlier; no timer may be earlier than that. */
    method AdjustBy(offset: nat)
      requires Valid()
      requires forall i :: 0 <= i < slots.Length ==> slots[i].wakeupTime == U64_MAX || offset <= slots[i].wakeupTime
      modifies slots
      ensures Valid()
      ensures forall i :: 0 <= i < slots.Length ==>
                slots[i] == old(slots[i]).(wakeupTime := Shift(old(slots[i].wakeupTime), offset))
    {
      for i := 0 to slots.Length
        invariant forall j :: i <= j < slots.Length ==> slots[j] == old(slots[j])
        invariant forall j :: 0 <= j < i ==>
                    slots[j] == old(slots[j]).(wakeupTime := Shift(old(slots[j].wakeupTime), offset))
      {
        if slots[i].wakeupTime != U64_MAX {
          slots[i] := slots[i].(wakeupTime := slots[i].wakeupTime - offset);
        }
      }
    }

    method ClearActiveAndSetNext(now: Time)
      requires Valid() && Earliest(View()) != U64_MAX
      modifies this, slots
      ensures Valid() && View() == ClearActive(old(View()), now)
    {
      var lowest := NextTimer();
      var prev := slots[lowest].wakeupTime;
      slots[lowest] := slots[lowest].(wakeupTime := U64_MAX);
      if prev > now {
        AdjustBy(prev - now);
      }
      var n := NextTimer();
      var next := slots[n].wakeupTime;
      assert next == Min(slots[0].wakeupTime, slots[1].wakeupTime);
      if next == U64_MAX {
        armed := None;
      } else {
        armed := Some(next);
      }
    }
  }

  // ---- What the multiplexing guarantees ----

  /**
   * Setting a timer keeps the hardware on the earliest slot, with one exception: "setting" the value
   * that means unset while nothing is set programs the hardware.
   */
  lemma CreateKeepsArmed(t: Slots, source: Source, wt: Time)
    requires Armed(t)
    ensures Armed(Create(t, source, wt)) <==> !(wt == U64_MAX && Earliest(t) == U64_MAX)
    ensures wt < U64_MAX ==> Create(t, source, wt).armed.Some? && Create(t, source, wt).armed.value <= wt
  {}

  /** The other source keeps its time, and a source never fires later than any time asked for. */
  lemma CreateIsMinimum(t: Slots, source: Source, wt: Time)
    ensures var t' := Create(t, source, wt);
      if source.Network?
      then t'.scheduler == t.scheduler && t'.network == Min(t.network, wt)
      else t'.network == t.network && t'.scheduler == Min(t.scheduler, wt)
  {}

  /**
   * A timer interrupt clears exactly the slot that fired. If it came early, the remaining timer is
   * moved so that it is not before `now` and as far from `now` as it was from the fired timer.
   */
  lemma ClearActiveEffect(t: Slots, now: Time)
    requires Earliest(t) != U64_MAX
    ensures var fired := Earliest(t);
      var t' := ClearActive(t, now);
      var other := if t.network <= t.scheduler then t.scheduler else t.network;
      var left := if t.network <= t.scheduler then t'.scheduler else t'.network;
      && Armed(t')
      && (if t.network <= t.scheduler then t'.network else t'.scheduler) == U64_MAX
      && (other == U64_MAX ==> left == U64_MAX)
      && (other != U64_MAX && fired > now ==> left >= now && left - now == other - fired)
      && (other != U64_MAX && fired <= now ==> left == other)
  {}

  datatype Event = Set(source: Source, wt: Time) | Fire(now: Time)

  /** Times set are below the value that means unset, and the interrupt comes only while the timer is on. */
  predicate Enabled(t: Slots, e: Event) {
    match e
    case Set(_, wt) => wt < U64_MAX
    case Fire(_) => t.armed.Some?
  }

  /** What comes after a failed assertion is unknown. */
  predicate Follows(t: Slots, e: Event, t': Slots) {
    && Enabled(t, e)
    && match e
       case Set(source, wt) => t' == Create(t, source, wt)
       case Fire(now) => Earliest(t) != U64_MAX ==> t' == ClearActive(t, now)
  }

  ghost predicate Run(ts: seq<Slots>, es: seq<Event>) {
    && |ts| == |es| + 1
    && ts[0] == NoTimers
    && forall i :: 0 <= i < |es| ==> Follows(ts[i], es[i], ts[i + 1])
  }

  /**
   * In every run the hardware timer stands at the earliest slot, so it is off only if none is set, and
   * an interrupt never finds all slots unset.
   */
  lemma {:induction false} AlwaysArmed(ts: seq<Slots>, es: seq<Event>, n: nat)
    requires Run(ts, es) && n < |ts|
    ensures Armed(ts[n])
    ensures n < |es| && es[n].Fire? ==> Earliest(ts[n]) != U64_MAX
  {
    if n > 0 {
      AlwaysArmed(ts, es, n - 1);
      var e := es[n - 1];
      assert Follows(ts[n - 1], e, ts[n - 1 + 1]);
      match e
      case Set(source, wt) => CreateKeepsArmed(ts[n - 1], source, wt);
      case Fire(now) => ClearActiveEffect(ts[n - 1], now);
    }
    assert n < |es| ==> Follows(ts[n], es[n], ts[n + 1]);
  }
}
