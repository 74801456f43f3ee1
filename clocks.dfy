/**
 * The settable clocks of the time layer: the forward-only VirtualClock that
 * the simulation runs on, and the SimulatedClock and ManualClock test
 * clocks. A DateTime is its tick count; every clock here reports UTC.
 */
module Clocks {
  import opened Common

  /** The largest tick count a DateTime can hold (9999-12-31 23:59:59.9999999). */
  const MaxTicks: nat := 3_155_378_975_999_999_999

  /** Where AdvanceToUtc(t) leaves a clock reading `cur`: it never moves backwards. */
  function Advanced(cur: Ticks, t: Ticks): (r: Ticks)
    ensures r >= cur && r >= t
    ensures r == cur || r == t
  {
    if t <= cur then cur else t
  }

  /** Advancing twice to the same time is advancing once. */
  lemma AdvancedIdempotent(cur: Ticks, t: Ticks)
    ensures Advanced(Advanced(cur, t), t) == Advanced(cur, t)
  {
  }

  /** The clock after advancing to each target in turn. */
  function AdvancedAll(cur: Ticks, targets: seq<Ticks>): Ticks
    decreases |targets|
  {
    if targets == [] then cur else AdvancedAll(Advanced(cur, targets[0]), targets[1..])
  }

  /** Any run of advances reaches the latest of the start and the targets, and nothing later. */
  lemma {:induction false} AdvancedAllIsMax(cur: Ticks, targets: seq<Ticks>)
    ensures AdvancedAll(cur, targets) >= cur
    ensures forall i :: 0 <= i < |targets| ==> AdvancedAll(cur, targets) >= targets[i]
    ensures AdvancedAll(cur, targets) == cur || AdvancedAll(cur, targets) in targets
    decreases |targets|
  {
    if targets != [] {
      var next := Advanced(cur, targets[0]);
      AdvancedAllIsMax(next, targets[1..]);
      forall i | 0 <= i < |targets|
        ensures AdvancedAll(cur, targets) >= targets[i]
      {
        if i > 0 {
          assert targets[i] == targets[1..][i - 1];
        }
      }
    }
  }

  /** The simulation clock: it can be set anywhere, or advanced, which never moves it back. */
  class VirtualClock {
    var ticks: Ticks

    /** A fresh clock reads default(DateTime), tick 0. */
    constructor ()
      ensures ticks == 0
    {
      ticks := 0;
    }

    function UtcNow(): Ticks
      reads this
    {
      ticks
    }

    /** SetUtc: the clock reads `t` afterwards, even when that is earlier. */
    method SetUtc(t: Ticks)
      modifies this
      ensures ticks == t
    {
      ticks := t;
    }

    /** AdvanceToUtc: the compare-and-swap loop, run by one thread, stores `t` only when it is later. */
    method AdvanceToUtc(t: Ticks)
      modifies this
      ensures ticks == Advanced(old(ticks), t)
    {
      var cur := ticks;
      if t <= cur {
        return;
      }
      ticks := t;
    }
  }

  /** A clock that reads whatever it was last set to. */
  class SimulatedClock {
    var now: Ticks

    constructor ()
      ensures now == 0
    {
      now := 0;
    }

    method SetUtc(t: Ticks)
      modifies this
      ensures now == t
    {
      now := t;
    }
  }

  /**
   * DateTime.Add: the shifted time, or the ArgumentOutOfRangeException it
   * throws when the result is outside the DateTime range.
   */
  function Shifted(now: Ticks, delta: int): (r: Outcome<Ticks>)
    ensures r.Returned? <==> 0 <= now + delta <= MaxTicks
    ensures r.Returned? ==> r.value - now == delta
  {
    if 0 <= now + delta <= MaxTicks then Returned(now + delta)
    else
      var thrown: Outcome<Ticks> := Threw("The added or subtracted value results in an un-representable DateTime.");
      thrown
  }

  /** Two advances that both succeed amount to one advance by their sum. */
  lemma ShiftedCompose(now: Ticks, d1: int, d2: int)
    requires Shifted(now, d1).Returned?
    ensures Shifted(Shifted(now, d1).value, d2) == Shifted(now, d1 + d2)
  {
  }

  /** A clock that starts where it is told and moves only by explicit deltas. */
  class ManualClock {
    var now: Ticks

    constructor (start: Ticks)
      ensures now == start
    {
      now := start;
    }

    /** Advance: adds the delta exactly, or throws and stays put when the result leaves the DateTime range. */
    method Advance(delta: int) returns (r: Outcome<()>)
      modifies this
      ensures r.Returned? <==> Shifted(old(now), delta).Returned?
      ensures now == if r.Returned? then Shifted(old(now), delta).value else old(now)
    {
      var shifted := Shifted(now, delta);
      if shifted.Threw? {
        return Threw(shifted.message);
      }
      now := shifted.value;
      return Returned(());
    }
  }
}
