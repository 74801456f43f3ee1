/**
 * DualModeTimeFlow: turns market event times into clock ticks. The first
 * event sets the virtual clock and emits one baseline tick; after that, in
 * Backtest mode, every step boundary after the clock and up to the event
 * time is emitted at once, oldest first. The tick channel is the `emitted`
 * sequence (the bounded channel's drop-oldest policy is not modelled).
 */
module TimeFlow {
  import opened Common
  import opened Clocks

  datatype TimeFlowMode = Backtest | RealTimeReplay

  /** AlignNext: the first multiple of the step strictly after t. */
  function AlignNext(t: Ticks, step: nat): (r: Ticks)
    requires step > 0
    ensures r > t && r % step == 0
    ensures r - step <= t
  {
    var q := t / step;
    MulAdd(q, 1, step);
    MulDivMod(q + 1, step);
    (q + 1) * step
  }

  /** The ticks the emit loop writes when it starts at `next`: next, next + step, ... up to target. */
  function TicksFrom(next: Ticks, target: Ticks, step: nat): seq<Ticks>
    requires step > 0
    decreases target + 1 - next
  {
    if next > target then [] else [next] + TicksFrom(next + step, target, step)
  }

  /** EmitTicksUpTo: the ticks a Backtest advance from `cur` to `target` emits. */
  function StepTicks(cur: Ticks, target: Ticks, step: nat): seq<Ticks>
    requires step > 0
  {
    TicksFrom(AlignNext(cur, step), target, step)
  }

  /** Adding the step keeps a time's offset within the step. */
  lemma ModStep(x: int, step: nat)
    requires step > 0
    ensures (x + step) % step == x % step
  {
    MulAdd(x / step, 1, step);
    DivUnique(x + step, step, x / step + 1, x % step);
  }

  /** Two different multiples of the step are at least a step apart. */
  lemma MultipleGap(a: int, b: int, step: nat)
    requires step > 0 && a % step == 0 && b % step == 0 && a < b
    ensures a + step <= b
  {
    var qa, qb := a / step, b / step;
    assert a == qa * step && b == qb * step;
    if qb <= qa {
      MulNonneg(qa - qb, step);
      MulAdd(qa - qb, qb, step);
      assert false;
    }
    MulNonneg(qb - qa - 1, step);
    MulAdd(qb - qa - 1, qa + 1, step);
    MulAdd(qa, 1, step);
  }

  /** The loop's ticks lie between its first tick and the target, in strictly increasing order. */
  lemma {:induction false} TicksFromOrdered(next: Ticks, target: Ticks, step: nat)
    requires step > 0
    ensures forall i :: 0 <= i < |TicksFrom(next, target, step)| ==> next <= TicksFrom(next, target, step)[i] <= target
    ensures forall i, j :: 0 <= i < j < |TicksFrom(next, target, step)| ==>
      TicksFrom(next, target, step)[i] < TicksFrom(next, target, step)[j]
    decreases target + 1 - next
  {
    if next <= target {
      var s := TicksFrom(next, target, step);
      var rest := TicksFrom(next + step, target, step);
      TicksFromOrdered(next + step, target, step);
      assert s == [next] + rest;
      forall i, j | 0 <= i < j < |s|
        ensures s[i] < s[j]
      {
        assert s[j] == rest[j - 1];
        if i > 0 {
          assert s[i] == rest[i - 1];
        }
      }
    }
  }

  /** Starting on a multiple of the step, the loop writes only multiples of the step. */
  lemma {:induction false} TicksFromMultiples(next: Ticks, target: Ticks, step: nat)
    requires step > 0 && next % step == 0
    ensures forall i :: 0 <= i < |TicksFrom(next, target, step)| ==> TicksFrom(next, target, step)[i] % step == 0
    decreases target + 1 - next
  {
    if next <= target {
      var s := TicksFrom(next, target, step);
      var rest := TicksFrom(next + step, target, step);
      ModStep(next, step);
      TicksFromMultiples(next + step, target, step);
      assert s == [next] + rest;
      forall i | 0 < i < |s|
        ensures s[i] % step == 0
      {
        assert s[i] == rest[i - 1];
      }
    }
  }

  /** Starting on a multiple of the step, the loop writes every multiple up to the target. */
  lemma {:induction false} TicksFromCovers(next: Ticks, target: Ticks, step: nat, m: Ticks)
    requires step > 0 && next % step == 0
    requires next <= m <= target && m % step == 0
    ensures m in TicksFrom(next, target, step)
    decreases target + 1 - next
  {
    var rest := TicksFrom(next + step, target, step);
    assert TicksFrom(next, target, step) == [next] + rest;
    if m != next {
      MultipleGap(next, m, step);
      ModStep(next, step);
      TicksFromCovers(next + step, target, step, m);
    }
  }

  /**
   * A Backtest advance emits exactly the multiples of the step after the
   * clock and no later than the target, in strictly increasing order.
   */
  lemma StepTicksExact(cur: Ticks, target: Ticks, step: nat)
    requires step > 0
    ensures forall i :: 0 <= i < |StepTicks(cur, target, step)| ==>
      var t := StepTicks(cur, target, step)[i]; cur < t <= target && t % step == 0
    ensures forall i, j :: 0 <= i < j < |StepTicks(cur, target, step)| ==>
      StepTicks(cur, target, step)[i] < StepTicks(cur, target, step)[j]
    ensures forall m: Ticks :: cur < m <= target && m % step == 0 ==> m in StepTicks(cur, target, step)
  {
    var first := AlignNext(cur, step);
    TicksFromOrdered(first, target, step);
    TicksFromMultiples(first, target, step);
    forall m: Ticks | cur < m <= target && m % step == 0
      ensures m in StepTicks(cur, target, step)
    {
      assert (first - step) % step == 0 by {
        ModStep(first - step, step);
      }
      MultipleGap(first - step, m, step);
      TicksFromCovers(first, target, step, m);
    }
  }

  // ---------------------------------------------------------------------
  // The Backtest advance on DateTime's range
  // ---------------------------------------------------------------------

  /** The last multiple of the step that a DateTime can hold. */
  function LastStepTime(step: nat): (r: Ticks)
    requires step > 0
    ensures r <= MaxTicks < r + step && r % step == 0
  {
    MulDivMod(MaxTicks / step, step);
    MaxTicks - MaxTicks % step
  }

  /** AlignNext as written: `new DateTime(nextTicks)` throws past the last DateTime. */
  function AlignNextChecked(t: Ticks, step: nat): (r: Outcome<Ticks>)
    requires step > 0
    ensures r.Returned? ==> r.value == AlignNext(t, step)
  {
    var next := AlignNext(t, step);
    if next <= MaxTicks then Returned(next)
    else Threw("Ticks must be between DateTime.MinValue.Ticks and DateTime.MaxValue.Ticks.")
  }

  /** The emit loop as written: after each tick, `next.Add(step)` throws past the last DateTime. */
  function TicksFromChecked(next: Ticks, target: Ticks, step: nat): (r: Outcome<seq<Ticks>>)
    requires step > 0
    decreases target + 1 - next
  {
    if next > target then Returned([])
    else match Shifted(next, step)
      case Threw(m) => Threw(m)
      case Returned(after) =>
        match TicksFromChecked(after, target, step)
        case Threw(m) => Threw(m)
        case Returned(rest) => Returned([next] + rest)
  }

  /** EmitTicksUpTo's ticks as written, on DateTime's range. */
  function EmitChecked(cur: Ticks, target: Ticks, step: nat): Outcome<seq<Ticks>>
    requires step > 0
  {
    match AlignNextChecked(cur, step)
    case Threw(m) => Threw(m)
    case Returned(first) => TicksFromChecked(first, target, step)
  }

  /** AlignNext throws exactly when t has reached the last multiple of the step. */
  lemma AlignNextInRange(t: Ticks, step: nat)
    requires step > 0
    ensures AlignNextChecked(t, step).Returned? <==> t < LastStepTime(step)
  {
    var a, last := AlignNext(t, step), LastStepTime(step);
    if t >= last {
      MultipleGap(last, a, step);
    } else if a > last {
      MultipleGap(last, a, step);
      assert false;
    }
  }

  /** From a multiple of the step no later than the last one, the loop throws exactly when the target reaches that last one. */
  lemma {:induction false} TicksFromInRange(next: Ticks, target: Ticks, step: nat)
    requires step > 0 && next % step == 0 && next <= LastStepTime(step)
    ensures TicksFromChecked(next, target, step).Returned? <==> next > target || target < LastStepTime(step)
    ensures TicksFromChecked(next, target, step).Returned? ==>
      TicksFromChecked(next, target, step).value == TicksFrom(next, target, step)
    decreases target + 1 - next
  {
    var last := LastStepTime(step);
    if next <= target && next < last {
      MultipleGap(next, last, step);
      ModStep(next, step);
      TicksFromInRange(next + step, target, step);
    }
  }

  /**
   * The Backtest advance from cur to target throws exactly when the later of
   * the two has reached the last multiple of the step a DateTime can hold;
   * otherwise it emits StepTicks.
   */
  lemma EmitCheckedThrows(cur: Ticks, target: Ticks, step: nat)
    requires step > 0
    ensures EmitChecked(cur, target, step).Returned? <==> cur < LastStepTime(step) && target < LastStepTime(step)
    ensures EmitChecked(cur, target, step).Returned? ==>
      EmitChecked(cur, target, step).value == StepTicks(cur, target, step)
  {
    AlignNextInRange(cur, step);
    if cur < LastStepTime(step) {
      var first := AlignNext(cur, step);
      assert first <= LastStepTime(step) by {
        if first > LastStepTime(step) {
          MultipleGap(LastStepTime(step), first, step);
        }
      }
      TicksFromInRange(first, target, step);
    }
  }

  class DualModeTimeFlow {
    const clock: VirtualClock
    /** The step, in ticks (one second by default). */
    const step: nat
    var mode: TimeFlowMode
    /** The latest market time seen: the cap the real-time loop may not pass. */
    var lastMarketTime: Option<Ticks>
    var initialized: bool
    /** The virtual time at which real-time replay started following the wall clock. */
    var replayAnchor: Option<Ticks>
    /** Whether the token given to Start has been cancelled. */
    var cancelled: bool
    /** Every tick written to the channel, in order. */
    var emitted: seq<Ticks>

    constructor (clock: VirtualClock, mode: TimeFlowMode, step: nat)
      requires step > 0
      ensures this.clock == clock && this.mode == mode && this.step == step
      ensures lastMarketTime.None? && !initialized && replayAnchor.None? && !cancelled && emitted == []
    {
      this.clock := clock;
      this.mode := mode;
      this.step := step;
      lastMarketTime := None;
      initialized := false;
      replayAnchor := None;
      cancelled := false;
      emitted := [];
    }

    /** The cancellation of the token given to Start. */
    method Cancel()
      modifies this
      ensures cancelled && mode == old(mode) && emitted == old(emitted) && initialized == old(initialized)
      ensures lastMarketTime == old(lastMarketTime) && replayAnchor == old(replayAnchor)
    {
      cancelled := true;
    }

    method SetMode(m: TimeFlowMode)
      modifies this
      ensures mode == m && emitted == old(emitted) && initialized == old(initialized) && cancelled == old(cancelled)
      ensures lastMarketTime == old(lastMarketTime) && replayAnchor == old(replayAnchor)
    {
      mode := m;
    }

    /** EnsureReplayAnchors: once initialised, real-time replay is anchored at the clock's time when it first asks. */
    method EnsureReplayAnchor()
      modifies this
      ensures replayAnchor == if old(replayAnchor).None? && initialized then Some(clock.ticks) else old(replayAnchor)
      ensures mode == old(mode) && emitted == old(emitted) && initialized == old(initialized)
      ensures cancelled == old(cancelled) && lastMarketTime == old(lastMarketTime)
    {
      if replayAnchor.None? && initialized {
        replayAnchor := Some(clock.ticks);
      }
    }

    /** EmitTick: moves the clock to the tick's time, then writes the tick. */
    method EmitTick(t: Ticks)
      modifies this, clock
      ensures clock.ticks == Advanced(old(clock.ticks), t)
      ensures emitted == old(emitted) + [t]
      ensures mode == old(mode) && initialized == old(initialized) && cancelled == old(cancelled)
      ensures lastMarketTime == old(lastMarketTime) && replayAnchor == old(replayAnchor)
    {
      clock.AdvanceToUtc(t);
      emitted := emitted + [t];
    }

    /**
     * EmitTicksUpTo: writes every step boundary after the clock and up to
     * the target, then leaves the clock at the later of its time and the
     * target.
     */
    method EmitTicksUpTo(target: Ticks)
      requires step > 0
      modifies this, clock
      ensures initialized ==> emitted == old(emitted) + StepTicks(old(clock.ticks), target, step)
      ensures initialized ==> clock.ticks == Advanced(old(clock.ticks), target)
      ensures !initialized ==> emitted == old(emitted) && clock.ticks == old(clock.ticks)
      ensures mode == old(mode) && initialized == old(initialized) && cancelled == old(cancelled)
      ensures lastMarketTime == old(lastMarketTime) && replayAnchor == old(replayAnchor)
    {
      var current := clock.ticks;
      if !initialized {
        return;
      }
      var next := AlignNext(current, step);
      while next <= target
        invariant next > current && current <= clock.ticks < next
        invariant clock.ticks <= Advanced(current, target)
        invariant emitted + TicksFrom(next, target, step) == old(emitted) + StepTicks(current, target, step)
        invariant mode == old(mode) && initialized == old(initialized) && cancelled == old(cancelled)
        invariant lastMarketTime == old(lastMarketTime) && replayAnchor == old(replayAnchor)
        decreases target + 1 - next
      {
        assert TicksFrom(next, target, step) == [next] + TicksFrom(next + step, target, step);
        EmitTick(next);
        next := next + step;
      }
      clock.AdvanceToUtc(target);
    }

    /**
     * AdvanceTo: raises the market-time cap; the first call sets the clock
     * and emits the baseline tick; later calls in Backtest mode emit the
     * step ticks up to the market time, and in real-time replay only anchor
     * the replay at the clock's time, once. After cancellation it does nothing.
     */
    method AdvanceTo(market: Ticks)
      requires step > 0
      modifies this, clock
      ensures old(cancelled) ==> emitted == old(emitted) && clock.ticks == old(clock.ticks)
                                  && lastMarketTime == old(lastMarketTime) && initialized == old(initialized)
      ensures !old(cancelled) ==>
        lastMarketTime == Some(if old(lastMarketTime).None? then market else Advanced(old(lastMarketTime).value, market))
        && initialized
      ensures !old(cancelled) && !old(initialized) ==> clock.ticks == market && emitted == old(emitted) + [market]
      ensures !old(cancelled) && old(initialized) && mode == Backtest ==>
        emitted == old(emitted) + StepTicks(old(clock.ticks), market, step)
        && clock.ticks == Advanced(old(clock.ticks), market)
      ensures !old(cancelled) && old(initialized) && mode == RealTimeReplay ==>
        emitted == old(emitted) && clock.ticks == old(clock.ticks)
      ensures !old(cancelled) && mode == RealTimeReplay ==>
        replayAnchor == if old(replayAnchor).None? then Some(clock.ticks) else old(replayAnchor)
      ensures old(cancelled) || mode == Backtest ==> replayAnchor == old(replayAnchor)
      ensures mode == old(mode) && cancelled == old(cancelled)
    {
      if cancelled {
        return;
      }
      if lastMarketTime.None? || market > lastMarketTime.value {
        lastMarketTime := Some(market);
      }
      if !initialized {
        clock.SetUtc(market);
        emitted := emitted + [market];
        initialized := true;
        if mode == RealTimeReplay {
          EnsureReplayAnchor();
        }
        return;
      }
      if mode == Backtest {
        EmitTicksUpTo(market);
      } else {
        EnsureReplayAnchor();
      }
    }
  }
}
