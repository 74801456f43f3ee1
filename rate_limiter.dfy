/**
 * The per-second fixed-window rate limiter and the factory that hands out
 * one limiter per algorithm.
 *
 * A limiter remembers the Unix second of its window and a 32-bit count of
 * the calls in it; each single-token call moves the window to the current
 * second (resetting the count when the second changed), counts itself, and
 * is granted while the count is within the per-second maximum. The clock
 * is not modelled: each call is given the time the clock reads.
 */
module RateLimits {
  import opened Common

  const Int32Min: int := -0x8000_0000
  const Int32Max: int := 0x7fff_ffff

  /** Seconds from 0001-01-01 to the Unix epoch. */
  const UnixEpochSeconds: int := 62_135_596_800

  /** `DateTimeOffset.ToUnixTimeSeconds` of a UTC time. */
  function UnixSeconds(t: Ticks): int
  {
    t / TicksPerSecond - UnixEpochSeconds
  }

  /** `Interlocked.Increment` on an `int`: wraps from the largest value to the smallest. */
  function Increment32(x: int): (r: int)
    requires Int32Min <= x <= Int32Max
    ensures Int32Min <= r <= Int32Max
    ensures x < Int32Max ==> r == x + 1
    ensures x == Int32Max ==> r == Int32Min
  {
    if x == Int32Max then Int32Min else x + 1
  }

  /** The window a limiter is in: its Unix second and the calls counted in it. */
  datatype LimiterState = LimiterState(currentSecond: int, count: int)

  predicate InRange(s: LimiterState)
  {
    Int32Min <= s.count <= Int32Max
  }

  /** TryConsume(tokens) at time `now`, for a limiter allowing `maxPerSecond` calls a second. */
  function Consume(s: LimiterState, maxPerSecond: int, tokens: int, now: Ticks): (Outcome<bool>, LimiterState)
    requires InRange(s)
  {
    if tokens <= 0 then (Returned(true), s)
    else if tokens != 1 then (Threw("NotSupportedException: MVP: tokens=1 only"), s)
    else
      var sec := UnixSeconds(now);
      var count := if s.currentSecond != sec then 0 else s.count;
      var c := Increment32(count);
      (Returned(c <= maxPerSecond), LimiterState(sec, c))
  }

  /** The answers to single-token calls at the times `times`, in order, and the window after them. */
  function ConsumeAll(s: LimiterState, maxPerSecond: int, times: seq<Ticks>): (r: (seq<bool>, LimiterState))
    requires InRange(s)
    ensures InRange(r.1) && |r.0| == |times|
  {
    if times == [] then ([], s)
    else
      var prior := ConsumeAll(s, maxPerSecond, times[..|times| - 1]);
      var step := Consume(prior.1, maxPerSecond, 1, times[|times| - 1]);
      (prior.0 + [step.0.value], step.1)
  }

  /** A call for no tokens is granted and changes nothing; a call for more than one throws and changes nothing. */
  lemma TokensOtherThanOne(s: LimiterState, maxPerSecond: int, tokens: int, now: Ticks)
    requires InRange(s) && tokens != 1
    ensures Consume(s, maxPerSecond, tokens, now).1 == s
    ensures Consume(s, maxPerSecond, tokens, now).0 == if tokens <= 0 then Returned(true) else Threw("NotSupportedException: MVP: tokens=1 only")
  {
  }

  /**
   * Within one Unix second the calls are counted on from the window's count
   * (from 0 if the window was for another second), refused calls included,
   * and the i-th call is granted exactly when that count, including
   * itself, is within the maximum; so from a new second exactly the first
   * `maxPerSecond` calls are granted. This holds while the count does not
   * reach the 32-bit limit.
   */
  lemma {:induction false} WindowGrants(s: LimiterState, maxPerSecond: int, times: seq<Ticks>, sec: int)
    requires InRange(s)
    requires forall i :: 0 <= i < |times| ==> UnixSeconds(times[i]) == sec
    requires (if s.currentSecond == sec then s.count else 0) + |times| <= Int32Max
    ensures var c0 := if s.currentSecond == sec then s.count else 0;
      var r := ConsumeAll(s, maxPerSecond, times);
      && (forall i :: 0 <= i < |times| ==> (r.0[i] <==> c0 + i + 1 <= maxPerSecond))
      && (times != [] ==> r.1 == LimiterState(sec, c0 + |times|))
  {
    if times != [] {
      var n := |times| - 1;
      var c0 := if s.currentSecond == sec then s.count else 0;
      WindowGrants(s, maxPerSecond, times[..n], sec);
      var prior := ConsumeAll(s, maxPerSecond, times[..n]);
      if n == 0 {
        assert prior.1 == s;
      } else {
        assert prior.1 == LimiterState(sec, c0 + n);
      }
    }
  }

  /** The first call in a new second always succeeds, whatever the old window's count. */
  lemma NewSecondRestoresBudget(s: LimiterState, maxPerSecond: int, now: Ticks)
    requires InRange(s) && maxPerSecond > 0 && UnixSeconds(now) != s.currentSecond
    ensures Consume(s, maxPerSecond, 1, now) == (Returned(true), LimiterState(UnixSeconds(now), 1))
  {
  }

  /**
   * The count is 32-bit: at its limit the next call in the same second wraps
   * it to the most negative count, and is granted whatever the limit, unless
   * the limit is below that count.
   */
  lemma CountWraps(maxPerSecond: int, now: Ticks)
    ensures Consume(LimiterState(UnixSeconds(now), Int32Max), maxPerSecond, 1, now).1 == LimiterState(UnixSeconds(now), Int32Min)
    ensures Consume(LimiterState(UnixSeconds(now), Int32Max), maxPerSecond, 1, now).0 == Returned(Int32Min <= maxPerSecond)
  {
  }

  /** The default name of a limiter. */
  function DefaultName(maxPerSecond: nat): string
  {
    "FixedWindow(" + Decimal(maxPerSecond) + "/sec)"
  }

  class PerSecondFixedWindowRateLimiter {
    const maxPerSecond: int
    const name: string
    var currentSecond: int
    var countInSecond: int

    ghost predicate Valid()
      reads this
    {
      maxPerSecond > 0 && InRange(State())
    }

    ghost function State(): LimiterState
      reads this
    {
      LimiterState(currentSecond, countInSecond)
    }

    /** The construction that succeeds; Create covers the one that throws. */
    constructor (maxPerSecond: int, name: Option<string>)
      requires maxPerSecond > 0
      ensures Valid() && State() == LimiterState(0, 0)
      ensures this.maxPerSecond == maxPerSecond
      ensures this.name == if name.Some? then name.value else DefaultName(maxPerSecond)
    {
      this.maxPerSecond := maxPerSecond;
      this.name := if name.Some? then name.value else DefaultName(maxPerSecond);
      currentSecond := 0;
      countInSecond := 0;
    }

    /** The constructor with its argument check: a maximum that is not positive throws. */
    static method Create(maxPerSecond: int, name: Option<string>) returns (r: Outcome<PerSecondFixedWindowRateLimiter>)
      ensures r.Threw? <==> maxPerSecond <= 0
      ensures r.Threw? ==> r == Threw("ArgumentOutOfRangeException: maxPerSecond")
      ensures r.Returned? ==> fresh(r.value) && r.value.Valid() && r.value.State() == LimiterState(0, 0)
      ensures r.Returned? ==> r.value.maxPerSecond == maxPerSecond
      ensures r.Returned? ==> r.value.name == if name.Some? then name.value else DefaultName(maxPerSecond)
    {
      if maxPerSecond <= 0 {
        return Threw("ArgumentOutOfRangeException: maxPerSecond");
      }
      var l := new PerSecondFixedWindowRateLimiter(maxPerSecond, name);
      r := Returned(l);
    }

    method TryConsume(tokens: int, now: Ticks) returns (r: Outcome<bool>)
      requires Valid()
      modifies this
      ensures Valid() && (r, State()) == Consume(old(State()), maxPerSecond, tokens, now)
    {
      if tokens <= 0 {
        return Returned(true);
      }
      if tokens != 1 {
        return Threw("NotSupportedException: MVP: tokens=1 only");
      }
      var nowSec := UnixSeconds(now);
      if currentSecond != nowSec {
        currentSecond := nowSec;
        countInSecond := 0;
      }
      countInSecond := Increment32(countInSecond);
      r := Returned(countInSecond <= maxPerSecond);
    }
  }

  /** The key a limiter is kept under: a blank algorithm id stands for "UNKNOWN". */
  function LimiterKey(algorithmId: string): (key: string)
    ensures IsBlank(algorithmId) ==> key == "UNKNOWN"
    ensures !IsBlank(algorithmId) ==> key == algorithmId
  {
    if IsBlank(algorithmId) then "UNKNOWN" else algorithmId
  }

  /** The name a limiter created for `key` gets. */
  function LimiterName(key: string): string
  {
    "OrderPlace:" + key
  }

  /** PerAlgorithmRateLimiterFactory: one limiter per key, created on first use. */
  class PerAlgorithmRateLimiterFactory {
    const maxPerSecond: int
    var limiters: map<string, PerSecondFixedWindowRateLimiter>
    /** The window of each kept limiter, by key. */
    ghost var windows: map<string, LimiterState>

    /**
     * Every limiter allows the factory's maximum and is named for its key;
     * distinct keys have distinct limiters, each a valid window, and
     * `windows` holds each limiter's window.
     */
    ghost predicate Valid()
      reads this, limiters.Values
    {
      && (forall k :: k in limiters ==> limiters[k].maxPerSecond == maxPerSecond && limiters[k].name == LimiterName(k))
      && (forall k :: k in limiters ==> limiters[k].Valid())
      && (forall k, k' :: k in limiters && k' in limiters && k != k' ==> limiters[k] != limiters[k'])
      && windows.Keys == limiters.Keys
      && (forall k :: k in limiters ==> windows[k] == limiters[k].State())
    }

    constructor (maxPerSecond: int)
      ensures Valid() && this.maxPerSecond == maxPerSecond && limiters == map[]
    {
      this.maxPerSecond := maxPerSecond;
      limiters := map[];
      windows := map[];
    }

    /**
     * The limiter for an algorithm: the one already kept under its key, or
     * a new one (with a fresh window) kept from now on; creating one with a
     * maximum that is not positive throws and keeps nothing.
     */
    method GetFor(algorithmId: string) returns (r: Outcome<PerSecondFixedWindowRateLimiter>)
      requires Valid()
      modifies this
      ensures Valid()
      ensures var key := LimiterKey(algorithmId);
        && (key in old(limiters) ==> r == Returned(old(limiters)[key]) && limiters == old(limiters))
        && (key !in old(limiters) && maxPerSecond <= 0 ==> r == Threw("ArgumentOutOfRangeException: maxPerSecond") && limiters == old(limiters))
        && (key !in old(limiters) && maxPerSecond > 0 ==>
              && r.Returned? && fresh(r.value) && r.value.State() == LimiterState(0, 0)
              && limiters == old(limiters)[key := r.value])
      ensures forall k :: k in old(limiters) ==> k in limiters && limiters[k] == old(limiters)[k]
      ensures r.Returned? ==> LimiterKey(algorithmId) in limiters && limiters[LimiterKey(algorithmId)] == r.value
      ensures windows == if r.Returned? then old(windows)[LimiterKey(algorithmId) := r.value.State()] else old(windows)
    {
      var key := LimiterKey(algorithmId);
      if key in limiters {
        return Returned(limiters[key]);
      }
      r := PerSecondFixedWindowRateLimiter.Create(maxPerSecond, Some(LimiterName(key)));
      if r.Returned? {
        limiters := limiters[key := r.value];
        windows := windows[key := r.value.State()];
      }
    }
  }
}
