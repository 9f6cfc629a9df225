/** The broker call throttle: grants are spaced, so no window holds too many of them. */
module Throttle {
  import opened Prelude

  const MAX_PER_SECOND := 2.5
  const DEFAULT_INTERVAL := 0.4

  lemma IntervalOfRate()
    ensures DEFAULT_INTERVAL == 1.0 / MAX_PER_SECOND
  {
  }

  predicate MustWait(last: real, interval: real, now: real) { now - last < interval }

  /** A sleep that ends at `woke` lasted at least as long as asked. */
  predicate SleptEnough(last: real, interval: real, now: real, woke: real) {
    woke >= now + (interval - (now - last))
  }

  /** The monotonic clock: it runs on between readings, and a sleep lasts at least as long as asked. */
  class Clock {
    var time: real

    constructor (time: real)
      ensures this.time == time
    {
      this.time := time;
    }

    method Monotonic(passed: real) returns (now: real)
      requires passed >= 0.0
      modifies this
      ensures now == time == old(time) + passed
    {
      time := time + passed;
      now := time;
    }

    method Sleep(asked: real, longer: real)
      requires longer >= 0.0
      modifies this
      ensures time == old(time) + asked + longer
    {
      time := time + asked + longer;
    }
  }

  /** The time that passes before each reading of the clock, and beyond the asked sleep. */
  datatype Delays = Delays(before: real, oversleep: real, after: real)

  predicate Forward(d: Delays) { d.before >= 0.0 && d.oversleep >= 0.0 && d.after >= 0.0 }

  class Limiter {
    const interval: real
    var lastCall: real

    constructor (interval: real)
      ensures this.interval == interval && lastCall == 0.0
    {
      this.interval := interval;
      lastCall := 0.0;
    }

    /** `_wait_if_needed`: stamped on entry, or after a sleep up to one interval behind the last stamp. */
    method WaitIfNeeded(clock: Clock, d: Delays)
      requires Forward(d) && lastCall <= clock.time
      modifies this, clock
      ensures var now := old(clock.time) + d.before;
        && Honest(old(lastCall), interval, Attempt(now, lastCall))
        && lastCall == clock.time
        && clock.time
           == if now < old(lastCall) + interval then old(lastCall) + interval + d.oversleep + d.after else now
    {
      var now := clock.Monotonic(d.before);
      var elapsed := now - lastCall;
      if elapsed < interval {
        clock.Sleep(interval - elapsed, d.oversleep);
        lastCall := clock.Monotonic(d.after);
      } else {
        lastCall := now;
      }
    }

    /** `RateLimitedREST._throttle`: stamped by a second reading of the clock in both cases. */
    method Throttle(clock: Clock, d: Delays)
      requires Forward(d) && lastCall <= clock.time
      modifies this, clock
      ensures var now := old(clock.time) + d.before;
        && Honest(old(lastCall), interval, Attempt(now, lastCall)) && lastCall == clock.time
        && clock.time
           == d.after + if now < old(lastCall) + interval then old(lastCall) + interval + d.oversleep else now
    {
      var now := clock.Monotonic(d.before);
      var elapsed := now - lastCall;
      if elapsed < interval {
        clock.Sleep(interval - elapsed, d.oversleep);
      }
      lastCall := clock.Monotonic(d.after);
    }
  }

  // ----- whole runs

  /** One granted call: the clock on entry, and the stamp left for the next call. */
  datatype Attempt = Attempt(now: real, stamp: real)

  /** The clock does not run backwards, and a call that had to wait waited for the rest of its interval. */
  predicate Honest(last: real, interval: real, a: Attempt) {
    last <= a.now <= a.stamp && (MustWait(last, interval, a.now) ==> SleptEnough(last, interval, a.now, a.stamp))
  }

  /** The grants of a run of calls, one after the other under the lock. */
  function Grants(attempts: seq<Attempt>): seq<real>
  {
    if attempts == [] then [] else [attempts[0].stamp] + Grants(attempts[1..])
  }

  predicate AllHonest(last: real, interval: real, attempts: seq<Attempt>)
    decreases |attempts|
  {
    attempts == [] || (Honest(last, interval, attempts[0]) && AllHonest(attempts[0].stamp, interval, attempts[1..]))
  }

  /** Consecutive times are at least one interval apart. */
  ghost predicate Spaced(times: seq<real>, interval: real) {
    forall i :: 0 < i < |times| ==> times[i] - times[i - 1] >= interval
  }

  lemma {:induction false} GrantsAreSpaced(last: real, interval: real, attempts: seq<Attempt>)
    requires AllHonest(last, interval, attempts)
    ensures Spaced(Grants(attempts), interval)
    ensures |Grants(attempts)| == |attempts|
    ensures attempts != [] ==> Grants(attempts)[0] - last >= interval
    decreases |attempts|
  {
    if attempts != [] {
      GrantsAreSpaced(attempts[0].stamp, interval, attempts[1..]);
    }
  }

  /** `n` steps further is at least `n` intervals later. */
  lemma {:induction false} StepsApart(times: seq<real>, interval: real, i: nat, n: nat)
    requires Spaced(times, interval) && i + n < |times|
    ensures times[i + n] - times[i] >= n as real * interval
    decreases n
  {
    if n > 0 {
      StepsApart(times, interval, i, n - 1);
      assert n as real * interval == (n - 1) as real * interval + interval;
    }
  }

  /** The grants with an index in [i, i + n) are those in a window that starts at `from` and lasts `length`. */
  ghost predicate InWindow(times: seq<real>, i: nat, n: nat, from: real, length: real) {
    i + n <= |times| && forall k :: i <= k < i + n ==> from <= times[k] <= from + length
  }

  /** Steps that fit into a length are at most its whole number of intervals. */
  lemma StepsFit(steps: nat, interval: real, length: real)
    requires interval > 0.0 && steps as real * interval <= length
    ensures steps <= (length / interval).Floor
  {
    DivideUp(interval, steps as real * interval, length);
    QuotientIs(steps as real * interval, interval, steps as real);
  }

  /**
   Any closed window of length L holds at most floor(L / interval) + 1 grants of one limiter, given that the
   clock does not run backwards and sleeps last as long as asked.
   */
  lemma WindowBound(last: real, interval: real, attempts: seq<Attempt>, i: nat, n: nat, from: real, length: real)
    requires AllHonest(last, interval, attempts) && interval > 0.0
    requires InWindow(Grants(attempts), i, n, from, length) && length >= 0.0
    ensures n <= (length / interval).Floor + 1
  {
    var times := Grants(attempts);
    GrantsAreSpaced(last, interval, attempts);
    if n > 1 { StepsApart(times, interval, i, n - 1); }
    StepsFit(if n > 1 then n - 1 else 0, interval, length);
  }

  /** With the default interval a minute holds at most 151 grants, which is under the documented 200. */
  lemma MinuteBound(last: real, attempts: seq<Attempt>, i: nat, n: nat, from: real)
    requires AllHonest(last, DEFAULT_INTERVAL, attempts)
    requires InWindow(Grants(attempts), i, n, from, 60.0)
    ensures n <= 151
  {
    WindowBound(last, DEFAULT_INTERVAL, attempts, i, n, from, 60.0);
    assert 60.0 / DEFAULT_INTERVAL == 150.0;
  }

  /** `n` calls one default interval apart, from the `first + 1`-th interval on, none of which has to wait. */
  function Even(n: nat, first: nat): seq<Attempt> {
    if n == 0 then []
    else
      var now := (first + 1) as real * DEFAULT_INTERVAL;
      [Attempt(now, now)] + Even(n - 1, first + 1)
  }

  lemma {:induction false} EvenlySpaced(n: nat, first: nat)
    ensures AllHonest(first as real * DEFAULT_INTERVAL, DEFAULT_INTERVAL, Even(n, first))
    ensures var grants := Grants(Even(n, first));
      |grants| == n && forall k :: 0 <= k < n ==> grants[k] == (first + 1 + k) as real * DEFAULT_INTERVAL
    decreases n
  {
    if n > 0 {
      var attempts := Even(n, first);
      EvenlySpaced(n - 1, first + 1);
      assert attempts[1..] == Even(n - 1, first + 1);
    }
  }

  /** The bound is met: 151 calls one interval apart are all granted within one minute. */
  lemma MinuteBoundIsTight()
    ensures AllHonest(0.0, DEFAULT_INTERVAL, Even(151, 0))
    ensures InWindow(Grants(Even(151, 0)), 0, 151, DEFAULT_INTERVAL, 60.0)
  {
    EvenlySpaced(151, 0);
    assert 0 as real * DEFAULT_INTERVAL == 0.0;
  }
}
