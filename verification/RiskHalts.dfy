/**
 The halting automaton of the risk manager: a latched portfolio stop, a circuit breaker that lifts with a
 falling threshold, and a warning phase.  Prices are reals, times are hours on a clock.
 */
module RiskHalts {
  import opened Prelude

  datatype Limits = Limits(stopPct: real, dailyPct: real)

  datatype Risk = Risk(sessionStart: real, limit: real, peak: real, halted: bool, reduced: bool,
                       haltCount: nat, unlockPct: real, lastHalt: Option<real>, stopped: bool)

  /** One equity update: the equity, and the clock when a halt is stamped and when its age is taken. */
  datatype Tick = Tick(equity: real, stamp: real, now: real)

  function NewRisk(limits: Limits, capital: real): Risk {
    Risk(capital, capital * limits.dailyPct, capital, false, false, 0, 0.50, None, false)
  }

  // ----- the stages of one update

  /** Down by the stop percentage from the session start. */
  predicate StopHit(limits: Limits, sessionStart: real, equity: real) {
    sessionStart > 0.0 && limits.stopPct > 0.0 && (sessionStart - equity) / sessionStart >= limits.stopPct
  }

  function CheckStop(limits: Limits, r: Risk, equity: real): Risk {
    if StopHit(limits, r.sessionStart, equity) && !r.stopped then r.(stopped := true, halted := true) else r
  }

  function RaisePeak(r: Risk, equity: real): Risk {
    if equity > r.peak then r.(peak := equity) else r
  }

  function Drawdown(r: Risk, equity: real): real { r.peak - equity }

  function Ratio(r: Risk, equity: real): real {
    if r.limit > 0.0 then Drawdown(r, equity) / r.limit else 0.0
  }

  function CheckWarning(r: Risk, equity: real): Risk {
    if Ratio(r, equity) > 0.60 && !r.reduced && !r.halted then r.(reduced := true)
    else if Ratio(r, equity) <= 0.50 && r.reduced && !r.halted then r.(reduced := false)
    else r
  }

  predicate BreakerTrips(r: Risk, equity: real) { Drawdown(r, equity) > r.limit && !r.halted }

  function CheckBreaker(r: Risk, t: Tick): Risk {
    if BreakerTrips(r, t.equity)
    then r.(halted := true, lastHalt := Some(t.stamp), haltCount := r.haltCount + 1, unlockPct := 0.50)
    else r
  }

  function AgeThreshold(r: Risk, now: real): Risk {
    if !r.halted || r.lastHalt.None? then r
    else
      var age := now - r.lastHalt.value;
      if age > 4.0 then r.(unlockPct := 0.20)
      else if age > 2.0 then r.(unlockPct := 0.30)
      else r
  }

  predicate Unlocks(r: Risk, equity: real) {
    r.halted && !r.stopped && Drawdown(r, equity) <= r.limit * r.unlockPct
  }

  function Unlock(r: Risk, equity: real): Risk {
    if Unlocks(r, equity) then r.(halted := false, lastHalt := None, reduced := false, haltCount := 0) else r
  }

  /** The risk manager before the unlock check. */
  function BeforeUnlock(limits: Limits, r: Risk, t: Tick): Risk {
    AgeThreshold(CheckBreaker(CheckWarning(RaisePeak(CheckStop(limits, r, t.equity), t.equity), t.equity), t), t.now)
  }

  function Update(limits: Limits, r: Risk, t: Tick): Risk {
    Unlock(BeforeUnlock(limits, r, t), t.equity)
  }

  /** What one update does to the kill switch. */
  datatype SwitchCall = Leave | TripSwitch | ResetSwitch

  function CallOf(limits: Limits, r: Risk, t: Tick): SwitchCall {
    var s := CheckStop(limits, r, t.equity);
    if s.stopped && !r.stopped then TripSwitch
    else if BreakerTrips(RaisePeak(s, t.equity), t.equity) then TripSwitch
    else if Unlocks(BeforeUnlock(limits, r, t), t.equity) then ResetSwitch
    else Leave
  }

  /** An update calls the kill switch at most once: a halt it has just caused is not lifted by it. */
  lemma OneCall(limits: Limits, r: Risk, t: Tick)
    ensures var s := CheckStop(limits, r, t.equity); var p := CheckWarning(RaisePeak(s, t.equity), t.equity);
      && (BreakerTrips(p, t.equity) <==> BreakerTrips(RaisePeak(s, t.equity), t.equity))
      && (s.stopped && !r.stopped ==> !BreakerTrips(p, t.equity) && !Unlocks(BeforeUnlock(limits, r, t), t.equity))
      && (BreakerTrips(p, t.equity) ==> !Unlocks(BeforeUnlock(limits, r, t), t.equity))
  {
    var p := RaisePeak(CheckStop(limits, r, t.equity), t.equity);
    assert Drawdown(p, t.equity) >= 0.0;
  }

  /** `reset_daily_limit`. */
  function ResetDaily(limits: Limits, r: Risk, equity: real): Risk {
    r.(limit := equity * limits.dailyPct, halted := false)
  }

  // ----- whole runs of updates

  function Run(limits: Limits, r: Risk, ticks: seq<Tick>): Risk {
    if ticks == [] then r else Update(limits, Run(limits, r, ticks[..|ticks| - 1]), ticks[|ticks| - 1])
  }

  /** The clock does not run backwards: neither within an update nor from one to the next. */
  predicate ClockRuns(ticks: seq<Tick>) {
    (forall i :: 0 <= i < |ticks| ==> ticks[i].stamp <= ticks[i].now)
    && forall i, j :: 0 <= i < j < |ticks| ==> ticks[i].now <= ticks[j].stamp
  }

  function Highest(start: real, ticks: seq<Tick>): real {
    if ticks == [] then start else Max(Highest(start, ticks[..|ticks| - 1]), ticks[|ticks| - 1].equity)
  }

  /** The part of the drawdown that a halt of this age must win back to. */
  function Threshold(age: real): real {
    if age > 4.0 then 0.20 else if age > 2.0 then 0.30 else 0.50
  }

  /** The drawdown at which a halt of this age is lifted. */
  function Allowed(limit: real, age: real): real { limit * Threshold(age) }

  /** Halts come from the latched stop or from the breaker, and the breaker's threshold follows its age. */
  ghost predicate HaltsExplained(r: Risk) {
    r.halted <==> r.stopped || r.lastHalt.Some?
  }

  ghost predicate ThresholdFollows(r: Risk, now: real) {
    r.lastHalt.Some? ==> r.lastHalt.value <= now && r.unlockPct == Threshold(now - r.lastHalt.value)
  }

  lemma UpdateExplains(limits: Limits, r: Risk, t: Tick, before: real)
    requires HaltsExplained(r) && ThresholdFollows(r, before) && before <= t.stamp <= t.now
    ensures HaltsExplained(Update(limits, r, t)) && ThresholdFollows(Update(limits, r, t), t.now)
  {
  }

  /** In every state of a run: halted exactly when the stop latched or a breaker halt is pending. */
  lemma {:induction false} RunExplains(limits: Limits, capital: real, ticks: seq<Tick>)
    requires ClockRuns(ticks)
    ensures var r := Run(limits, NewRisk(limits, capital), ticks);
      HaltsExplained(r) && (ticks != [] ==> ThresholdFollows(r, ticks[|ticks| - 1].now))
      && (ticks == [] ==> r.lastHalt.None?)
  {
    if ticks != [] {
      var m := |ticks| - 1;
      RunExplains(limits, capital, ticks[..m]);
      var r := Run(limits, NewRisk(limits, capital), ticks[..m]);
      UpdateExplains(limits, r, ticks[m], if m == 0 then ticks[m].stamp else ticks[m - 1].now);
    }
  }

  lemma UpdatePeak(limits: Limits, r: Risk, t: Tick)
    ensures Update(limits, r, t).peak == Max(r.peak, t.equity)
    ensures Update(limits, r, t).sessionStart == r.sessionStart
    ensures Update(limits, r, t).stopped == (r.stopped || StopHit(limits, r.sessionStart, t.equity))
  {
  }

  /** The peak is the highest of the start capital and all equities seen. */
  lemma {:induction false} PeakIsHighest(limits: Limits, r: Risk, ticks: seq<Tick>)
    ensures Run(limits, r, ticks).peak == Highest(r.peak, ticks)
  {
    if ticks != [] {
      PeakIsHighest(limits, r, ticks[..|ticks| - 1]);
      UpdatePeak(limits, Run(limits, r, ticks[..|ticks| - 1]), ticks[|ticks| - 1]);
    }
  }

  lemma {:induction false} HighestIsHighest(start: real, ticks: seq<Tick>)
    ensures start <= Highest(start, ticks) && forall i :: 0 <= i < |ticks| ==> ticks[i].equity <= Highest(start, ticks)
    ensures Highest(start, ticks) == start || exists i :: 0 <= i < |ticks| && ticks[i].equity == Highest(start, ticks)
  {
    if ticks != [] {
      var before := ticks[..|ticks| - 1];
      HighestIsHighest(start, before);
      if Highest(start, ticks) != start && ticks[|ticks| - 1].equity != Highest(start, ticks) {
        var i :| 0 <= i < |before| && before[i].equity == Highest(start, before);
        assert ticks[i] == before[i];
      }
      forall i | 0 <= i < |ticks| ensures ticks[i].equity <= Highest(start, ticks) {
        if i < |before| { assert ticks[i] == before[i]; }
      }
    }
  }

  lemma {:induction false} RunSplits(limits: Limits, r: Risk, first: seq<Tick>, rest: seq<Tick>)
    ensures Run(limits, r, first + rest) == Run(limits, Run(limits, r, first), rest)
    decreases |rest|
  {
    if rest == [] {
      assert first + rest == first;
    } else {
      var m := |rest| - 1;
      assert (first + rest)[..|first + rest| - 1] == first + rest[..m];
      RunSplits(limits, r, first, rest[..m]);
    }
  }

  /** The portfolio stop is a latch: after it, every later state of the run is halted. */
  lemma {:induction false} StopIsLatched(limits: Limits, capital: real, first: seq<Tick>, rest: seq<Tick>)
    requires Run(limits, NewRisk(limits, capital), first).stopped && ClockRuns(first + rest)
    ensures var r := Run(limits, NewRisk(limits, capital), first + rest); r.stopped && r.halted
  {
    RunSplits(limits, NewRisk(limits, capital), first, rest);
    StoppedStays(limits, Run(limits, NewRisk(limits, capital), first), rest);
    RunExplains(limits, capital, first + rest);
  }

  lemma {:induction false} StoppedStays(limits: Limits, r: Risk, ticks: seq<Tick>)
    requires r.stopped
    ensures Run(limits, r, ticks).stopped
  {
    if ticks != [] { StoppedStays(limits, r, ticks[..|ticks| - 1]); }
  }

  predicate EverDown(limits: Limits, start: real, ticks: seq<Tick>) {
    ticks != [] && (EverDown(limits, start, ticks[..|ticks| - 1]) || StopHit(limits, start, ticks[|ticks| - 1].equity))
  }

  /** The stop has latched if and only if some update saw the session down by the stop percentage. */
  lemma {:induction false} StopLatchesWhen(limits: Limits, capital: real, ticks: seq<Tick>)
    ensures var r := Run(limits, NewRisk(limits, capital), ticks);
      r.sessionStart == capital && (r.stopped <==> EverDown(limits, capital, ticks))
  {
    if ticks != [] {
      StopLatchesWhen(limits, capital, ticks[..|ticks| - 1]);
      UpdatePeak(limits, Run(limits, NewRisk(limits, capital), ticks[..|ticks| - 1]), ticks[|ticks| - 1]);
    }
  }

  /**
   A breaker halt is lifted at an update if and only if the stop has not latched and the drawdown has come
   back to the threshold of the halt's age: 50% of the limit, 30% after two hours, 20% after four.
   */
  lemma LiftedExactlyWhen(limits: Limits, r: Risk, t: Tick, before: real)
    requires HaltsExplained(r) && ThresholdFollows(r, before) && before <= t.stamp <= t.now && r.lastHalt.Some?
    ensures var u := Update(limits, r, t);
      !u.halted <==> !u.stopped && Drawdown(u, t.equity) <= Allowed(r.limit, t.now - r.lastHalt.value)
  {
  }

  /** While one breaker halt lasts its threshold never rises; a fresh halt is never lifted at once. */
  lemma ThresholdFalls(limits: Limits, r: Risk, t: Tick, before: real)
    requires HaltsExplained(r) && ThresholdFollows(r, before) && before <= t.stamp <= t.now
    ensures var u := Update(limits, r, t);
      && (r.lastHalt.Some? && u.lastHalt.Some? ==> u.lastHalt == r.lastHalt && u.unlockPct <= r.unlockPct)
      && (!r.halted && u.peak - t.equity > r.limit ==> u.halted)
  {
    var s := RaisePeak(CheckStop(limits, r, t.equity), t.equity);
    assert Drawdown(s, t.equity) >= 0.0;
  }

  /** The state before the last update of a run, which explains its halts up to that update. */
  lemma BeforeLast(limits: Limits, capital: real, ticks: seq<Tick>) returns (before: real)
    requires ticks != [] && ClockRuns(ticks)
    ensures var r, t := Run(limits, NewRisk(limits, capital), ticks[..|ticks| - 1]), ticks[|ticks| - 1];
      HaltsExplained(r) && ThresholdFollows(r, before) && before <= t.stamp <= t.now
  {
    var first := ticks[..|ticks| - 1];
    RunExplains(limits, capital, first);
    before := if first == [] then ticks[0].stamp else first[|first| - 1].now;
  }

  /** A pending halt is lifted exactly by a drawdown within the threshold of its age, unless the stop has latched. */
  predicate LiftsRight(r: Risk, u: Risk, drawdown: real, now: real)
    requires r.lastHalt.Some?
  {
    !u.halted <==> !u.stopped && drawdown <= Allowed(r.limit, now - r.lastHalt.value)
  }

  /** A pending halt keeps its stamp and a threshold that does not rise, and above the limit nothing is unhalted. */
  predicate FallsRight(r: Risk, u: Risk, drawdown: real) {
    && (r.lastHalt.Some? && u.lastHalt.Some? ==> u.lastHalt == r.lastHalt && u.unlockPct <= r.unlockPct)
    && (!r.halted && drawdown > r.limit ==> u.halted)
  }

  lemma StepRight(limits: Limits, r: Risk, t: Tick, before: real, u: Risk)
    requires HaltsExplained(r) && ThresholdFollows(r, before) && before <= t.stamp <= t.now && u == Update(limits, r, t)
    ensures r.lastHalt.Some? ==> LiftsRight(r, u, u.peak - t.equity, t.now)
    ensures FallsRight(r, u, u.peak - t.equity)
  {
    if r.lastHalt.Some? { LiftedExactlyWhen(limits, r, t, before); }
    ThresholdFalls(limits, r, t, before);
  }

  /**
   The last update of any run, with the drawdown from the highest equity so far: it lifts a pending breaker halt
   exactly within the threshold of the halt's age, and keeps the threshold from rising otherwise.
   */
  lemma RunLifts(limits: Limits, capital: real, ticks: seq<Tick>)
    requires ticks != [] && ClockRuns(ticks)
    ensures var r, t := Run(limits, NewRisk(limits, capital), ticks[..|ticks| - 1]), ticks[|ticks| - 1];
      var u := Run(limits, NewRisk(limits, capital), ticks);
      && (r.lastHalt.Some? ==> LiftsRight(r, u, Highest(capital, ticks) - t.equity, t.now))
      && FallsRight(r, u, Highest(capital, ticks) - t.equity)
  {
    var r, t := Run(limits, NewRisk(limits, capital), ticks[..|ticks| - 1]), ticks[|ticks| - 1];
    var u := Run(limits, NewRisk(limits, capital), ticks);
    var before := BeforeLast(limits, capital, ticks);
    PeakIsHighest(limits, NewRisk(limits, capital), ticks);
    assert u.peak == Highest(capital, ticks);
    StepRight(limits, r, t, before, u);
  }

  predicate KnownThreshold(r: Risk) { r.unlockPct == 0.50 || r.unlockPct == 0.30 || r.unlockPct == 0.20 }

  /** The ratio test of the source, without the division. */
  lemma RatioTest(d: real, limit: real, f: real)
    requires limit > 0.0
    ensures d / limit > f <==> d > f * limit
  {
    assert d == (d / limit) * limit;
    if d / limit > f { assert (d / limit - f) * limit > 0.0; } else { ScaleUp(limit, d / limit, f); }
  }

  /** The two tests of the warning phase, on a limit that may not be positive. */
  predicate Warns(d: real, limit: real) { limit > 0.0 && d > 0.60 * limit }

  predicate Recovers(d: real, limit: real) { limit <= 0.0 || d <= 0.50 * limit }

  lemma WarningIs(r: Risk, equity: real)
    ensures var d := Drawdown(r, equity);
      CheckWarning(r, equity) == r.(reduced :=
        if r.halted then r.reduced else if Warns(d, r.limit) then true
        else if Recovers(d, r.limit) then false else r.reduced)
  {
    if r.limit > 0.0 {
      RatioTest(Drawdown(r, equity), r.limit, 0.60);
      RatioTest(Drawdown(r, equity), r.limit, 0.50);
    }
  }

  /** The stages behind the warning check keep what it decided, unless they halt. */
  lemma AfterWarning(p: Risk, t: Tick)
    requires KnownThreshold(p) && p.peak >= t.equity
    requires var d := Drawdown(p, t.equity);
      !p.halted ==> (Warns(d, p.limit) ==> p.reduced) && (Recovers(d, p.limit) ==> !p.reduced)
    ensures var u := Unlock(AgeThreshold(CheckBreaker(p, t), t.now), t.equity); var d := Drawdown(u, t.equity);
      && KnownThreshold(u)
      && (!u.halted ==> (d > 0.60 * u.limit ==> u.reduced) && (d <= 0.50 * u.limit ==> !u.reduced) && d <= u.limit)
  {
  }

  /**
   After every update that leaves trading unhalted: a drawdown above 60% of the limit means the warning
   phase, one of at most 50% means no warning phase, and the drawdown is within the limit.
   */
  lemma WarningPhase(limits: Limits, r: Risk, t: Tick)
    requires KnownThreshold(r)
    ensures KnownThreshold(Update(limits, r, t))
    ensures var u := Update(limits, r, t); var d := Drawdown(u, t.equity);
      !u.halted ==> (d > 0.60 * u.limit ==> u.reduced) && (d <= 0.50 * u.limit ==> !u.reduced) && d <= u.limit
  {
    var s := RaisePeak(CheckStop(limits, r, t.equity), t.equity);
    WarningIs(s, t.equity);
    AfterWarning(CheckWarning(s, t.equity), t);
  }

  lemma {:induction false} RunThreshold(limits: Limits, capital: real, ticks: seq<Tick>)
    ensures KnownThreshold(Run(limits, NewRisk(limits, capital), ticks))
  {
    if ticks != [] {
      RunThreshold(limits, capital, ticks[..|ticks| - 1]);
      WarningPhase(limits, Run(limits, NewRisk(limits, capital), ticks[..|ticks| - 1]), ticks[|ticks| - 1]);
    }
  }

  /** The warning phase in every state of every run. */
  lemma RunWarns(limits: Limits, capital: real, ticks: seq<Tick>)
    requires ticks != [] && !Run(limits, NewRisk(limits, capital), ticks).halted
    ensures var u := Run(limits, NewRisk(limits, capital), ticks);
      var d := Highest(capital, ticks) - ticks[|ticks| - 1].equity;
      (d > 0.60 * u.limit ==> u.reduced) && (d <= 0.50 * u.limit ==> !u.reduced) && d <= u.limit
  {
    RunThreshold(limits, capital, ticks[..|ticks| - 1]);
    PeakIsHighest(limits, NewRisk(limits, capital), ticks);
    WarningPhase(limits, Run(limits, NewRisk(limits, capital), ticks[..|ticks| - 1]), ticks[|ticks| - 1]);
  }

  /** Some update found the drawdown above the limit, with the peak counted from `start`. */
  predicate EverOver(start: real, limit: real, ticks: seq<Tick>) {
    ticks != []
    && (EverOver(start, limit, ticks[..|ticks| - 1]) || Highest(start, ticks) - ticks[|ticks| - 1].equity > limit)
  }

  lemma {:induction false} StoppedHaltsWhenOver(limits: Limits, r: Risk, ticks: seq<Tick>)
    requires r.stopped && !r.halted
    ensures var u := Run(limits, r, ticks);
      u.stopped && u.limit == r.limit && u.peak == Highest(r.peak, ticks)
      && (u.halted <==> EverOver(r.peak, r.limit, ticks))
  {
    if ticks != [] {
      StoppedHaltsWhenOver(limits, r, ticks[..|ticks| - 1]);
      StoppedStep(limits, Run(limits, r, ticks[..|ticks| - 1]), ticks[|ticks| - 1]);
    }
  }

  /** Once the stop has latched, an update halts only through the breaker, and never lifts a halt. */
  lemma StoppedStep(limits: Limits, r: Risk, t: Tick)
    requires r.stopped
    ensures var u := Update(limits, r, t);
      u.stopped && u.limit == r.limit && u.peak == Max(r.peak, t.equity)
      && (u.halted <==> r.halted || u.peak - t.equity > r.limit)
  {
  }

  /**
   The daily reset lifts even the portfolio stop.  Over all later updates the stop never halts again: trading
   is halted exactly from the first drawdown above the new limit on, and then for good.
   */
  lemma DailyResetForgetsStop(limits: Limits, r: Risk, equity: real, ticks: seq<Tick>)
    requires r.stopped
    ensures var d := ResetDaily(limits, r, equity);
      !d.halted && (Run(limits, d, ticks).halted <==> EverOver(d.peak, d.limit, ticks))
  {
    var d := ResetDaily(limits, r, equity);
    StoppedHaltsWhenOver(limits, d, ticks);
  }
}
