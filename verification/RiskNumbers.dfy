/** The halting automaton in numbers: when it halts, warns, counts and calls the kill switch, in every run. */
module RiskNumbers {
  import opened Prelude
  import opened RiskHalts

  lemma StopTest(start: real, pct: real, equity: real)
    requires start > 0.0
    ensures (start - equity) / start >= pct <==> equity <= start - pct * start
  {
    var down := (start - equity) / start;
    assert down * start == start - equity;
    if down >= pct { ScaleUp(start, pct, down); } else { assert (pct - down) * start > 0.0; }
  }

  /** The equity is down from the start by the stop percentage or more. */
  predicate BelowStop(limits: Limits, start: real, equity: real) {
    start > 0.0 && limits.stopPct > 0.0 && equity <= start - limits.stopPct * start
  }

  lemma HitIs(limits: Limits, start: real, equity: real)
    ensures StopHit(limits, start, equity) <==> BelowStop(limits, start, equity)
  {
    if start > 0.0 { StopTest(start, limits.stopPct, equity); }
  }

  /** Some equity seen was that far down. */
  predicate FellToStop(limits: Limits, capital: real, ticks: seq<Tick>) {
    exists i :: 0 <= i < |ticks| && BelowStop(limits, capital, ticks[i].equity)
  }

  lemma {:induction false} EverDownIs(limits: Limits, capital: real, ticks: seq<Tick>)
    ensures EverDown(limits, capital, ticks) <==> FellToStop(limits, capital, ticks)
  {
    if ticks != [] {
      var first, t := ticks[..|ticks| - 1], ticks[|ticks| - 1];
      EverDownIs(limits, capital, first);
      HitIs(limits, capital, t.equity);
      if FellToStop(limits, capital, first) {
        var i :| 0 <= i < |first| && BelowStop(limits, capital, first[i].equity);
        assert BelowStop(limits, capital, ticks[i].equity);
      }
      if FellToStop(limits, capital, ticks) {
        var i :| 0 <= i < |ticks| && BelowStop(limits, capital, ticks[i].equity);
        if i < |first| { assert BelowStop(limits, capital, first[i].equity); }
      }
    }
  }

  /** In every run the portfolio stop has latched if and only if some equity fell to it. */
  lemma StopIffFell(limits: Limits, capital: real, ticks: seq<Tick>)
    ensures Run(limits, NewRisk(limits, capital), ticks).stopped <==> FellToStop(limits, capital, ticks)
  {
    StopLatchesWhen(limits, capital, ticks);
    EverDownIs(limits, capital, ticks);
  }

  // ----- one update

  /** What an update decides, from the state before it, the drawdown from the new peak, and whether the stop is hit. */
  predicate Decides(r: Risk, u: Risk, t: Tick, d: real, hit: bool) {
    && u.limit == r.limit && u.sessionStart == r.sessionStart && u.stopped == (r.stopped || hit)
    && (!r.halted ==> HaltsNow(r, u, t, d, hit && !r.stopped))
    && (r.halted && u.halted ==> u.lastHalt == r.lastHalt && u.haltCount == r.haltCount && u.reduced == r.reduced)
    && (r.halted && !u.halted ==> u.lastHalt == None && u.haltCount == 0 && !u.reduced)
  }

  /** An account that was not halted is halted by a fresh stop or by a drawdown above the limit, and only so. */
  predicate HaltsNow(r: Risk, u: Risk, t: Tick, d: real, latches: bool) {
    && (u.halted <==> latches || d > r.limit)
    && u.lastHalt == (if d > r.limit && !latches then Some(t.stamp) else r.lastHalt)
    && u.haltCount == (if d > r.limit && !latches then r.haltCount + 1 else r.haltCount)
    && (!latches && r.limit > 0.0 ==>
          u.reduced == if d * 10.0 > r.limit * 6.0 then true else if d * 2.0 <= r.limit then false else r.reduced)
    && (latches ==> u.reduced == r.reduced)
  }

  lemma WarningInTenths(r: Risk, equity: real)
    requires r.limit > 0.0
    ensures var d := Drawdown(r, equity);
      CheckWarning(r, equity) == r.(reduced :=
        if r.halted then r.reduced else if d * 10.0 > r.limit * 6.0 then true
        else if d * 2.0 <= r.limit then false else r.reduced)
  {
    WarningIs(r, equity);
  }

  lemma CheckedAndUnlocked(p: Risk, t: Tick, u: Risk)
    requires u == Unlock(AgeThreshold(CheckBreaker(p, t), t.now), t.equity) && KnownThreshold(p) && p.peak >= t.equity
    ensures u.limit == p.limit && u.sessionStart == p.sessionStart && u.stopped == p.stopped && u.peak == p.peak
    ensures var d := Drawdown(p, t.equity);
      && (!p.halted ==>
            && (u.halted <==> d > p.limit) && u.reduced == p.reduced
            && u.lastHalt == (if d > p.limit then Some(t.stamp) else p.lastHalt)
            && u.haltCount == (if d > p.limit then p.haltCount + 1 else p.haltCount))
      && (p.halted && u.halted ==> u.lastHalt == p.lastHalt && u.haltCount == p.haltCount && u.reduced == p.reduced)
      && (p.halted && !u.halted ==> u.lastHalt == None && u.haltCount == 0 && !u.reduced && !p.stopped)
  {
  }

  /** One update, for any state it can find. */
  lemma UpdateDecides(limits: Limits, r: Risk, t: Tick)
    requires KnownThreshold(r) && (r.stopped ==> r.halted)
    ensures var u := Update(limits, r, t);
      Decides(r, u, t, u.peak - t.equity, StopHit(limits, r.sessionStart, t.equity))
  {
    var s := RaisePeak(CheckStop(limits, r, t.equity), t.equity);
    var p := CheckWarning(s, t.equity);
    WarningIs(s, t.equity);
    if s.limit > 0.0 { WarningInTenths(s, t.equity); }
    CheckedAndUnlocked(p, t, Update(limits, r, t));
  }

  // ----- every run

  lemma {:induction false} RunCounts(limits: Limits, capital: real, ticks: seq<Tick>)
    requires ClockRuns(ticks)
    ensures var r := Run(limits, NewRisk(limits, capital), ticks);
      && r.limit == capital * limits.dailyPct && r.sessionStart == capital
      && r.haltCount == (if r.lastHalt.Some? then 1 else 0)
  {
    if ticks != [] {
      var first, t := ticks[..|ticks| - 1], ticks[|ticks| - 1];
      RunCounts(limits, capital, first);
      RunExplains(limits, capital, first);
      RunThreshold(limits, capital, first);
      UpdateDecides(limits, Run(limits, NewRisk(limits, capital), first), t);
    }
  }

  lemma DecidesFor(limits: Limits, r: Risk, t: Tick, u: Risk, d: real)
    requires KnownThreshold(r) && (r.stopped ==> r.halted) && u == Update(limits, r, t) && d == u.peak - t.equity
    ensures Decides(r, u, t, d, BelowStop(limits, r.sessionStart, t.equity))
  {
    UpdateDecides(limits, r, t);
    HitIs(limits, r.sessionStart, t.equity);
  }

  /**
   The last update of any run, in numbers: the limit is the daily percentage of the start capital, the drawdown is
   taken from the highest equity so far, and the stop is hit at the stop percentage below the start capital.
   */
  lemma RunDecides(limits: Limits, capital: real, ticks: seq<Tick>)
    requires ticks != [] && ClockRuns(ticks)
    ensures var r, t := Run(limits, NewRisk(limits, capital), ticks[..|ticks| - 1]), ticks[|ticks| - 1];
      var u := Run(limits, NewRisk(limits, capital), ticks);
      && r.limit == capital * limits.dailyPct && u.haltCount == (if u.lastHalt.Some? then 1 else 0)
      && Decides(r, u, t, Highest(capital, ticks) - t.equity, BelowStop(limits, capital, t.equity))
  {
    var first, t := ticks[..|ticks| - 1], ticks[|ticks| - 1];
    var r, u := Run(limits, NewRisk(limits, capital), first), Run(limits, NewRisk(limits, capital), ticks);
    RunCounts(limits, capital, first);
    RunCounts(limits, capital, ticks);
    RunExplains(limits, capital, first);
    RunThreshold(limits, capital, first);
    PeakIsHighest(limits, NewRisk(limits, capital), ticks);
    assert u.peak == Highest(capital, ticks);
    DecidesFor(limits, r, t, u, u.peak - t.equity);
  }

  /**
   A breaker halt that was pending before the last update of any run is lifted by it exactly when the stop has not
   latched and the drawdown is down to half the limit, after two hours to three tenths, after four to a fifth.
   */
  lemma LiftedInTenths(limits: Limits, capital: real, ticks: seq<Tick>)
    requires ticks != [] && ClockRuns(ticks)
    ensures var r, t := Run(limits, NewRisk(limits, capital), ticks[..|ticks| - 1]), ticks[|ticks| - 1];
      var u := Run(limits, NewRisk(limits, capital), ticks); var d := Highest(capital, ticks) - t.equity;
      r.lastHalt.Some? ==>
        var age := t.now - r.lastHalt.value;
        && (age <= 2.0 ==> (!u.halted <==> !u.stopped && d * 10.0 <= r.limit * 5.0))
        && (2.0 < age <= 4.0 ==> (!u.halted <==> !u.stopped && d * 10.0 <= r.limit * 3.0))
        && (age > 4.0 ==> (!u.halted <==> !u.stopped && d * 10.0 <= r.limit * 2.0))
  {
    RunLifts(limits, capital, ticks);
  }

  /** The kill switch is tripped exactly by an update that latches the stop or halts, and reset by one that lifts. */
  lemma CallsWhen(limits: Limits, r: Risk, t: Tick)
    requires KnownThreshold(r)
    ensures var u := Update(limits, r, t); var call := CallOf(limits, r, t);
      && (call.TripSwitch? <==> (u.stopped && !r.stopped) || (u.halted && !r.halted))
      && (call.ResetSwitch? <==> r.halted && !u.halted)
  {
    var s := RaisePeak(CheckStop(limits, r, t.equity), t.equity);
    WarningIs(s, t.equity);
    OneCall(limits, r, t);
    CheckedAndUnlocked(CheckWarning(s, t.equity), t, Update(limits, r, t));
  }

  /** The daily reset takes its limit from the equity of that moment. */
  lemma ResetTakesLimit(limits: Limits, r: Risk, equity: real)
    ensures ResetDaily(limits, r, equity) == r.(limit := equity * limits.dailyPct, halted := false)
  {
  }
}
