/**
 The risk manager and the kill switch together: first the coupled system over any sequence of events,
 then the class whose fields change in place.
 */
module RiskManagement {
  import opened Prelude
  import opened KillSwitches
  import RiskHalts
  import Sizing

  /** An equity update of this process, its daily reset, or any kill-switch step of any process. */
  datatype Event =
    | Equity(tick: RiskHalts.Tick, got: Reads, write: Write)
    | DayStart(equity: real)
    | SwitchStep(op: Op)

  datatype Pair = Pair(risk: RiskHalts.Risk, sys: Sys)

  function SwitchAfter(s: Sys, pid: nat, scope: Scope, call: RiskHalts.SwitchCall, got: Reads, write: Write): Sys {
    match call
    case Leave => s
    case TripSwitch => Step(s, DoTrip(pid, scope, got, write))
    case ResetSwitch => Step(s, DoReset(pid, scope, write))
  }

  function React(limits: RiskHalts.Limits, pid: nat, scope: Scope, p: Pair, e: Event): Pair {
    match e
    case Equity(tick, got, write) =>
      Pair(RiskHalts.Update(limits, p.risk, tick),
           SwitchAfter(p.sys, pid, scope, RiskHalts.CallOf(limits, p.risk, tick), got, write))
    case DayStart(equity) => p.(risk := RiskHalts.ResetDaily(limits, p.risk, equity))
    case SwitchStep(op) => p.(sys := Step(p.sys, op))
  }

  function ReactAll(limits: RiskHalts.Limits, pid: nat, scope: Scope, p: Pair, es: seq<Event>): Pair
    decreases |es|
  {
    if es == [] then p else ReactAll(limits, pid, scope, React(limits, pid, scope, p, es[0]), es[1..])
  }

  /** New trades are refused and sizes are 0: halted here, or halted by the kill switch. */
  predicate Refuses(p: Pair, pid: nat, scope: Scope, got: Reads) {
    p.risk.halted || Halts(p.sys, pid, scope, got)
  }

  lemma {:induction false} StoppedAndObserved(limits: RiskHalts.Limits, pid: nat, scope: Scope, p: Pair, es: seq<Event>)
    requires pid < |p.sys.procs| && p.risk.stopped && Observes(p.sys.procs[pid], scope)
    requires forall i :: 0 <= i < |es| && es[i].SwitchStep? ==> !Covers(es[i].op, pid, scope)
    ensures var q := ReactAll(limits, pid, scope, p, es);
      pid < |q.sys.procs| && q.risk.stopped && Observes(q.sys.procs[pid], scope)
    decreases |es|
  {
    if es != [] {
      StoppedAndObserved(limits, pid, scope, React(limits, pid, scope, p, es[0]), es[1..]);
    }
  }

  /**
   Once the portfolio stop has latched, trading stays refused and every size is 0 through any equity updates,
   any daily resets, any steps of other processes and any Redis failures, as long as this process itself does
   not reset the kill switch for a covering scope: `reset_daily_limit` clears the local halt, but not the switch.
   */
  lemma StopOutlivesDailyReset(limits: RiskHalts.Limits, pid: nat, scope: Scope, p: Pair, e: Event, es: seq<Event>,
                               got: Reads)
    requires pid < |p.sys.procs| && e.Equity? && !p.risk.stopped && RiskHalts.Update(limits, p.risk, e.tick).stopped
    requires forall i :: 0 <= i < |es| && es[i].SwitchStep? ==> !Covers(es[i].op, pid, scope)
    ensures var q := ReactAll(limits, pid, scope, React(limits, pid, scope, p, e), es);
      Refuses(q, pid, scope, got)
      && forall cfg: Sizing.Config, capital: real, maxLoss: real, r: Sizing.Request ::
           Sizing.Size(cfg, capital, maxLoss, r, q.risk.reduced, Refuses(q, pid, scope, got)) == 0.0
  {
    StoppedAndObserved(limits, pid, scope, React(limits, pid, scope, p, e), es);
  }

  // ----- the breaker and the daily reset

  /** The event does not make the process reset the kill switch: neither by an unlock nor by a step of its own. */
  predicate KeepsSwitch(limits: RiskHalts.Limits, pid: nat, scope: Scope, p: Pair, e: Event) {
    match e
    case Equity(tick, _, _) => !RiskHalts.CallOf(limits, p.risk, tick).ResetSwitch?
    case DayStart(_) => true
    case SwitchStep(op) => !Covers(op, pid, scope)
  }

  predicate AllKeepSwitch(limits: RiskHalts.Limits, pid: nat, scope: Scope, p: Pair, es: seq<Event>)
    decreases |es|
  {
    es == []
    || (KeepsSwitch(limits, pid, scope, p, es[0])
        && AllKeepSwitch(limits, pid, scope, React(limits, pid, scope, p, es[0]), es[1..]))
  }

  /** In no state of the run, up to the last event, is trading halted here. */
  predicate NeverHalted(limits: RiskHalts.Limits, pid: nat, scope: Scope, p: Pair, es: seq<Event>)
    decreases |es|
  {
    es == [] || (!p.risk.halted && NeverHalted(limits, pid, scope, React(limits, pid, scope, p, es[0]), es[1..]))
  }

  lemma KeptObserves(limits: RiskHalts.Limits, pid: nat, scope: Scope, p: Pair, e: Event)
    requires pid < |p.sys.procs| && Observes(p.sys.procs[pid], scope) && KeepsSwitch(limits, pid, scope, p, e)
    ensures var q := React(limits, pid, scope, p, e); pid < |q.sys.procs| && Observes(q.sys.procs[pid], scope)
  {
  }

  lemma {:induction false} ObservedWhileKept(limits: RiskHalts.Limits, pid: nat, scope: Scope, p: Pair, es: seq<Event>)
    requires pid < |p.sys.procs| && Observes(p.sys.procs[pid], scope) && AllKeepSwitch(limits, pid, scope, p, es)
    ensures var q := ReactAll(limits, pid, scope, p, es); pid < |q.sys.procs| && Observes(q.sys.procs[pid], scope)
    decreases |es|
  {
    if es != [] {
      KeptObserves(limits, pid, scope, p, es[0]);
      ObservedWhileKept(limits, pid, scope, React(limits, pid, scope, p, es[0]), es[1..]);
    }
  }

  /** Without a local halt no update resets the switch. */
  lemma OnlyHaltsUnlock(limits: RiskHalts.Limits, r: RiskHalts.Risk, t: RiskHalts.Tick)
    requires !r.halted
    ensures !RiskHalts.CallOf(limits, r, t).ResetSwitch?
  {
    RiskHalts.OneCall(limits, r, t);
  }

  lemma {:induction false} UnhaltedKeeps(limits: RiskHalts.Limits, pid: nat, scope: Scope, p: Pair, es: seq<Event>)
    requires NeverHalted(limits, pid, scope, p, es)
    requires forall i :: 0 <= i < |es| && es[i].SwitchStep? ==> !Covers(es[i].op, pid, scope)
    ensures AllKeepSwitch(limits, pid, scope, p, es)
    decreases |es|
  {
    if es != [] {
      if es[0].Equity? { OnlyHaltsUnlock(limits, p.risk, es[0].tick); }
      UnhaltedKeeps(limits, pid, scope, React(limits, pid, scope, p, es[0]), es[1..]);
    }
  }

  lemma HaltIsObserved(limits: RiskHalts.Limits, pid: nat, scope: Scope, p: Pair, e: Event)
    requires pid < |p.sys.procs| && e.Equity? && RiskHalts.CallOf(limits, p.risk, e.tick).TripSwitch?
    ensures var q := React(limits, pid, scope, p, e); pid < |q.sys.procs| && Observes(q.sys.procs[pid], scope)
  {
  }

  /**
   A breaker halt outlives the daily reset: after a halt (`e`), anything that does not lift it (`first`) and
   the daily reset, no recovery of the equity reopens trading (`es`).  The kill switch is reset only by an
   update that finds a local halt, so trading stays refused until the breaker has tripped once more.
   */
  lemma HaltOutlivesDailyReset(limits: RiskHalts.Limits, pid: nat, scope: Scope, p: Pair, e: Event, first: seq<Event>,
                               equity: real, es: seq<Event>, got: Reads)
    requires pid < |p.sys.procs| && e.Equity? && RiskHalts.CallOf(limits, p.risk, e.tick).TripSwitch?
    requires AllKeepSwitch(limits, pid, scope, React(limits, pid, scope, p, e), first)
    requires forall i :: 0 <= i < |es| && es[i].SwitchStep? ==> !Covers(es[i].op, pid, scope)
    ensures var q := ReactAll(limits, pid, scope, React(limits, pid, scope, p, e), first);
      var d := React(limits, pid, scope, q, DayStart(equity));
      NeverHalted(limits, pid, scope, d, es) ==> Refuses(ReactAll(limits, pid, scope, d, es), pid, scope, got)
  {
    var q := ReactAll(limits, pid, scope, React(limits, pid, scope, p, e), first);
    var d := React(limits, pid, scope, q, DayStart(equity));
    HaltIsObserved(limits, pid, scope, p, e);
    ObservedWhileKept(limits, pid, scope, React(limits, pid, scope, p, e), first);
    if NeverHalted(limits, pid, scope, d, es) {
      UnhaltedKeeps(limits, pid, scope, d, es);
      ObservedWhileKept(limits, pid, scope, d, es);
    }
  }

  /**
   The way back: an update that finds the halt recovered lifts it and resets the switch, and trading is open
   again exactly if no global halt remains for a user's scope, and the key is gone from Redis if there is one.
   */
  lemma RecoveryReopensIff(limits: RiskHalts.Limits, pid: nat, scope: Scope, p: Pair, e: Event)
    requires pid < |p.sys.procs| && e.Equity? && RiskHalts.CallOf(limits, p.risk, e.tick).ResetSwitch?
    ensures var proc, keys := p.sys.procs[pid], p.sys.keys;
      (!Refuses(React(limits, pid, scope, p, e), pid, scope, Reads(Answered, Answered))
       <==> && (scope.Of? ==> !proc.halted)
            && (proc.connected ==>
                  (scope.Of? ==> !keys.halted) && (Reaches(e.write) || !KeySet(keys, scope))))
  {
  }

  class RiskManager {
    const limits: RiskHalts.Limits
    const config: Sizing.Config
    const totalCapital: real
    const maxLossPerTrade: real
    const scope: Scope
    const killSwitch: KillSwitch
    const sessionStartEquity: real
    var dailyDrawdownLimit: real
    var peakDailyEquity: real
    var tradingHalted: bool
    var tradingReduced: bool
    var haltTriggerCount: nat
    var unlockRecoveryPercent: real
    var lastHaltTime: Option<real>
    var portfolioStopTriggered: bool

    ghost function View(): RiskHalts.Risk
      reads this
    {
      RiskHalts.Risk(sessionStartEquity, dailyDrawdownLimit, peakDailyEquity, tradingHalted, tradingReduced,
                 haltTriggerCount, unlockRecoveryPercent, lastHaltTime, portfolioStopTriggered)
    }

    constructor (limits: RiskHalts.Limits, config: Sizing.Config, totalCapital: real, scope: Scope,
                 killSwitch: KillSwitch)
      ensures View() == RiskHalts.NewRisk(limits, totalCapital)
      ensures this.limits == limits && this.config == config && this.totalCapital == totalCapital
      ensures this.scope == scope && this.killSwitch == killSwitch && maxLossPerTrade == totalCapital * 0.015
    {
      this.limits, this.config, this.totalCapital := limits, config, totalCapital;
      this.scope, this.killSwitch := scope, killSwitch;
      maxLossPerTrade := totalCapital * 0.015;
      sessionStartEquity, peakDailyEquity := totalCapital, totalCapital;
      dailyDrawdownLimit := totalCapital * limits.dailyPct;
      tradingHalted, tradingReduced, haltTriggerCount := false, false, 0;
      unlockRecoveryPercent, lastHaltTime, portfolioStopTriggered := 0.50, None, false;
    }

    /** The kill switch as the call of this update leaves it. */
    ghost function SwitchResult(p: Proc, k: Keys, call: RiskHalts.SwitchCall, got: Reads, write: Write): (Proc, Keys)
    {
      match call
      case Leave => (p, k)
      case TripSwitch => var (q, l, _) := TripStep(p, k, scope, got, write); (q, l)
      case ResetSwitch => ResetStep(p, k, scope, write)
    }

    method CheckPortfolioStop(equity: real, got: Reads, write: Write)
      modifies this`portfolioStopTriggered, this`tradingHalted, killSwitch, killSwitch.redis
      ensures View() == RiskHalts.CheckStop(limits, old(View()), equity)
      ensures (killSwitch.View(), killSwitch.Shared()) == SwitchResult(old(killSwitch.View()), old(killSwitch.Shared()),
        if portfolioStopTriggered && !old(portfolioStopTriggered) then RiskHalts.TripSwitch else RiskHalts.Leave,
        got, write)
    {
      if sessionStartEquity > 0.0 && limits.stopPct > 0.0 {
        var pctDown := (sessionStartEquity - equity) / sessionStartEquity;
        if pctDown >= limits.stopPct && !portfolioStopTriggered {
          portfolioStopTriggered := true;
          tradingHalted := true;
          killSwitch.Trip(scope, got, write);
        }
      }
    }

    method CheckWarningPhase(equity: real)
      modifies this`peakDailyEquity, this`tradingReduced
      ensures View() == RiskHalts.CheckWarning(RiskHalts.RaisePeak(old(View()), equity), equity)
    {
      if equity > peakDailyEquity {
        peakDailyEquity := equity;
      }
      var drawdown := peakDailyEquity - equity;
      var ratio := if dailyDrawdownLimit > 0.0 then drawdown / dailyDrawdownLimit else 0.0;
      if ratio > 0.60 && !tradingReduced && !tradingHalted {
        tradingReduced := true;
      } else if ratio <= 0.50 && tradingReduced && !tradingHalted {
        tradingReduced := false;
      }
    }

    method CheckCircuitBreaker(t: RiskHalts.Tick, got: Reads, write: Write) returns (liquidate: bool)
      modifies this`tradingHalted, this`lastHaltTime, this`haltTriggerCount, this`unlockRecoveryPercent,
               killSwitch, killSwitch.redis
      ensures View() == RiskHalts.CheckBreaker(old(View()), t)
      ensures liquidate <==> RiskHalts.BreakerTrips(old(View()), t.equity)
      ensures (killSwitch.View(), killSwitch.Shared()) == SwitchResult(old(killSwitch.View()), old(killSwitch.Shared()),
        if liquidate then RiskHalts.TripSwitch else RiskHalts.Leave, got, write)
    {
      liquidate := peakDailyEquity - t.equity > dailyDrawdownLimit && !tradingHalted;
      if liquidate {
        tradingHalted := true;
        killSwitch.Trip(scope, got, write);
        lastHaltTime := Some(t.stamp);
        haltTriggerCount := haltTriggerCount + 1;
        unlockRecoveryPercent := 0.50;
      }
    }

    method TryUnlock(t: RiskHalts.Tick, got: Reads, write: Write)
      modifies this`tradingHalted, this`lastHaltTime, this`haltTriggerCount, this`unlockRecoveryPercent,
               this`tradingReduced, killSwitch, killSwitch.redis
      ensures View() == RiskHalts.Unlock(RiskHalts.AgeThreshold(old(View()), t.now), t.equity)
      ensures (killSwitch.View(), killSwitch.Shared()) == SwitchResult(old(killSwitch.View()), old(killSwitch.Shared()),
        if RiskHalts.Unlocks(RiskHalts.AgeThreshold(old(View()), t.now), t.equity)
        then RiskHalts.ResetSwitch else RiskHalts.Leave,
        got, write)
    {
      if tradingHalted {
        if lastHaltTime.Some? {
          var haltDuration := t.now - lastHaltTime.value;
          if haltDuration > 2.0 {
            unlockRecoveryPercent := 0.30;
          }
          if haltDuration > 4.0 {
            unlockRecoveryPercent := 0.20;
          }
        }
        assert View() == RiskHalts.AgeThreshold(old(View()), t.now);
        if peakDailyEquity - t.equity <= dailyDrawdownLimit * unlockRecoveryPercent && !portfolioStopTriggered {
          tradingHalted := false;
          killSwitch.Reset(scope, write);
          lastHaltTime := None;
          tradingReduced := false;
          haltTriggerCount := 0;
        }
      }
    }

    /** One equity update; the result tells whether the breaker asks to close all positions. */
    method UpdateAccountEquity(t: RiskHalts.Tick, got: Reads, write: Write) returns (liquidate: bool)
      modifies this, killSwitch, killSwitch.redis
      ensures View() == RiskHalts.Update(limits, old(View()), t)
      ensures (killSwitch.View(), killSwitch.Shared()) ==
        SwitchResult(old(killSwitch.View()), old(killSwitch.Shared()), RiskHalts.CallOf(limits, old(View()), t),
                     got, write)
      ensures liquidate <==> RiskHalts.BreakerTrips(
        RiskHalts.RaisePeak(RiskHalts.CheckStop(limits, old(View()), t.equity), t.equity), t.equity)
    {
      RiskHalts.OneCall(limits, View(), t);
      CheckPortfolioStop(t.equity, got, write);
      CheckWarningPhase(t.equity);
      liquidate := CheckCircuitBreaker(t, got, write);
      TryUnlock(t, got, write);
    }

    method ResetDailyLimit(equity: real)
      modifies this`dailyDrawdownLimit, this`tradingHalted
      ensures View() == RiskHalts.ResetDaily(limits, old(View()), equity)
    {
      dailyDrawdownLimit := equity * limits.dailyPct;
      tradingHalted := false;
    }

    /** What the process remembers of the kill switch after it was asked, unless the answer was known before. */
    ghost function SwitchAsked(known: bool, p: Proc, k: Keys, got: Reads): Proc {
      if known then p else Look(p, k, scope, got).0
    }

    /** The gate in front of every new trade. */
    method RefusesTrade(got: Reads) returns (refused: bool)
      modifies killSwitch`localHalted, killSwitch`userHalted
      ensures refused <==> tradingHalted || Look(old(killSwitch.View()), killSwitch.Shared(), scope, got).1
      ensures killSwitch.View() == SwitchAsked(tradingHalted, old(killSwitch.View()), killSwitch.Shared(), got)
    {
      refused := tradingHalted;
      if !refused {
        refused := killSwitch.IsHalted(scope, got);
      }
    }

    method LimitByPosition(t: Sizing.Terms, wanted: real) returns (numShares: real)
      ensures numShares == Sizing.CapPosition(config, totalCapital, t, wanted)
    {
      numShares := wanted;
      if t.price > 0.0 {
        var most := totalCapital * config.maxPct / t.price;
        if numShares > most { numShares := most; }
      }
    }

    method LimitByCash(t: Sizing.Terms, wanted: real) returns (numShares: real)
      ensures numShares == Sizing.CapCash(t, wanted)
    {
      numShares := wanted;
      if t.price > 0.0 && t.cash > 0.0 {
        var most := (t.cash - 50.0) / t.price;
        if most < 0.0 { most := 0.0; }
        if numShares > most { numShares := most; }
      }
    }

    method LimitByCapital(t: Sizing.Terms, wanted: real) returns (numShares: real)
      ensures numShares == Sizing.CapCash(t, Sizing.CapPosition(config, totalCapital, t, wanted))
    {
      numShares := LimitByPosition(t, wanted);
      numShares := LimitByCash(t, numShares);
    }

    method LimitByExposure(t: Sizing.Terms, wanted: real) returns (numShares: real)
      ensures numShares == Sizing.ScaleKelly(config, Sizing.CapExposure(config, totalCapital, t, wanted))
    {
      numShares := wanted;
      if config.maxExposurePct.Some? && t.price > 0.0 && t.invested.Some? {
        var room := totalCapital * config.maxExposurePct.value - t.invested.value;
        if room < numShares * t.price { numShares := Max(0.0, room / t.price); }
      }
      assert numShares == Sizing.CapExposure(config, totalCapital, t, wanted);
      if config.kellyCap.Some? && numShares > 0.0 {
        numShares := numShares * config.kellyCap.value;
      }
    }

    method LimitByStop(t: Sizing.Terms, wanted: real) returns (numShares: real)
      requires t.atr.Some?
      ensures numShares == Sizing.CapLoss(maxLossPerTrade, t, wanted)
    {
      numShares := wanted;
      if t.slMultiplier > 0.0 && t.atr.value > 0.0 && t.price > 0.0 {
        var loss := numShares * t.atr.value * t.slMultiplier;
        if loss > maxLossPerTrade {
          var most := maxLossPerTrade / (t.atr.value * t.slMultiplier);
          if most < numShares { numShares := Max(0.0, most); }
        }
      }
    }

    method CalculatePositionSize(q: Sizing.Request, got: Reads) returns (numShares: real)
      modifies killSwitch`localHalted, killSwitch`userHalted
      ensures numShares == Sizing.Size(config, totalCapital, maxLossPerTrade, q, tradingReduced,
        tradingHalted || Look(old(killSwitch.View()), killSwitch.Shared(), scope, got).1)
      ensures killSwitch.View() == SwitchAsked(tradingHalted || q.terms.atr.None? || q.terms.atr.value <= 0.0,
        old(killSwitch.View()), killSwitch.Shared(), got)
    {
      var t := q.terms;
      if t.atr.None? || t.atr.value <= 0.0 {
        return 0.0;
      }
      var refused := RefusesTrade(got);
      if refused {
        return 0.0;
      }
      var raw := Sizing.Raw(config, totalCapital, q, tradingReduced);
      if raw.None? {
        return 0.0;
      }
      numShares := LimitByCapital(t, raw.value);
      numShares := LimitByExposure(t, numShares);
      numShares := LimitByStop(t, numShares);
      numShares := FinishSize(t, numShares);
    }

    /** The thresholds and roundings at the end of the pipeline. */
    method FinishSize(t: Sizing.Terms, capped: real) returns (numShares: real)
      ensures numShares == Sizing.Finish(config, t, capped)
    {
      numShares := capped;
      if t.price > 0.0 {
        if numShares < 1.0 / t.price { numShares := 0.0; }
      } else if numShares < 0.001 {
        numShares := 0.0;
      }
      assert numShares == Sizing.DropTiny(t, capped);
      numShares := Sizing.Round6(numShares);
      if !t.fractional {
        numShares := Sizing.Truncate(numShares);
        if numShares < 1.0 { numShares := 0.0; }
      }
      if t.price > 0.0 && numShares > 0.0 && numShares * t.price < config.minOrderValue {
        numShares := 0.0;
      }
    }
  }
}
