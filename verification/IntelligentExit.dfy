/** The exit decision: five scores between 0 and 100, direct triggers, and a weighted sum. */
module IntelligentExit {
  import opened Prelude

  const LOSS_TIER_1 := -2.0
  const LOSS_TIER_2 := -4.0
  const LOSS_TIER_3 := -6.0
  const HARD_STOP := -8.0
  const PANIC_HOURS := 2.0
  const MOMENTUM_SELL := -0.3
  const SELL_THRESHOLD := 70.0

  /** One tier of the trailing stop: from a profit on, the stop distance and the time to hold first. */
  datatype Tier = Tier(minProfit: real, trail: real, minHold: real)

  const TIERS: seq<Tier> :=
    [Tier(2.0, 1.5, 1.0), Tier(5.0, 2.5, 2.0), Tier(10.0, 4.0, 4.0), Tier(20.0, 6.0, 8.0), Tier(35.0, 8.0, 12.0)]

  datatype Position = Position(entry: real, current: real, high: real, hours: real, lstm: real, news: real,
                               momentum: seq<real>)

  datatype Reason = Undecided | HardStop | PanicProtection | TrailingStop | LossCut | MomentumFade | Weighted | Hold

  datatype Analysis = Analysis(pnl: real, hours: real, loss: real, trailing: real, fade: real, news: real, time: real,
                               total: real, sell: bool, confidence: real, reason: Reason)

  function PnlPct(p: Position): real {
    if p.entry > 0.0 then (p.current - p.entry) / p.entry * 100.0 else 0.0
  }

  function DrawdownPct(p: Position): real {
    if p.high > 0.0 then (p.high - p.current) / p.high * 100.0 else 0.0
  }

  // ----- the five scores

  function LossBase(pnl: real): real {
    if pnl <= LOSS_TIER_3 then 90.0
    else if pnl <= LOSS_TIER_2 then 70.0
    else if pnl <= LOSS_TIER_1 then 40.0
    else Abs(pnl) * 15.0
  }

  function LossTime(hours: real): real {
    if hours >= 72.0 then 1.5 else if hours >= 24.0 then 1.4 else if hours >= 4.0 then 1.2 else 1.0
  }

  function LossPressure(pnl: real, hours: real): real {
    if pnl >= 0.0 then 0.0
    else if pnl <= HARD_STOP then 100.0
    else Min(100.0, LossBase(pnl) * LossTime(hours))
  }

  /** The tier of a profit: the highest one reached, or the default in front of the first. */
  function TierOf(pnl: real): Tier {
    if pnl >= 35.0 then TIERS[4]
    else if pnl >= 20.0 then TIERS[3]
    else if pnl >= 10.0 then TIERS[2]
    else if pnl >= 5.0 then TIERS[1]
    else if pnl >= 2.0 then TIERS[0]
    else Tier(0.0, 1.5, 1.0)
  }

  function TrailingScore(pnl: real, drawdown: real, hours: real): real {
    if pnl <= 0.0 then 0.0
    else
      var t := TierOf(pnl);
      if hours < t.minHold then 0.0
      else if drawdown >= t.trail then Min(100.0, 85.0 + (drawdown - t.trail) * 15.0)
      else if drawdown / t.trail * 100.0 > 70.0 then drawdown / t.trail * 100.0 * 0.6
      else 0.0
  }

  function DynamicTrailingStopPct(pnl: real): real { if pnl <= 0.0 then 0.0 else TierOf(pnl).trail }

  function FadeSignal(lstm: real, pnl: real): real {
    if lstm < MOMENTUM_SELL then (if pnl > 0.0 then 60.0 + Abs(lstm) * 60.0 else 40.0 + Abs(lstm) * 40.0) else 0.0
  }

  /** What the last three predictions add: 25 when they fall, 30 more when a good winner turns bearish. */
  function FadeTrend(momentum: seq<real>, pnl: real): real {
    if |momentum| < 3 then 0.0
    else
      var a, b, c := momentum[|momentum| - 3], momentum[|momentum| - 2], momentum[|momentum| - 1];
      (if a > b > c then 25.0 else 0.0) + (if (a + b + c) / 3.0 < -0.2 && pnl > 5.0 then 30.0 else 0.0)
  }

  function Fade(lstm: real, momentum: seq<real>, pnl: real): real {
    Min(100.0, FadeSignal(lstm, pnl) + FadeTrend(momentum, pnl))
  }

  function NewsPressure(news: real, pnl: real): real {
    if news >= 0.0 then 0.0
    else Min(100.0, Abs(news) * 100.0 * (if pnl > 10.0 then 0.5 else if pnl < -2.0 then 1.3 else 1.0))
  }

  function TimePressure(pnl: real, hours: real): real {
    if pnl >= 0.0 || hours < 4.0 then 0.0
    else if hours < 24.0 then (hours - 4.0) / 20.0 * 30.0
    else if hours < 72.0 then 30.0 + (hours - 24.0) / 48.0 * 30.0
    else Min(100.0, 60.0 + (hours - 72.0) / 24.0 * 10.0)
  }

  function LoserTotal(loss: real, trailing: real, fade: real, news: real, time: real): real {
    loss * 0.45 + trailing * 0.05 + fade * 0.20 + news * 0.15 + time * 0.15
  }

  function WinnerTotal(loss: real, trailing: real, fade: real, news: real, time: real): real {
    loss * 0.0 + trailing * 0.40 + fade * 0.35 + news * 0.15 + time * 0.10
  }

  // ----- the decision

  /** The analysis with the five scores filled in. */
  function Scored(p: Position): Analysis {
    var pnl := PnlPct(p);
    Analysis(pnl, p.hours, LossPressure(pnl, p.hours), TrailingScore(pnl, DrawdownPct(p), p.hours),
             Fade(p.lstm, p.momentum, pnl), NewsPressure(p.news, pnl), TimePressure(pnl, p.hours),
             0.0, false, 0.0, Undecided)
  }

  /** The decision as a table of cases, the first that applies. */
  function Decide(p: Position): Analysis {
    var pnl := PnlPct(p);
    var blank := Analysis(pnl, p.hours, 0.0, 0.0, 0.0, 0.0, 0.0, 0.0, false, 0.0, Undecided);
    var a := Scored(p);
    if p.hours < PANIC_HOURS then
      (if pnl <= HARD_STOP then blank.(sell := true, reason := HardStop, confidence := 1.0, total := 100.0)
       else blank.(reason := PanicProtection))
    else if a.trailing >= 85.0 then a.(total := a.trailing, sell := true, confidence := 1.0, reason := TrailingStop)
    else if a.loss >= 90.0 then a.(total := a.loss, sell := true, confidence := 1.0, reason := LossCut)
    else if pnl > 5.0 && a.fade >= 80.0 then
      a.(total := a.fade, sell := true, confidence := 0.9, reason := MomentumFade)
    else
      var total := if pnl < 0.0 then LoserTotal(a.loss, a.trailing, a.fade, a.news, a.time)
                   else WinnerTotal(a.loss, a.trailing, a.fade, a.news, a.time);
      if total >= SELL_THRESHOLD then
        a.(total := total, sell := true, confidence := Min(1.0, total / 100.0), reason := Weighted)
      else a.(total := total, reason := Hold)
  }

  /** The highest tier reached, searched from the top as the source does. */
  method FindTier(pnl: real) returns (t: Tier)
    ensures t == TierOf(pnl)
  {
    t := Tier(0.0, 1.5, 1.0);
    var i := |TIERS|;
    while i > 0
      invariant 0 <= i <= |TIERS| && t == Tier(0.0, 1.5, 1.0)
      invariant forall j :: i <= j < |TIERS| ==> pnl < TIERS[j].minProfit
    {
      i := i - 1;
      if pnl >= TIERS[i].minProfit {
        return TIERS[i];
      }
    }
    assert pnl < TIERS[0].minProfit && pnl < TIERS[1].minProfit && pnl < TIERS[2].minProfit;
    assert pnl < TIERS[3].minProfit && pnl < TIERS[4].minProfit;
  }

  /** The decision in the source's own order: fields filled one after the other, with early returns. */
  method AnalyzeExit(p: Position) returns (a: Analysis)
    ensures a == Decide(p)
  {
    var pnl := PnlPct(p);
    a := Analysis(pnl, p.hours, 0.0, 0.0, 0.0, 0.0, 0.0, 0.0, false, 0.0, Undecided);
    if p.hours < PANIC_HOURS {
      if pnl <= HARD_STOP {
        a := a.(sell := true, reason := HardStop, confidence := 1.0, total := 100.0);
        return;
      }
      a := a.(reason := PanicProtection);
      return;
    }
    a := a.(loss := LossPressure(pnl, p.hours));
    a := a.(trailing := TrailingScore(pnl, DrawdownPct(p), p.hours));
    a := a.(fade := Fade(p.lstm, p.momentum, pnl));
    a := a.(news := NewsPressure(p.news, pnl));
    a := a.(time := TimePressure(pnl, p.hours));
    if a.trailing >= 85.0 {
      a := a.(total := a.trailing, sell := true, confidence := 1.0, reason := TrailingStop);
      return;
    }
    if a.loss >= 90.0 {
      a := a.(total := a.loss, sell := true, confidence := 1.0, reason := LossCut);
      return;
    }
    if pnl > 5.0 && a.fade >= 80.0 {
      a := a.(total := a.fade, sell := true, confidence := 0.9, reason := MomentumFade);
      return;
    }
    if pnl < 0.0 {
      a := a.(total := LoserTotal(a.loss, a.trailing, a.fade, a.news, a.time));
    } else {
      a := a.(total := WinnerTotal(a.loss, a.trailing, a.fade, a.news, a.time));
    }
    if a.total >= SELL_THRESHOLD {
      a := a.(sell := true, confidence := Min(1.0, a.total / 100.0), reason := Weighted);
    } else {
      a := a.(sell := false, reason := Hold);
    }
  }

  // ----- bounds

  predicate InRange(x: real) { 0.0 <= x <= 100.0 }

  lemma TrailingInRange(pnl: real, drawdown: real, hours: real)
    ensures InRange(TrailingScore(pnl, drawdown, hours))
  {
    var trail := TierOf(pnl).trail;
    if drawdown < trail { DivideUp(trail, drawdown, trail); }
  }

  /** Every score and the total lie in [0, 100], and the decision is SELL exactly when the total reaches 70. */
  lemma ScoresInRange(p: Position)
    ensures var a := Decide(p);
      && InRange(a.loss) && InRange(a.trailing) && InRange(a.fade) && InRange(a.news) && InRange(a.time)
      && InRange(a.total) && 0.0 <= a.confidence <= 1.0
      && (a.sell <==> a.total >= 70.0)
  {
    TrailingInRange(PnlPct(p), DrawdownPct(p), p.hours);
  }

  /** A loss at or beyond the hard stop sells at every hold time. */
  lemma HardStopAlwaysSells(p: Position)
    requires PnlPct(p) <= -8.0
    ensures Decide(p).sell && Decide(p).total == 100.0
  {
  }

  /** Before the panic window ends nothing else sells. */
  lemma PanicWindowHolds(p: Position)
    requires p.hours < 2.0
    ensures Decide(p).sell <==> PnlPct(p) <= -8.0
  {
  }

  /** A trailing stop fires exactly when a winner, held for its tier's time, has lost its tier's distance. */
  lemma TrailingStopFires(p: Position)
    requires p.hours >= PANIC_HOURS
    ensures var pnl := PnlPct(p);
      (Decide(p).reason == TrailingStop <==>
         pnl > 0.0 && p.hours >= TierOf(pnl).minHold && DrawdownPct(p) >= DynamicTrailingStopPct(pnl))
  {
    var trail := TierOf(PnlPct(p)).trail;
    if DrawdownPct(p) < trail { DivideUp(trail, DrawdownPct(p), trail); }
  }

  // ----- losers: worse never means HOLD

  /** `q` is in every respect at least as bad as `p`. */
  predicate AsBad(p: Position, q: Position) {
    && PnlPct(q) <= PnlPct(p) && p.hours <= q.hours && q.lstm <= p.lstm && q.news <= p.news
    && q.momentum == p.momentum
  }

  /** The same for a losing position `p`. */
  predicate Worse(p: Position, q: Position) { AsBad(p, q) && PnlPct(p) < 0.0 }

  lemma LossUp(pnl1: real, pnl2: real, hours1: real, hours2: real)
    requires pnl2 <= pnl1 < 0.0 && hours1 <= hours2
    ensures LossPressure(pnl1, hours1) <= LossPressure(pnl2, hours2)
  {
    ScaleUp(LossTime(hours1), LossBase(pnl1), LossBase(pnl2));
    ScaleUp(LossBase(pnl2), LossTime(hours1), LossTime(hours2));
  }

  lemma NewsUp(news1: real, news2: real, pnl1: real, pnl2: real)
    requires news2 <= news1 && pnl2 <= pnl1 < 0.0
    ensures NewsPressure(news1, pnl1) <= NewsPressure(news2, pnl2)
  {
  }

  lemma TimeUp(pnl1: real, pnl2: real, hours1: real, hours2: real)
    requires pnl2 <= pnl1 < 0.0 && hours1 <= hours2
    ensures TimePressure(pnl1, hours1) <= TimePressure(pnl2, hours2)
  {
  }

  /**
   For a losing position a deeper loss, a longer hold, a lower prediction and worse news, with the same
   momentum history, never turn SELL into HOLD, and never lower the total of a position that is held on
   after the panic window.
   */
  lemma WorseStillSells(p: Position, q: Position)
    requires Worse(p, q)
    ensures Decide(p).sell ==> Decide(q).sell
    ensures p.hours >= PANIC_HOURS && !Decide(q).sell ==> Decide(p).total <= Decide(q).total
  {
    var pnl1, pnl2 := PnlPct(p), PnlPct(q);
    LossUp(pnl1, pnl2, p.hours, q.hours);
    NewsUp(p.news, q.news, pnl1, pnl2);
    TimeUp(pnl1, pnl2, p.hours, q.hours);
    assert Fade(p.lstm, p.momentum, pnl1) <= Fade(q.lstm, q.momentum, pnl2);
  }

  /** At break-even nothing sells. */
  lemma BreakEvenHolds(p: Position)
    requires PnlPct(p) == 0.0
    ensures !Decide(p).sell
  {
  }

  /** A winner of `x` percent that has fallen from twice as high, held for half a day. */
  function FallenWinner(x: real): Position { Position(100.0, 100.0 + x, 200.0 + 2.0 * x, 12.0, 0.0, 0.0, []) }

  lemma FallenWinnerFigures(x: real)
    requires x > 0.0
    ensures PnlPct(FallenWinner(x)) == x && DrawdownPct(FallenWinner(x)) == 50.0
  {
    var p := FallenWinner(x);
    QuotientIs(p.current - p.entry, p.entry, x / 100.0);
    QuotientIs(p.high - p.current, p.high, 0.5);
  }

  lemma TrailingStopSells(p: Position)
    requires Decide(p).reason == TrailingStop
    ensures Decide(p).sell
  {
  }

  lemma TierWithin(pnl: real)
    ensures TierOf(pnl).trail <= 8.0 && TierOf(pnl).minHold <= 12.0
  {
  }

  lemma FallenWinnerSells(x: real)
    requires x > 0.0
    ensures PnlPct(FallenWinner(x)) == x && Decide(FallenWinner(x)).sell
  {
    FallenWinnerFigures(x);
    TierWithin(x);
    TrailingStopFires(FallenWinner(x));
    TrailingStopSells(FallenWinner(x));
  }

  /** `p` is sold, but `q`, which is at least as bad, is held. */
  predicate TurnsToHold(p: Position, q: Position) { AsBad(p, q) && Decide(p).sell && !Decide(q).sell }

  lemma NotWinningNeverTurns(p: Position, q: Position)
    requires PnlPct(p) <= 0.0
    ensures !TurnsToHold(p, q)
  {
    if AsBad(p, q) {
      if PnlPct(p) == 0.0 { BreakEvenHolds(p); } else { WorseStillSells(p, q); }
    }
  }

  lemma FallenWinnerTurns(x: real)
    requires x > 0.0
    ensures TurnsToHold(FallenWinner(x), FallenWinner(x).(current := 100.0))
  {
    var q := FallenWinner(x).(current := 100.0);
    FallenWinnerSells(x);
    QuotientIs(q.current - q.entry, q.entry, 0.0);
    BreakEvenHolds(q);
  }

  /** The decision is monotone at a result of `x` percent if and only if `x` is not a profit. */
  lemma MonotoneIffNotWinning(x: real)
    ensures (forall p, q :: PnlPct(p) == x ==> !TurnsToHold(p, q)) <==> x <= 0.0
  {
    if x <= 0.0 {
      forall p, q | PnlPct(p) == x ensures !TurnsToHold(p, q) { NotWinningNeverTurns(p, q); }
    } else {
      FallenWinnerSells(x);
      FallenWinnerTurns(x);
    }
  }
}
