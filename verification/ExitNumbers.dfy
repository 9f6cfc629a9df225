/** The exit decision in numbers: which results, hold times, predictions and histories are sold, and by which rule. */
module ExitNumbers {
  import opened Prelude
  import opened IntelligentExit

  // ----- the direct triggers

  /** The trailing distance in percent and the hours to hold first, for a profit. */
  predicate TrailIs(pnl: real, distance: real, hold: real) {
    && (0.0 < pnl < 5.0 ==> distance == 1.5 && hold == 1.0)
    && (5.0 <= pnl < 10.0 ==> distance == 2.5 && hold == 2.0)
    && (10.0 <= pnl < 20.0 ==> distance == 4.0 && hold == 4.0)
    && (20.0 <= pnl < 35.0 ==> distance == 6.0 && hold == 8.0)
    && (pnl >= 35.0 ==> distance == 8.0 && hold == 12.0)
  }

  lemma TrailIsTier(pnl: real, distance: real, hold: real)
    requires pnl > 0.0 && TrailIs(pnl, distance, hold)
    ensures TierOf(pnl).trail == distance && TierOf(pnl).minHold == hold
  {
  }

  /** After two hours a winner is stopped out exactly when it was held for its time and has lost its distance. */
  lemma StoppedOutIff(p: Position, distance: real, hold: real)
    requires p.hours >= 2.0 && PnlPct(p) > 0.0 && TrailIs(PnlPct(p), distance, hold)
    ensures Decide(p).reason == TrailingStop <==> p.hours >= hold && DrawdownPct(p) >= distance
  {
    TrailingStopFires(p);
    TrailIsTier(PnlPct(p), distance, hold);
  }

  /** The distance that the code hands out for logging. */
  lemma HandedOutDistance(pnl: real, distance: real, hold: real)
    requires TrailIs(pnl, distance, hold)
    ensures DynamicTrailingStopPct(pnl) == if pnl > 0.0 then distance else 0.0
  {
  }

  /** Losers and positions at break-even are never stopped out. */
  lemma LosersAreNotStoppedOut(p: Position)
    requires PnlPct(p) <= 0.0
    ensures Decide(p).reason != TrailingStop
  {
  }

  /** After two hours a position is loss-cut exactly at -6 percent, or at -4 percent after a day, or below. */
  lemma LossCutIff(p: Position)
    requires p.hours >= 2.0
    ensures Decide(p).reason == LossCut <==> PnlPct(p) <= -6.0 || (PnlPct(p) <= -4.0 && p.hours >= 24.0)
    ensures Decide(p).reason == LossCut ==> Decide(p).sell && Decide(p).confidence == 1.0
  {
  }

  /** The last three predictions fall. */
  predicate Falls(history: seq<real>) {
    |history| >= 3 && history[|history| - 3] > history[|history| - 2] > history[|history| - 1]
  }

  /** The last three predictions are below -0.2 on average. */
  predicate Bearish(history: seq<real>) {
    |history| >= 3 && history[|history| - 3] + history[|history| - 2] + history[|history| - 1] < -0.6
  }

  lemma MeanBelow(sum: real)
    ensures sum / 3.0 < -0.2 <==> sum < -0.6
  {
  }

  /**
   After two hours a winner above 5 percent that is not stopped out is sold by the momentum trigger exactly when the
   prediction is below -0.3, and at most -1/3, or the last three fall, or are bearish.
   */
  lemma MomentumFadeIff(p: Position)
    requires p.hours >= 2.0 && PnlPct(p) > 5.0 && Decide(p).reason != TrailingStop
    ensures Decide(p).reason == MomentumFade
      <==> p.lstm < -0.3 && (p.lstm * 3.0 <= -1.0 || Falls(p.momentum) || Bearish(p.momentum))
    ensures Decide(p).reason == MomentumFade ==> Decide(p).sell && Decide(p).confidence == 0.9
  {
    if |p.momentum| >= 3 {
      var h := p.momentum;
      MeanBelow(h[|h| - 3] + h[|h| - 2] + h[|h| - 1]);
    }
  }

  /** Up to 5 percent there is no momentum trigger. */
  lemma NoTriggerUpToFive(p: Position)
    requires PnlPct(p) <= 5.0
    ensures Decide(p).reason != MomentumFade
  {
  }

  // ----- the weighted decision

  /** Pressure from the loss: 15 a percent up to 2 percent, then 40, 70 and 90 by tiers, more with the hours held. */
  predicate LossIs(pnl: real, hours: real, score: real) {
    && (pnl >= 0.0 ==> score == 0.0)
    && (-2.0 < pnl < 0.0 ==> score == -15.0 * pnl * HoursFactor(hours))
    && (-4.0 < pnl <= -2.0 ==> score == 40.0 * HoursFactor(hours))
    && (-6.0 < pnl <= -4.0 ==> score == Min(100.0, 70.0 * HoursFactor(hours)))
    && (-8.0 < pnl <= -6.0 ==> score == Min(100.0, 90.0 * HoursFactor(hours)))
    && (pnl <= -8.0 ==> score == 100.0)
  }

  function HoursFactor(hours: real): real {
    if hours < 4.0 then 1.0 else if hours < 24.0 then 1.2 else if hours < 72.0 then 1.4 else 1.5
  }

  /** Warning of a trailing stop that is near: 0.6 times the percentage of the distance, from 70 percent of it on. */
  predicate TrailingIs(pnl: real, drawdown: real, hours: real, distance: real, hold: real, score: real) {
    && (pnl <= 0.0 || hours < hold || drawdown * 10.0 <= distance * 7.0 ==> score == 0.0)
    && (pnl > 0.0 && hours >= hold && distance * 7.0 < drawdown * 10.0 && drawdown < distance ==>
          score * distance == 60.0 * drawdown)
  }

  /** Fading momentum: of a bearish prediction, a falling history, and a bearish history of a good winner. */
  predicate FadeIs(lstm: real, history: seq<real>, pnl: real, score: real) {
    var signal := if lstm >= -0.3 then 0.0 else if pnl > 0.0 then 60.0 * (1.0 - lstm) else 40.0 * (1.0 - lstm);
    var falling := if Falls(history) then 25.0 else 0.0;
    var bearish := if Bearish(history) && pnl > 5.0 then 30.0 else 0.0;
    score == Min(100.0, signal + falling + bearish)
  }

  predicate NewsIs(news: real, pnl: real, score: real) {
    && (news >= 0.0 ==> score == 0.0)
    && (news < 0.0 && pnl > 10.0 ==> score == Min(100.0, -50.0 * news))
    && (news < 0.0 && -2.0 <= pnl <= 10.0 ==> score == Min(100.0, -100.0 * news))
    && (news < 0.0 && pnl < -2.0 ==> score == Min(100.0, -130.0 * news))
  }

  /** Pressure from time, of losers only: from 4 hours to a day up to 30, to three days up to 60, then 10 a day. */
  predicate TimeIs(pnl: real, hours: real, score: real) {
    && (pnl >= 0.0 || hours < 4.0 ==> score == 0.0)
    && (pnl < 0.0 && 4.0 <= hours < 24.0 ==> score * 2.0 == (hours - 4.0) * 3.0)
    && (pnl < 0.0 && 24.0 <= hours < 72.0 ==> (score - 30.0) * 8.0 == (hours - 24.0) * 5.0)
    && (pnl < 0.0 && hours >= 72.0 ==> score == Min(100.0, 60.0 + (hours - 72.0) * 5.0 / 12.0))
  }

  lemma LossScore(pnl: real, hours: real, score: real)
    requires LossIs(pnl, hours, score)
    ensures LossPressure(pnl, hours) == score
  {
    assert LossTime(hours) == HoursFactor(hours);
    if -2.0 < pnl < 0.0 {
      SmallLoss(-pnl, HoursFactor(hours));
      assert LossBase(pnl) == -pnl * 15.0;
    }
  }

  lemma SmallLoss(loss: real, factor: real)
    requires 0.0 < loss < 2.0 && 0.0 <= factor <= 1.5
    ensures 15.0 * loss * factor <= 100.0
  {
    ScaleUp(15.0 * loss, factor, 1.5);
  }

  lemma NearStop(drawdown: real, distance: real)
    requires distance > 0.0
    ensures drawdown / distance * 100.0 > 70.0 <==> distance * 7.0 < drawdown * 10.0
    ensures drawdown / distance * 100.0 * 0.6 * distance == 60.0 * drawdown
  {
    var share := drawdown / distance;
    assert share * distance == drawdown;
    if share * 100.0 > 70.0 { assert (share - 0.7) * distance > 0.0; } else { ScaleUp(distance, share, 0.7); }
  }

  lemma TrailingWarning(pnl: real, drawdown: real, hours: real, distance: real, hold: real, score: real)
    requires pnl > 0.0 ==> TrailIs(pnl, distance, hold) && !(hours >= hold && drawdown >= distance)
    requires TrailingIs(pnl, drawdown, hours, distance, hold, score)
    ensures TrailingScore(pnl, drawdown, hours) == score
  {
    if pnl > 0.0 {
      TrailIsTier(pnl, distance, hold);
      NearStop(drawdown, distance);
      if hours >= hold && distance * 7.0 < drawdown * 10.0 {
        QuotientIs(60.0 * drawdown, distance, score);
        QuotientIs(60.0 * drawdown, distance, drawdown / distance * 100.0 * 0.6);
      }
    }
  }

  lemma FadeScore(lstm: real, history: seq<real>, pnl: real, score: real)
    requires FadeIs(lstm, history, pnl, score)
    ensures Fade(lstm, history, pnl) == score
  {
    if |history| >= 3 { MeanBelow(history[|history| - 3] + history[|history| - 2] + history[|history| - 1]); }
  }

  lemma NewsScore(news: real, pnl: real, score: real)
    requires NewsIs(news, pnl, score)
    ensures NewsPressure(news, pnl) == score
  {
  }

  lemma TimeScore(pnl: real, hours: real, score: real)
    requires TimeIs(pnl, hours, score)
    ensures TimePressure(pnl, hours) == score
  {
  }

  /** The five scores of a position, from its numbers. */
  predicate ScoresAre(p: Position, distance: real, hold: real, loss: real, trailing: real, fade: real, news: real,
                      time: real) {
    && LossIs(PnlPct(p), p.hours, loss) && TrailingIs(PnlPct(p), DrawdownPct(p), p.hours, distance, hold, trailing)
    && FadeIs(p.lstm, p.momentum, PnlPct(p), fade) && NewsIs(p.news, PnlPct(p), news)
    && TimeIs(PnlPct(p), p.hours, time)
  }

  /** No direct trigger reaches the position. */
  predicate Untriggered(p: Position, distance: real, hold: real) {
    && p.hours >= 2.0 && (PnlPct(p) > 0.0 ==> TrailIs(PnlPct(p), distance, hold))
    && !(PnlPct(p) > 0.0 && p.hours >= hold && DrawdownPct(p) >= distance)
    && !(PnlPct(p) <= -6.0 || (PnlPct(p) <= -4.0 && p.hours >= 24.0))
    && !(PnlPct(p) > 5.0 && p.lstm < -0.3 && (p.lstm * 3.0 <= -1.0 || Falls(p.momentum) || Bearish(p.momentum)))
  }

  lemma UntriggeredIsWeighed(p: Position, distance: real, hold: real)
    requires Untriggered(p, distance, hold)
    ensures Decide(p).reason == Weighted || Decide(p).reason == Hold
  {
    LossCutIff(p);
    if PnlPct(p) > 0.0 { StoppedOutIff(p, distance, hold); } else { LosersAreNotStoppedOut(p); }
    if PnlPct(p) > 5.0 { MomentumFadeIff(p); } else { NoTriggerUpToFive(p); }
  }

  /** What the weights add up to, in hundredths. */
  function WeightedSum(losing: bool, loss: real, trailing: real, fade: real, news: real, time: real): real {
    if losing then 45.0 * loss + 5.0 * trailing + 20.0 * fade + 15.0 * news + 15.0 * time
    else 40.0 * trailing + 35.0 * fade + 15.0 * news + 10.0 * time
  }

  /**
   A position that no direct trigger reaches is sold exactly when the weighted sum of its five scores, all taken
   from its numbers, reaches 70.
   */
  lemma WeighedDecision(p: Position, distance: real, hold: real, loss: real, trailing: real, fade: real, news: real,
                        time: real)
    requires Untriggered(p, distance, hold) && ScoresAre(p, distance, hold, loss, trailing, fade, news, time)
    ensures var sum := WeightedSum(PnlPct(p) < 0.0, loss, trailing, fade, news, time); var a := Decide(p);
      && a.total * 100.0 == sum && (a.sell <==> sum >= 7000.0)
      && a.loss == loss && a.trailing == trailing && a.fade == fade && a.news == news && a.time == time
      && a.confidence * 10000.0 == if a.sell then Min(10000.0, sum) else 0.0
  {
    UntriggeredIsWeighed(p, distance, hold);
    LossScore(PnlPct(p), p.hours, loss);
    TrailingWarning(PnlPct(p), DrawdownPct(p), p.hours, distance, hold, trailing);
    FadeScore(p.lstm, p.momentum, PnlPct(p), fade);
    NewsScore(p.news, PnlPct(p), news);
    TimeScore(PnlPct(p), p.hours, time);
    WeighedTotal(p);
  }

  lemma WeighedTotal(p: Position)
    requires Decide(p).reason == Weighted || Decide(p).reason == Hold
    ensures var a := Decide(p); var s := Scored(p);
      && a.total * 100.0 == WeightedSum(PnlPct(p) < 0.0, s.loss, s.trailing, s.fade, s.news, s.time)
      && (a.sell <==> a.total >= 70.0) && a.confidence == (if a.sell then Min(1.0, a.total / 100.0) else 0.0)
      && a.loss == s.loss && a.trailing == s.trailing && a.fade == s.fade && a.news == s.news && a.time == s.time
  {
  }

  /**
   The total of a position that a trigger sold: of a stop 85 and 15 more for each percent beyond the distance, of a
   loss cut the pressure of the loss, of fading momentum its score, each at most 100.
   */
  lemma TriggeredTotal(p: Position, distance: real, hold: real, loss: real, fade: real)
    requires p.hours >= 2.0 && (PnlPct(p) > 0.0 ==> TrailIs(PnlPct(p), distance, hold))
    requires LossIs(PnlPct(p), p.hours, loss) && FadeIs(p.lstm, p.momentum, PnlPct(p), fade)
    ensures var a := Decide(p);
      && (a.reason == TrailingStop ==>
            a.sell && a.confidence == 1.0 && a.total == Min(100.0, 85.0 + (DrawdownPct(p) - distance) * 15.0))
      && (a.reason == LossCut ==> a.sell && a.total == loss)
      && (a.reason == MomentumFade ==> a.sell && a.total == fade)
  {
    LossScore(PnlPct(p), p.hours, loss);
    FadeScore(p.lstm, p.momentum, PnlPct(p), fade);
    if PnlPct(p) > 0.0 {
      TrailIsTier(PnlPct(p), distance, hold);
      StoppedOutIff(p, distance, hold);
    } else {
      LosersAreNotStoppedOut(p);
    }
  }

  /** In the first two hours only a result of -8 percent or worse is sold, and no score is taken. */
  lemma FirstTwoHours(p: Position)
    requires p.hours < 2.0
    ensures Decide(p).sell <==> PnlPct(p) <= -8.0
    ensures Decide(p).total == if Decide(p).sell then 100.0 else 0.0
  {
  }

  /** The result and the drawdown in percent, without the divisions. */
  lemma PercentagesAre(p: Position)
    ensures p.entry > 0.0 ==> PnlPct(p) * p.entry == 100.0 * (p.current - p.entry)
    ensures p.entry <= 0.0 ==> PnlPct(p) == 0.0
    ensures p.high > 0.0 ==> DrawdownPct(p) * p.high == 100.0 * (p.high - p.current)
    ensures p.high <= 0.0 ==> DrawdownPct(p) == 0.0
  {
    if p.entry > 0.0 { Hundredfold(p.current - p.entry, p.entry); }
    if p.high > 0.0 { Hundredfold(p.high - p.current, p.high); }
  }

  lemma Hundredfold(part: real, whole: real)
    requires whole > 0.0
    ensures part / whole * 100.0 * whole == 100.0 * part
  {
    var share := part / whole;
    assert share * whole == part;
    assert share * 100.0 * whole == 100.0 * (share * whole);
  }
}
