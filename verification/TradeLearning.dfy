/** Running per-symbol trade statistics, the confidence adjustment, forgiveness and self-tuning. */
module TradeLearning {
  import opened Prelude

  type Symbol = string

  /** Times are in hours. */
  datatype Open = Open(entryTime: real, entryPrice: real, qty: real)

  datatype Trade = Trade(symbol: Symbol, exitTime: real, pnl: real, pnlPct: real, hours: real)

  datatype Intel = Intel(total: nat, wins: nat, losses: nat, totalPnl: real, avgWin: real, avgLoss: real, avgHold: real,
                         churn: nat, quickLosses: nat, best: real, worst: real, adjustment: real)

  const NEW_INTEL := Intel(0, 0, 0, 0.0, 0.0, 0.0, 0.0, 0, 0, 0.0, 0.0, 0.0)

  // ----- the running statistics

  function RunningAverage(avg: real, count: nat, x: real): real
    requires count > 0
  {
    (avg * (count - 1) as real + x) / count as real
  }

  /** The statistics after one more trade; the adjustment is set separately. */
  function AddTrade(i: Intel, t: Trade): Intel {
    var w := if t.pnl > 0.0 then i.(wins := i.wins + 1, avgWin := RunningAverage(i.avgWin, i.wins + 1, t.pnl))
             else i.(losses := i.losses + 1, avgLoss := RunningAverage(i.avgLoss, i.losses + 1, t.pnl));
    w.(total := i.total + 1, totalPnl := i.totalPnl + t.pnl,
       avgHold := RunningAverage(i.avgHold, i.total + 1, t.hours),
       best := Max(i.best, t.pnl), worst := Min(i.worst, t.pnl),
       churn := i.churn + (if t.hours < 1.0 then 1 else 0),
       quickLosses := i.quickLosses + (if t.hours < 2.0 && t.pnl < 0.0 then 1 else 0))
  }

  function OfSymbol(trades: seq<Trade>, sym: Symbol): seq<Trade> {
    if trades == [] then []
    else
      OfSymbol(trades[..|trades| - 1], sym)
      + if trades[|trades| - 1].symbol == sym then [trades[|trades| - 1]] else []
  }

  /** What is counted and what is summed. */
  datatype Kind = Win | Loss | Churn | QuickLoss
  datatype Quantity = Pnl | WinPnl | LossPnl | Hours

  predicate Is(k: Kind, t: Trade) {
    match k
    case Win => t.pnl > 0.0
    case Loss => t.pnl <= 0.0
    case Churn => t.hours < 1.0
    case QuickLoss => t.hours < 2.0 && t.pnl < 0.0
  }

  function Amount(q: Quantity, t: Trade): real {
    match q
    case Pnl => t.pnl
    case WinPnl => if t.pnl > 0.0 then t.pnl else 0.0
    case LossPnl => if t.pnl > 0.0 then 0.0 else t.pnl
    case Hours => t.hours
  }

  function Count(trades: seq<Trade>, k: Kind): nat {
    if trades == [] then 0 else Count(trades[..|trades| - 1], k) + if Is(k, trades[|trades| - 1]) then 1 else 0
  }

  function Sum(trades: seq<Trade>, q: Quantity): real {
    if trades == [] then 0.0 else Sum(trades[..|trades| - 1], q) + Amount(q, trades[|trades| - 1])
  }

  ghost predicate CountsRight(i: Intel, trades: seq<Trade>) {
    && i.total == |trades| == i.wins + i.losses
    && i.wins == Count(trades, Win) && i.losses == Count(trades, Loss)
    && i.churn == Count(trades, Churn) && i.quickLosses == Count(trades, QuickLoss)
  }

  function Times(count: nat, average: real): real { count as real * average }

  ghost predicate SumsRight(i: Intel, trades: seq<Trade>) {
    && Times(i.wins, i.avgWin) == Sum(trades, WinPnl)
    && Times(i.losses, i.avgLoss) == Sum(trades, LossPnl)
    && Times(i.total, i.avgHold) == Sum(trades, Hours)
    && i.totalPnl == Sum(trades, Pnl) == Sum(trades, WinPnl) + Sum(trades, LossPnl)
  }

  ghost predicate ExtremesRight(i: Intel, trades: seq<Trade>) {
    && i.worst <= 0.0 <= i.best && (forall k :: 0 <= k < |trades| ==> i.worst <= trades[k].pnl <= i.best)
    && (i.best == 0.0 || exists k :: 0 <= k < |trades| && trades[k].pnl == i.best)
    && (i.worst == 0.0 || exists k :: 0 <= k < |trades| && trades[k].pnl == i.worst)
  }

  /**
   The running statistics describe a list of trades exactly: wins and losses add up to the total, count
   times average is the sum for wins, for losses and for the hours held, and both sums add up to the P&L.
   */
  ghost predicate Describes(i: Intel, trades: seq<Trade>) {
    CountsRight(i, trades) && SumsRight(i, trades) && ExtremesRight(i, trades)
  }

  lemma NothingDescribed(trades: seq<Trade>)
    requires trades == []
    ensures Describes(NEW_INTEL, trades)
  {
    assert Times(0, 0.0) == 0.0;
  }

  lemma AverageTimesCount(avg: real, count: nat, x: real)
    requires count > 0
    ensures Times(count, RunningAverage(avg, count, x)) == Times(count - 1, avg) + x
  {
    var s := avg * (count - 1) as real + x;
    assert count as real * (s / count as real) == s;
  }

  lemma OneMore(trades: seq<Trade>, t: Trade)
    ensures forall k :: Count(trades + [t], k) == Count(trades, k) + if Is(k, t) then 1 else 0
    ensures forall q :: Sum(trades + [t], q) == Sum(trades, q) + Amount(q, t)
  {
    assert (trades + [t])[..|trades + [t]| - 1] == trades;
  }

  lemma SumsStayRight(i: Intel, trades: seq<Trade>, t: Trade)
    requires SumsRight(i, trades)
    ensures SumsRight(AddTrade(i, t), trades + [t])
  {
    OneMore(trades, t);
    AverageTimesCount(i.avgHold, i.total + 1, t.hours);
    if t.pnl > 0.0 { AverageTimesCount(i.avgWin, i.wins + 1, t.pnl); }
    else { AverageTimesCount(i.avgLoss, i.losses + 1, t.pnl); }
  }

  lemma ExtremesStayRight(i: Intel, trades: seq<Trade>, t: Trade)
    requires ExtremesRight(i, trades)
    ensures ExtremesRight(AddTrade(i, t), trades + [t])
  {
    var j, all := AddTrade(i, t), trades + [t];
    assert all[|trades|] == t;
    if i.best != 0.0 {
      var k :| 0 <= k < |trades| && trades[k].pnl == i.best;
      assert all[k].pnl == i.best;
    }
    if i.worst != 0.0 {
      var k :| 0 <= k < |trades| && trades[k].pnl == i.worst;
      assert all[k].pnl == i.worst;
    }
  }

  lemma AddTradeDescribes(i: Intel, trades: seq<Trade>, t: Trade)
    requires Describes(i, trades)
    ensures Describes(AddTrade(i, t), trades + [t])
  {
    OneMore(trades, t);
    SumsStayRight(i, trades, t);
    ExtremesStayRight(i, trades, t);
  }

  // ----- the confidence adjustment

  function LastOf(trades: seq<Trade>, n: nat): seq<Trade> { if n < |trades| then trades[|trades| - n..] else trades }

  /** A trade of `age` hours ago; the code fails only for a clock that has jumped back by exactly a day. */
  function DecayWeight(age: real): real {
    if age <= -24.0 then 0.2 else Max(0.2, 1.0 / (1.0 + age / 24.0))
  }

  /** The decayed weight of the trades of a kind. */
  function Weight(trades: seq<Trade>, now: real, k: Kind): real {
    if trades == [] then 0.0
    else Weight(trades[..|trades| - 1], now, k)
         + if Is(k, trades[|trades| - 1]) then DecayWeight(now - trades[|trades| - 1].exitTime) else 0.0
  }

  function TotalWeight(trades: seq<Trade>, now: real): real {
    if trades == [] then 0.0
    else TotalWeight(trades[..|trades| - 1], now) + DecayWeight(now - trades[|trades| - 1].exitTime)
  }

  function Rate(part: real, total: real): real { part / Max(0.1, total) }

  /** The adjustment before the clamp, from the previous one, the last result and the two rates. */
  function RawAdjustment(previous: real, lastWon: bool, winRate: real, churnRate: real): real {
    if lastWon then previous * 0.5
    else
      (if winRate > 0.6 then -0.1 else if winRate < 0.25 then 0.2 else if winRate < 0.4 then 0.1 else 0.0)
      + (if churnRate > 0.6 then 0.15 else if churnRate > 0.4 then 0.05 else 0.0)
  }

  function Clamp(x: real): real { Min(0.35, Max(-0.25, x)) }

  /** The new adjustment of a symbol from its trades among the last 30. */
  function Adjusted(previous: real, recent: seq<Trade>, now: real): real {
    if |recent| < 2 then 0.0
    else
      var total := TotalWeight(recent, now);
      Clamp(RawAdjustment(previous, recent[|recent| - 1].pnl > 0.0,
                          Rate(Weight(recent, now, Win), total), Rate(Weight(recent, now, Churn), total)))
  }

  /** The range that adjustments really stay in; the floor of the clamp is never reached. */
  predicate InRange(adjustment: real) { -0.1 <= adjustment <= 0.35 }

  lemma AdjustedInRange(previous: real, recent: seq<Trade>, now: real)
    requires InRange(previous)
    ensures InRange(Adjusted(previous, recent, now))
    ensures |recent| >= 2 && recent[|recent| - 1].pnl > 0.0 ==> Adjusted(previous, recent, now) == previous * 0.5
  {
  }

  /** The lowest adjustment: a loss that follows mostly wins, without much churn. */
  lemma LowestAdjustedIff(previous: real, recent: seq<Trade>, now: real)
    requires InRange(previous) && recent != []
    ensures var total := TotalWeight(recent, now);
      (Adjusted(previous, recent, now) == -0.1
       <==> |recent| >= 2 && recent[|recent| - 1].pnl <= 0.0
            && Rate(Weight(recent, now, Win), total) > 0.6 && Rate(Weight(recent, now, Churn), total) <= 0.4)
  {
  }

  /** The weights of three trades. */
  lemma ThreeWeights(ts: seq<Trade>, now: real, k: Kind)
    requires |ts| == 3
    ensures var w0, w1 := DecayWeight(now - ts[0].exitTime), DecayWeight(now - ts[1].exitTime);
      var w2 := DecayWeight(now - ts[2].exitTime);
      && TotalWeight(ts, now) == w0 + w1 + w2
      && Weight(ts, now, k) == (if Is(k, ts[0]) then w0 else 0.0) + (if Is(k, ts[1]) then w1 else 0.0)
                               + (if Is(k, ts[2]) then w2 else 0.0)
  {
    var one, two := ts[..1], ts[..2];
    assert two[..1] == one && one[..0] == [];
    assert Weight(one, now, k) == if Is(k, ts[0]) then DecayWeight(now - ts[0].exitTime) else 0.0;
    assert TotalWeight(two, now) == TotalWeight(one, now) + DecayWeight(now - ts[1].exitTime);
  }

  ghost predicate AllAre(trades: seq<Trade>, k: Kind) { forall i :: 0 <= i < |trades| ==> Is(k, trades[i]) }

  ghost predicate NoneIs(trades: seq<Trade>, k: Kind) { forall i :: 0 <= i < |trades| ==> !Is(k, trades[i]) }

  /** No trade weighs less than 0.2, and a kind weighs at most as much as all trades together. */
  lemma {:induction false} WeightBounds(trades: seq<Trade>, now: real, k: Kind)
    ensures 0.0 <= Weight(trades, now, k) <= TotalWeight(trades, now)
    ensures TotalWeight(trades, now) >= 0.2 * |trades| as real
    ensures NoneIs(trades, k) ==> Weight(trades, now, k) == 0.0
    ensures AllAre(trades, k) ==> Weight(trades, now, k) == TotalWeight(trades, now)
  {
    if trades != [] {
      var before, t := trades[..|trades| - 1], trades[|trades| - 1];
      WeightBounds(before, now, k);
      assert DecayWeight(now - t.exitTime) >= 0.2;
      assert Is(k, t) == Is(k, trades[|trades| - 1]);
      assert forall i :: 0 <= i < |before| ==> before[i] == trades[i];
    }
  }

  lemma RateIs(part: real, total: real)
    requires total >= 0.4 && (part == 0.0 || part == total)
    ensures Rate(part, total) == if part == 0.0 then 0.0 else 1.0
  {
    QuotientIs(part, Max(0.1, total), if part == 0.0 then 0.0 else 1.0);
  }

  /**
   Whatever the weights, a streak of at least two recent losses raises the bar by at least 0.2: by exactly
   that when none was held for less than an hour, and by the full 0.35 when all were.
   */
  lemma LosingStreak(previous: real, recent: seq<Trade>, now: real)
    requires |recent| >= 2 && AllAre(recent, Loss)
    ensures 0.2 <= Adjusted(previous, recent, now) <= 0.35
    ensures NoneIs(recent, Churn) ==> Adjusted(previous, recent, now) == 0.2
    ensures AllAre(recent, Churn) ==> Adjusted(previous, recent, now) == 0.35
  {
    var total := TotalWeight(recent, now);
    WeightBounds(recent, now, Win);
    WeightBounds(recent, now, Churn);
    assert NoneIs(recent, Win) by {
      forall i | 0 <= i < |recent| ensures !Is(Win, recent[i]) { assert Is(Loss, recent[i]); }
    }
    RateIs(Weight(recent, now, Win), total);
    assert Is(Loss, recent[|recent| - 1]);
    if NoneIs(recent, Churn) || AllAre(recent, Churn) { RateIs(Weight(recent, now, Churn), total); }
  }

  /** A trade of the moment weighs 1, one a day ago a half; the weight falls to a fifth after four days and stays. */
  lemma DecayIs(age: real)
    ensures -24.0 < age <= 96.0 ==> DecayWeight(age) * (24.0 + age) == 24.0
    ensures age >= 96.0 || age <= -24.0 ==> DecayWeight(age) == 0.2
  {
    if age > -24.0 {
      var days := 1.0 + age / 24.0;
      var w := 1.0 / days;
      assert days * 24.0 == 24.0 + age && days > 0.0;
      assert w * days == 1.0;
      assert w * (days * 24.0) == 24.0;
      if age <= 96.0 { FifthOrMore(days, w); } else { FifthOrLess(days, w); }
    }
  }

  lemma FifthOrMore(days: real, w: real)
    requires 0.0 < days <= 5.0 && w * days == 1.0
    ensures w >= 0.2
  {
    if w < 0.2 {
      if w <= 0.0 { ScaleUp(days, w, 0.0); } else { ScaleUp(w, days, 5.0); }
    }
  }

  lemma FifthOrLess(days: real, w: real)
    requires days >= 5.0 && w * days == 1.0
    ensures w <= 0.2
  {
    if w > 0.2 { ScaleUp(w, 5.0, days); }
  }

  /** The change for a win rate and for a churn rate, both as parts of a total weight. */
  function WinStep(wins: real, total: real): real {
    if 5.0 * wins > 3.0 * total then -0.1
    else if 4.0 * wins < total then 0.2
    else if 5.0 * wins < 2.0 * total then 0.1
    else 0.0
  }

  function ChurnStep(churn: real, total: real): real {
    if 5.0 * churn > 3.0 * total then 0.15 else if 5.0 * churn > 2.0 * total then 0.05 else 0.0
  }

  lemma RateSteps(part: real, total: real)
    requires total >= 0.4
    ensures var r := Rate(part, total);
      && (r > 0.6 <==> 5.0 * part > 3.0 * total) && (r < 0.25 <==> 4.0 * part < total)
      && (r < 0.4 <==> 5.0 * part < 2.0 * total) && (r > 0.4 <==> 5.0 * part > 2.0 * total)
  {
    ShareAgainst(part, total, 0.6);
    ShareAgainst(part, total, 0.25);
    ShareAgainst(part, total, 0.4);
  }

  /**
   The adjustment after an exit: nothing before the second recent trade, half the previous one after a win, and after
   a loss what the weighted shares of wins and of churn among the recent trades say; the clamp never binds.
   */
  lemma AdjustedIs(previous: real, recent: seq<Trade>, now: real)
    requires InRange(previous)
    ensures var total := TotalWeight(recent, now);
      Adjusted(previous, recent, now)
      == if |recent| < 2 then 0.0
         else if recent[|recent| - 1].pnl > 0.0 then previous * 0.5
         else WinStep(Weight(recent, now, Win), total) + ChurnStep(Weight(recent, now, Churn), total)
  {
    if |recent| >= 2 {
      WeightBounds(recent, now, Win);
      RateSteps(Weight(recent, now, Win), TotalWeight(recent, now));
      RateSteps(Weight(recent, now, Churn), TotalWeight(recent, now));
    }
  }

  // ----- forgiveness

  function Forgive(a: real): real {
    if a > 0.0 then (if a * 0.8 < 0.05 then 0.0 else a * 0.8) else a
  }

  function ForgiveTimes(a: real, n: nat): real {
    if n == 0 then a else Forgive(ForgiveTimes(a, n - 1))
  }

  /** A bound on the penalty after `n` rounds, whatever it was. */
  lemma {:induction false} PenaltyShrinks(a: real, n: nat)
    requires 0.0 <= a <= 0.35
    ensures 0.0 <= ForgiveTimes(a, n) <= 0.35 * Power(n)
    ensures ForgiveTimes(a, n) == 0.0 || ForgiveTimes(a, n) >= 0.05 || n == 0
  {
    if n > 0 { PenaltyShrinks(a, n - 1); }
  }

  /** A penalty after `n` cuts by a fifth. */
  function Shrunk(a: real, n: nat): real { if n == 0 then a else Shrunk(a, n - 1) * 0.8 }

  /** After one round or more a penalty is exactly the shrunk one, or gone as soon as that is below 0.05. */
  lemma {:induction false} PenaltyIs(a: real, n: nat)
    requires a > 0.0 && n > 0
    ensures 0.0 < Shrunk(a, n) && ForgiveTimes(a, n) == if Shrunk(a, n) < 0.05 then 0.0 else Shrunk(a, n)
  {
    if n == 1 {
      assert ForgiveTimes(a, 1) == Forgive(ForgiveTimes(a, 0)) && Shrunk(a, 1) == Shrunk(a, 0) * 0.8;
    } else {
      PenaltyIs(a, n - 1);
    }
  }

  /** 0.8 to the power of `n`. */
  function Power(n: nat): real { if n == 0 then 1.0 else Power(n - 1) * 0.8 }

  /** Nine rounds bring any penalty to exactly 0, and leave a bonus alone. */
  lemma NineRoundsForgive(a: real)
    requires InRange(a)
    ensures ForgiveTimes(a, 9) == if a > 0.0 then 0.0 else a
  {
    if a > 0.0 {
      PenaltyShrinks(a, 9);
      assert Power(3) == 0.512 && Power(6) == Power(3) * 0.512 && Power(9) == Power(6) * 0.512;
    } else {
      BonusStays(a, 9);
    }
  }

  lemma {:induction false} BonusStays(a: real, n: nat)
    requires a <= 0.0
    ensures ForgiveTimes(a, n) == a
  {
    if n > 0 { BonusStays(a, n - 1); }
  }

  /** Eight rounds do not: the largest penalty still has something left. */
  lemma EightRoundsDoNot()
    ensures ForgiveTimes(0.35, 8) > 0.05
  {
    assert ForgiveTimes(0.35, 4) == 0.14336;
    assert ForgiveTimes(0.35, 8) == 0.14336 * 0.4096;
  }

  // ----- self-tuning

  datatype Tuning = Tuning(holdHours: real, bypass: int)

  function Tuned(u: Tuning, completed: seq<Trade>): Tuning {
    if |completed| < 10 then u
    else
      var recent := LastOf(completed, 50);
      var total := |recent| as real;
      var losing := CountNegative(recent, false);
      var churnLosses := CountNegative(recent, true);
      var pnl := Sum(recent, Pnl);
      var churnRate := Count(recent, Churn) as real / total;
      var u1 := if churnRate > 0.5 && pnl < 0.0 then u.(holdHours := Min(u.holdHours + 0.5, 8.0)) else u;
      var u2 := if churnLosses > 0 && pnl < 0.0
                   && churnLosses as real / (if losing < 1 then 1 else losing) as real > 0.5
                then u1.(bypass := if u1.bypass + 1 < 12 then u1.bypass + 1 else 12) else u1;
      if pnl > 500.0 && churnRate < 0.2 && losing as real / total < 0.4
      then Tuning(Max(u2.holdHours - 0.25, 4.0), if u2.bypass - 1 > 8 then u2.bypass - 1 else 8) else u2
  }

  /** Losing trades, or only the losing trades held for less than an hour. */
  function CountNegative(trades: seq<Trade>, churnOnly: bool): nat {
    if trades == [] then 0
    else
      var t := trades[|trades| - 1];
      CountNegative(trades[..|trades| - 1], churnOnly) + if t.pnl < 0.0 && (churnOnly ==> t.hours < 1.0) then 1 else 0
  }

  /** The places of the losing trades, or of those held for less than an hour only. */
  function LosingPlaces(trades: seq<Trade>, churnOnly: bool): set<nat> {
    set i: nat | i < |trades| && trades[i].pnl < 0.0 && (churnOnly ==> trades[i].hours < 1.0)
  }

  /** The counts are the numbers of such places. */
  lemma {:induction false} LosingCount(trades: seq<Trade>, churnOnly: bool)
    ensures CountNegative(trades, churnOnly) == |LosingPlaces(trades, churnOnly)|
  {
    if trades != [] {
      var m := |trades| - 1;
      var before := LosingPlaces(trades[..m], churnOnly);
      LosingCount(trades[..m], churnOnly);
      if trades[m].pnl < 0.0 && (churnOnly ==> trades[m].hours < 1.0) {
        assert LosingPlaces(trades, churnOnly) == before + {m};
      } else {
        assert LosingPlaces(trades, churnOnly) == before;
      }
    }
  }

  /** The places of the trades held for less than an hour, and of those that won. */
  function ShortPlaces(trades: seq<Trade>): set<nat> { set i: nat | i < |trades| && trades[i].hours < 1.0 }

  function WonPlaces(trades: seq<Trade>): set<nat> { set i: nat | i < |trades| && trades[i].pnl > 0.0 }

  lemma {:induction false} ChurnCount(trades: seq<Trade>)
    ensures Count(trades, Churn) == |ShortPlaces(trades)|
  {
    if trades != [] {
      var m := |trades| - 1;
      ChurnCount(trades[..m]);
      if trades[m].hours < 1.0 { assert ShortPlaces(trades) == ShortPlaces(trades[..m]) + {m}; }
      else { assert ShortPlaces(trades) == ShortPlaces(trades[..m]); }
    }
  }

  lemma {:induction false} WinCount(trades: seq<Trade>)
    ensures Count(trades, Win) == |WonPlaces(trades)|
  {
    if trades != [] {
      var m := |trades| - 1;
      WinCount(trades[..m]);
      if trades[m].pnl > 0.0 { assert WonPlaces(trades) == WonPlaces(trades[..m]) + {m}; }
      else { assert WonPlaces(trades) == WonPlaces(trades[..m]); }
    }
  }

  predicate TuningInRange(u: Tuning) { 4.0 <= u.holdHours <= 8.0 && 8 <= u.bypass <= 12 }

  lemma TunedInRange(u: Tuning, completed: seq<Trade>)
    requires TuningInRange(u)
    ensures TuningInRange(Tuned(u, completed))
  {
  }

  /** When and how the parameters move, from the counts and the sum over the last 50 trades. */
  lemma TunedMoves(u: Tuning, completed: seq<Trade>)
    requires TuningInRange(u) && |completed| >= 10
    ensures var r := LastOf(completed, 50); var v := Tuned(u, completed); var pnl := Sum(r, Pnl);
      var relaxes := pnl > 500.0 && 5 * Count(r, Churn) < |r| && 5 * CountNegative(r, false) < 2 * |r|;
      && (v.holdHours > u.holdHours <==> u.holdHours < 8.0 && pnl < 0.0 && 2 * Count(r, Churn) > |r|)
      && (v.bypass > u.bypass <==> u.bypass < 12 && pnl < 0.0 && 2 * CountNegative(r, true) > CountNegative(r, false))
      && (v.holdHours < u.holdHours <==> u.holdHours > 4.0 && relaxes)
      && (v.bypass < u.bypass <==> u.bypass > 8 && relaxes)
      && (v.holdHours > u.holdHours ==> v.holdHours == Min(u.holdHours + 0.5, 8.0))
      && (v.holdHours < u.holdHours ==> v.holdHours == Max(u.holdHours - 0.25, 4.0))
      && (v.bypass > u.bypass ==> v.bypass == u.bypass + 1) && (v.bypass < u.bypass ==> v.bypass == u.bypass - 1)
  {
    var r := LastOf(completed, 50);
    ShareTest(Count(r, Churn), |r|);
    ShareTest(CountNegative(r, false), |r|);
    ShareTest(CountNegative(r, true), if CountNegative(r, false) < 1 then 1 else CountNegative(r, false));
  }

  /** The share tests of the source, without the division. */
  lemma ShareTest(part: nat, whole: nat)
    requires whole > 0
    ensures var share := part as real / whole as real;
      && (share > 0.5 <==> 2 * part > whole)
      && (share < 0.2 <==> 5 * part < whole)
      && (share < 0.4 <==> 5 * part < 2 * whole)
  {
    ShareAgainst(part as real, whole as real, 0.5);
    ShareAgainst(part as real, whole as real, 0.2);
    ShareAgainst(part as real, whole as real, 0.4);
  }

  lemma ShareAgainst(part: real, whole: real, f: real)
    requires whole > 0.0
    ensures (part / whole > f <==> part > f * whole) && (part / whole < f <==> part < f * whole)
  {
    var d := part / whole - f;
    assert d * whole == part - f * whole;
  }
}
