/** The trade intelligence object, whose methods update the book of the TradeBook module in place. */
module TradeRecorder {
  import opened Prelude
  import opened TradeLearning
  import B = TradeBook

  datatype ExitResult = NoOpenPosition | DivisionByZero | Completed(trade: Trade)

  class TradeIntelligence {
    var openPositions: map<Symbol, Open>
    var completedTrades: seq<Trade>
    // the keys of symbolIntelligence in the order in which they were first seen
    var known: seq<Symbol>
    var symbolIntelligence: map<Symbol, Intel>
    var sessionTrades: nat
    var sessionPnl: real
    var sessionChurnAlerts: nat
    var minHoldHours: real
    var sellBypass: int
    var lastTuningCheck: real
    var lastForgivenessCheck: Option<real>

    ghost function View(): B.Book
      reads this
    {
      B.Book(openPositions, completedTrades, known, symbolIntelligence, sessionTrades, sessionPnl, sessionChurnAlerts,
             Tuning(minHoldHours, sellBypass), lastTuningCheck, lastForgivenessCheck)
    }

    ghost predicate Valid()
      reads this
    {
      B.KnownRight(known, symbolIntelligence)
    }

    constructor (now: real)
      ensures Valid() && View() == B.NewBook(now)
    {
      openPositions, completedTrades, known, symbolIntelligence := map[], [], [], map[];
      sessionTrades, sessionPnl, sessionChurnAlerts := 0, 0.0, 0;
      minHoldHours, sellBypass := 4.0, 8;
      lastTuningCheck, lastForgivenessCheck := now, None;
    }

    method RecordEntry(sym: Symbol, price: real, qty: real, now: real)
      requires Valid()
      modifies this`openPositions
      ensures Valid() && View() == B.RecordEntry(old(View()), sym, price, qty, now)
    {
      openPositions := openPositions[sym := Open(now, price, qty)];
    }

    method RecordExit(sym: Symbol, price: real, now: real) returns (r: ExitResult)
      requires Valid()
      modifies this
      ensures Valid() && View() == B.RecordExit(old(View()), sym, price, now)
      ensures r.NoOpenPosition? <==> sym !in old(openPositions)
      ensures r.Completed? <==> B.Records(old(View()), sym)
      ensures r.Completed? ==> completedTrades == old(completedTrades) + [r.trade]
    {
      if sym !in openPositions { return NoOpenPosition; }
      var o := openPositions[sym];
      openPositions := openPositions - {sym};
      if o.entryPrice == 0.0 { return DivisionByZero; }
      var trade := B.TradeOf(o, sym, price, now);
      Remember(trade, now);
      DetectPatterns(trade, now);
      return Completed(trade);
    }

    method Remember(trade: Trade, now: real)
      requires Valid()
      modifies this`completedTrades, this`sessionTrades, this`sessionPnl, this`known, this`symbolIntelligence
      ensures Valid() && View() == B.Learn(old(View()), trade, now)
    {
      completedTrades := completedTrades + [trade];
      sessionTrades := sessionTrades + 1;
      sessionPnl := sessionPnl + trade.pnl;
      UpdateSymbolIntelligence(trade, now);
    }

    /** The statistics of the symbol take in a trade that is already in the history. */
    method UpdateSymbolIntelligence(t: Trade, now: real)
      requires Valid()
      modifies this`known, this`symbolIntelligence
      ensures Valid()
      ensures View() == B.Updated(old(View()), t, now)
    {
      if t.symbol !in symbolIntelligence {
        known := known + [t.symbol];
        symbolIntelligence := symbolIntelligence[t.symbol := NEW_INTEL];
      }
      var i := Tally(symbolIntelligence[t.symbol], t);
      var adjustment := CalculateConfidenceAdjustment(t.symbol, i.adjustment, now);
      symbolIntelligence := symbolIntelligence[t.symbol := i.(adjustment := adjustment)];
    }

    /** The counters and averages of the symbol's record, field by field. */
    static method Tally(before: Intel, t: Trade) returns (i: Intel)
      ensures i == AddTrade(before, t)
    {
      i := before;
      i := i.(total := i.total + 1, totalPnl := i.totalPnl + t.pnl);
      if t.pnl > 0.0 {
        i := i.(wins := i.wins + 1);
        i := i.(avgWin := RunningAverage(i.avgWin, i.wins, t.pnl));
      } else {
        i := i.(losses := i.losses + 1);
        i := i.(avgLoss := RunningAverage(i.avgLoss, i.losses, t.pnl));
      }
      i := i.(avgHold := RunningAverage(i.avgHold, i.total, t.hours));
      i := i.(best := Max(i.best, t.pnl), worst := Min(i.worst, t.pnl));
      if t.hours < 1.0 { i := i.(churn := i.churn + 1); }
      if t.hours < 2.0 && t.pnl < 0.0 { i := i.(quickLosses := i.quickLosses + 1); }
    }

    method CalculateConfidenceAdjustment(sym: Symbol, previous: real, now: real) returns (a: real)
      ensures a == Adjusted(previous, OfSymbol(LastOf(completedTrades, 30), sym), now)
    {
      var recent := OfSymbol(LastOf(completedTrades, 30), sym);
      if |recent| < 2 { return 0.0; }
      var wins, total, churn := 0.0, 0.0, 0.0;
      for k := 0 to |recent|
        invariant total == TotalWeight(recent[..k], now)
        invariant wins == Weight(recent[..k], now, Win) && churn == Weight(recent[..k], now, Churn)
      {
        var w := DecayWeight(now - recent[k].exitTime);
        assert recent[..k + 1][..k] == recent[..k];
        total := total + w;
        if recent[k].pnl > 0.0 { wins := wins + w; }
        if recent[k].hours < 1.0 { churn := churn + w; }
      }
      assert recent[..|recent|] == recent;
      var winRate, churnRate := Rate(wins, total), Rate(churn, total);
      a := 0.0;
      if recent[|recent| - 1].pnl > 0.0 {
        a := previous * 0.5;
      } else {
        if winRate > 0.6 { a := a - 0.1; }
        else if winRate < 0.25 { a := a + 0.2; }
        else if winRate < 0.4 { a := a + 0.1; }
        if churnRate > 0.6 { a := a + 0.15; } else if churnRate > 0.4 { a := a + 0.05; }
      }
      a := Clamp(a);
    }

    method DetectPatterns(t: Trade, now: real)
      requires Valid()
      modifies this
      ensures Valid() && View() == B.MaybeForgive(B.MaybeTune(B.CountAlert(old(View()), t), now), now)
    {
      if t.hours < 1.0 && t.pnl < 0.0 { sessionChurnAlerts := sessionChurnAlerts + 1; }
      MaybeSelfTune(now);
      MaybeApplyForgiveness(now);
    }

    method MaybeSelfTune(now: real)
      requires Valid()
      modifies this`lastTuningCheck, this`minHoldHours, this`sellBypass
      ensures Valid() && View() == B.MaybeTune(old(View()), now)
    {
      if now - lastTuningCheck >= 4.0 {
        lastTuningCheck := now;
        SelfTuneParameters();
      }
    }

    method SelfTuneParameters()
      modifies this`minHoldHours, this`sellBypass
      ensures Tuning(minHoldHours, sellBypass) == Tuned(old(Tuning(minHoldHours, sellBypass)), completedTrades)
    {
      if |completedTrades| < 10 { return; }
      var recent := LastOf(completedTrades, 50);
      var churnRate := Count(recent, Churn) as real / |recent| as real;
      var losing, churnLosses := CountNegative(recent, false), CountNegative(recent, true);
      var lossRate := losing as real / |recent| as real;
      var pnl := Sum(recent, Pnl);
      if churnRate > 0.5 && pnl < 0.0 { minHoldHours := Min(minHoldHours + 0.5, 8.0); }
      if churnLosses > 0 && pnl < 0.0 {
        if churnLosses as real / (if losing < 1 then 1 else losing) as real > 0.5 {
          sellBypass := if sellBypass + 1 < 12 then sellBypass + 1 else 12;
        }
      }
      if pnl > 500.0 && churnRate < 0.2 && lossRate < 0.4 {
        minHoldHours := Max(minHoldHours - 0.25, 4.0);
        sellBypass := if sellBypass - 1 > 8 then sellBypass - 1 else 8;
      }
    }

    method MaybeApplyForgiveness(now: real)
      requires Valid()
      modifies this`lastForgivenessCheck, this`symbolIntelligence
      ensures Valid() && View() == B.MaybeForgive(old(View()), now)
    {
      if lastForgivenessCheck.None? { lastForgivenessCheck := Some(now); }
      if now - lastForgivenessCheck.value < 2.0 { return; }
      lastForgivenessCheck := Some(now);
      ForgiveEach();
    }

    method ForgiveEach()
      requires Valid()
      modifies this`symbolIntelligence
      ensures Valid() && symbolIntelligence == B.ForgiveAll(old(symbolIntelligence))
    {
      ghost var before := symbolIntelligence;
      for k := 0 to |known|
        invariant symbolIntelligence.Keys == before.Keys
        invariant forall j :: 0 <= j < k ==> symbolIntelligence[known[j]] == B.Forgiving(before[known[j]])
        invariant forall j :: k <= j < |known| ==> symbolIntelligence[known[j]] == before[known[j]]
      {
        ForgiveOne(known[k]);
      }
      assert symbolIntelligence == B.ForgiveAll(before);
    }

    method ForgiveOne(sym: Symbol)
      requires sym in symbolIntelligence
      modifies this`symbolIntelligence
      ensures symbolIntelligence == old(symbolIntelligence)[sym := B.Forgiving(old(symbolIntelligence)[sym])]
    {
      var i := symbolIntelligence[sym];
      if i.adjustment > 0.0 {
        var less := i.adjustment * 0.8;
        if less < 0.05 { less := 0.0; }
        i := i.(adjustment := less);
      }
      symbolIntelligence := symbolIntelligence[sym := i];
    }
  }
}
