/** The trade intelligence as a whole: entries and exits over time, and what holds after any of them. */
module TradeBook {
  import opened Prelude
  import opened TradeLearning

  /** `known` lists the keys of `intel` in the order in which they were first seen. */
  datatype Book = Book(open: map<Symbol, Open>, completed: seq<Trade>, known: seq<Symbol>, intel: map<Symbol, Intel>,
                       sessionTrades: nat, sessionPnl: real, churnAlerts: nat,
                       tuning: Tuning, lastTuning: real, lastForgiveness: Option<real>)

  function NewBook(now: real): Book {
    Book(map[], [], [], map[], 0, 0.0, 0, Tuning(4.0, 8), now, None)
  }

  datatype Event =
    | Enter(symbol: Symbol, price: real, qty: real, now: real)
    | Exit(symbol: Symbol, price: real, now: real)

  function IntelOf(intel: map<Symbol, Intel>, sym: Symbol): Intel { if sym in intel then intel[sym] else NEW_INTEL }

  /** The exit is recorded: a position is open, and its entry price is not zero (else the code raises). */
  predicate Records(b: Book, sym: Symbol) { sym in b.open && b.open[sym].entryPrice != 0.0 }

  function TradeOf(o: Open, sym: Symbol, price: real, now: real): Trade
    requires o.entryPrice != 0.0
  {
    Trade(sym, now, (price - o.entryPrice) * o.qty, (price - o.entryPrice) / o.entryPrice * 100.0, now - o.entryTime)
  }

  /** The record of the trade's symbol once the trade is in the history. */
  function Learned(i: Intel, completed: seq<Trade>, t: Trade, now: real): Intel {
    var j := AddTrade(i, t);
    j.(adjustment := Adjusted(j.adjustment, OfSymbol(LastOf(completed, 30), t.symbol), now))
  }

  function IntelWith(intel: map<Symbol, Intel>, completed: seq<Trade>, t: Trade, now: real): map<Symbol, Intel> {
    intel[t.symbol := Learned(IntelOf(intel, t.symbol), completed, t, now)]
  }

  function KnownWith(known: seq<Symbol>, intel: map<Symbol, Intel>, sym: Symbol): seq<Symbol> {
    if sym in intel then known else known + [sym]
  }

  /** The statistics take in a trade that is already in the history. */
  function Updated(b: Book, t: Trade, now: real): Book {
    b.(known := KnownWith(b.known, b.intel, t.symbol), intel := IntelWith(b.intel, b.completed, t, now))
  }

  /** The trade enters the history and the statistics of its symbol. */
  function Learn(b: Book, t: Trade, now: real): Book {
    var completed, sessionPnl := b.completed + [t], b.sessionPnl + t.pnl;
    Updated(b.(completed := completed, sessionTrades := b.sessionTrades + 1, sessionPnl := sessionPnl), t, now)
  }

  function MaybeTune(b: Book, now: real): Book {
    if now - b.lastTuning >= 4.0 then b.(lastTuning := now, tuning := Tuned(b.tuning, b.completed)) else b
  }

  /** A forgiveness round is due: at least two hours after the last one, or after the first exit. */
  predicate ForgivesAt(b: Book, now: real) { b.lastForgiveness.Some? && now - b.lastForgiveness.value >= 2.0 }

  function Forgiving(i: Intel): Intel { i.(adjustment := Forgive(i.adjustment)) }

  function ForgiveAll(intel: map<Symbol, Intel>): map<Symbol, Intel> {
    map sym | sym in intel :: Forgiving(intel[sym])
  }

  function MaybeForgive(b: Book, now: real): Book {
    if b.lastForgiveness.None? then b.(lastForgiveness := Some(now))
    else if ForgivesAt(b, now) then b.(lastForgiveness := Some(now), intel := ForgiveAll(b.intel))
    else b
  }

  function CountAlert(b: Book, t: Trade): Book {
    if t.hours < 1.0 && t.pnl < 0.0 then b.(churnAlerts := b.churnAlerts + 1) else b
  }

  function RecordEntry(b: Book, sym: Symbol, price: real, qty: real, now: real): Book {
    b.(open := b.open[sym := Open(now, price, qty)])
  }

  function RecordExit(b: Book, sym: Symbol, price: real, now: real): Book {
    if sym !in b.open then b
    else if !Records(b, sym) then b.(open := b.open - {sym})
    else
      var t := TradeOf(b.open[sym], sym, price, now);
      MaybeForgive(MaybeTune(CountAlert(Learn(b.(open := b.open - {sym}), t, now), t), now), now)
  }

  function React(b: Book, e: Event): Book {
    match e
    case Enter(sym, price, qty, now) => RecordEntry(b, sym, price, qty, now)
    case Exit(sym, price, now) => RecordExit(b, sym, price, now)
  }

  function ReactAll(b: Book, es: seq<Event>): Book {
    if es == [] then b else React(ReactAll(b, es[..|es| - 1]), es[|es| - 1])
  }

  // ----- what holds after every event

  function TotalPnl(known: seq<Symbol>, intel: map<Symbol, Intel>): real {
    if known == [] then 0.0
    else TotalPnl(known[..|known| - 1], intel)
         + if known[|known| - 1] in intel then intel[known[|known| - 1]].totalPnl else 0.0
  }

  ghost predicate NoRepeats(xs: seq<Symbol>) { forall i, j :: 0 <= i < j < |xs| ==> xs[i] != xs[j] }

  /** The statistics of one symbol describe its trades in the history. */
  ghost predicate SymbolRight(intel: map<Symbol, Intel>, completed: seq<Trade>, sym: Symbol) {
    Describes(IntelOf(intel, sym), OfSymbol(completed, sym))
  }

  ghost predicate IntelRight(intel: map<Symbol, Intel>, completed: seq<Trade>) {
    forall sym :: SymbolRight(intel, completed, sym)
  }

  ghost predicate AdjustmentsInRange(intel: map<Symbol, Intel>) {
    forall sym :: sym in intel ==> InRange(intel[sym].adjustment)
  }

  ghost predicate KnownRight(known: seq<Symbol>, intel: map<Symbol, Intel>) {
    NoRepeats(known) && forall sym :: sym in known <==> sym in intel
  }

  /**
   Every symbol's running statistics describe exactly its trades in the history; session figures are those
   of the whole history and the sum over the symbols; adjustments and tuned parameters are in range.
   */
  ghost predicate Right(b: Book) {
    && IntelRight(b.intel, b.completed) && KnownRight(b.known, b.intel) && AdjustmentsInRange(b.intel)
    && b.sessionTrades == |b.completed|
    && b.sessionPnl == Sum(b.completed, Pnl) == TotalPnl(b.known, b.intel)
    && TuningInRange(b.tuning)
  }

  lemma NewIsRight(now: real)
    ensures Right(NewBook(now))
  {
    var b := NewBook(now);
    forall sym ensures SymbolRight(b.intel, b.completed, sym) { NothingDescribed(OfSymbol(b.completed, sym)); }
  }

  lemma {:induction false} TotalPnlSame(known: seq<Symbol>, a: map<Symbol, Intel>, b: map<Symbol, Intel>)
    requires forall sym :: sym in known ==>
      (sym in a <==> sym in b) && (sym in a ==> a[sym].totalPnl == b[sym].totalPnl)
    ensures TotalPnl(known, a) == TotalPnl(known, b)
  {
    if known != [] {
      assert known[|known| - 1] in known;
      TotalPnlSame(known[..|known| - 1], a, b);
    }
  }

  lemma {:induction false} TotalPnlChange(known: seq<Symbol>, intel: map<Symbol, Intel>, sym: Symbol, i: Intel)
    requires NoRepeats(known) && sym in known && sym in intel
    ensures TotalPnl(known, intel[sym := i]) == TotalPnl(known, intel) - intel[sym].totalPnl + i.totalPnl
  {
    var m := |known| - 1;
    var before := known[..m];
    assert known == before + [known[m]];
    if known[m] == sym {
      assert sym !in before;
      TotalPnlSame(before, intel, intel[sym := i]);
    } else {
      TotalPnlChange(before, intel, sym, i);
    }
  }

  lemma LearnTotal(known: seq<Symbol>, intel: map<Symbol, Intel>, sym: Symbol, i: Intel)
    requires KnownRight(known, intel)
    ensures var after := KnownWith(known, intel, sym);
      TotalPnl(after, intel[sym := i]) == TotalPnl(known, intel) - IntelOf(intel, sym).totalPnl + i.totalPnl
      && KnownRight(after, intel[sym := i])
  {
    if sym in intel {
      TotalPnlChange(known, intel, sym, i);
    } else {
      assert (known + [sym])[..|known + [sym]| - 1] == known;
      TotalPnlSame(known, intel, intel[sym := i]);
    }
  }

  lemma AdjustmentIgnored(i: Intel, j: Intel, trades: seq<Trade>)
    requires Describes(i, trades) && j == i.(adjustment := j.adjustment)
    ensures Describes(j, trades)
  {
  }

  lemma LearnSymbol(intel: map<Symbol, Intel>, completed: seq<Trade>, t: Trade, i: Intel, sym: Symbol)
    requires SymbolRight(intel, completed, sym)
    requires i == AddTrade(IntelOf(intel, t.symbol), t).(adjustment := i.adjustment)
    ensures SymbolRight(intel[t.symbol := i], completed + [t], sym)
  {
    var all := completed + [t];
    assert all[..|all| - 1] == completed;
    if sym == t.symbol {
      AddTradeDescribes(IntelOf(intel, sym), OfSymbol(completed, sym), t);
      AdjustmentIgnored(AddTrade(IntelOf(intel, sym), t), i, OfSymbol(completed, sym) + [t]);
    } else {
      assert OfSymbol(all, sym) == OfSymbol(completed, sym) + [] == OfSymbol(completed, sym);
    }
  }

  lemma LearnIntel(b: Book, t: Trade, now: real)
    requires IntelRight(b.intel, b.completed) && AdjustmentsInRange(b.intel)
    ensures IntelRight(Learn(b, t, now).intel, b.completed + [t]) && AdjustmentsInRange(Learn(b, t, now).intel)
  {
    var after, completed := Learn(b, t, now).intel, b.completed + [t];
    var i := after[t.symbol];
    assert after == b.intel[t.symbol := i];
    forall sym ensures SymbolRight(after, completed, sym) {
      assert SymbolRight(b.intel, b.completed, sym);
      LearnSymbol(b.intel, b.completed, t, i, sym);
    }
    AdjustedInRange(IntelOf(b.intel, t.symbol).adjustment, OfSymbol(LastOf(b.completed + [t], 30), t.symbol), now);
  }

  lemma LearnKeeps(b: Book, t: Trade, now: real)
    requires Right(b)
    ensures Right(Learn(b, t, now))
  {
    LearnIntel(b, t, now);
    LearnTotal(b.known, b.intel, t.symbol, Learn(b, t, now).intel[t.symbol]);
    OneMore(b.completed, t);
  }

  lemma ForgiveSymbol(intel: map<Symbol, Intel>, completed: seq<Trade>, sym: Symbol)
    requires SymbolRight(intel, completed, sym)
    ensures SymbolRight(ForgiveAll(intel), completed, sym)
  {
    if sym in intel { AdjustmentIgnored(intel[sym], ForgiveAll(intel)[sym], OfSymbol(completed, sym)); }
  }

  lemma ForgiveKeeps(b: Book, now: real)
    requires Right(b)
    ensures Right(MaybeForgive(b, now))
  {
    forall sym ensures SymbolRight(ForgiveAll(b.intel), b.completed, sym) {
      assert SymbolRight(b.intel, b.completed, sym);
      ForgiveSymbol(b.intel, b.completed, sym);
    }
    TotalPnlSame(b.known, b.intel, ForgiveAll(b.intel));
  }

  lemma TuneKeeps(b: Book, now: real)
    requires Right(b)
    ensures Right(MaybeTune(b, now))
  {
    TunedInRange(b.tuning, b.completed);
  }

  /** Statistics, session figures and ranges are right after any sequence of entries and exits. */
  lemma {:induction false} StatisticsAreExact(start: real, es: seq<Event>)
    ensures Right(ReactAll(NewBook(start), es))
  {
    NewIsRight(start);
    if es != [] {
      StatisticsAreExact(start, es[..|es| - 1]);
      StepKeeps(ReactAll(NewBook(start), es[..|es| - 1]), es[|es| - 1]);
    }
  }

  lemma AlertKeeps(b: Book, t: Trade)
    requires Right(b)
    ensures Right(CountAlert(b, t))
  {
  }

  lemma ClosedKeeps(b: Book, sym: Symbol)
    requires Right(b)
    ensures Right(b.(open := b.open - {sym}))
  {
  }

  lemma StepKeeps(b: Book, e: Event)
    requires Right(b)
    ensures Right(React(b, e))
  {
    if e.Exit? {
      ClosedKeeps(b, e.symbol);
      if Records(b, e.symbol) {
        ExitKeeps(b.(open := b.open - {e.symbol}), TradeOf(b.open[e.symbol], e.symbol, e.price, e.now), e.now);
      }
    }
  }

  /** The four stages of a recorded exit. */
  lemma ExitKeeps(b: Book, t: Trade, now: real)
    requires Right(b)
    ensures Right(MaybeForgive(MaybeTune(CountAlert(Learn(b, t, now), t), now), now))
  {
    LearnKeeps(b, t, now);
    AlertKeeps(Learn(b, t, now), t);
    TuneKeeps(CountAlert(Learn(b, t, now), t), now);
    ForgiveKeeps(MaybeTune(CountAlert(Learn(b, t, now), t), now), now);
  }

  // ----- forgiveness over time

  /** The event closes a trade of the symbol. */
  predicate Closes(b: Book, e: Event, sym: Symbol) { e.Exit? && e.symbol == sym && Records(b, sym) }

  /** Forgiveness rounds happen only at exits. */
  function Rounds(b: Book, es: seq<Event>): nat {
    if es == [] then 0
    else
      Rounds(b, es[..|es| - 1]) + if ForgivingStep(ReactAll(b, es[..|es| - 1]), es[|es| - 1]) then 1 else 0
  }

  /** No event closes a trade of the symbol. */
  predicate NoTradeOf(b: Book, es: seq<Event>, sym: Symbol) {
    es == []
    || (NoTradeOf(b, es[..|es| - 1], sym) && !Closes(ReactAll(b, es[..|es| - 1]), es[|es| - 1], sym))
  }

  predicate ForgivingStep(b: Book, e: Event) { e.Exit? && Records(b, e.symbol) && ForgivesAt(b, e.now) }

  lemma LearnLeaves(b: Book, t: Trade, now: real, sym: Symbol)
    requires sym in b.intel && sym != t.symbol
    ensures var c := Learn(b, t, now);
      sym in c.intel && c.intel[sym] == b.intel[sym] && c.lastForgiveness == b.lastForgiveness
  {
  }

  lemma StagesForgive(b: Book, t: Trade, now: real, sym: Symbol)
    requires sym in b.intel
    ensures var c := MaybeForgive(MaybeTune(CountAlert(b, t), now), now); var a := b.intel[sym].adjustment;
      sym in c.intel && c.intel[sym].adjustment == if ForgivesAt(b, now) then Forgive(a) else a
  {
  }

  lemma StepForgives(b: Book, e: Event, sym: Symbol)
    requires sym in b.intel && !Closes(b, e, sym)
    ensures sym in React(b, e).intel
    ensures React(b, e).intel[sym].adjustment
         == if ForgivingStep(b, e) then Forgive(b.intel[sym].adjustment) else b.intel[sym].adjustment
  {
    if e.Exit? && Records(b, e.symbol) {
      var t := TradeOf(b.open[e.symbol], e.symbol, e.price, e.now);
      var closed := b.(open := b.open - {e.symbol});
      LearnLeaves(closed, t, e.now, sym);
      StagesForgive(Learn(closed, t, e.now), t, e.now, sym);
    }
  }

  /** The adjustment of the symbol is what `n` forgiveness rounds make of `a`. */
  ghost predicate Forgiven(b: Book, sym: Symbol, a: real, n: nat) {
    sym in b.intel && b.intel[sym].adjustment == ForgiveTimes(a, n)
  }

  lemma OneStepForgiven(b: Book, e: Event, sym: Symbol, a: real, n: nat)
    requires Forgiven(b, sym, a, n) && !Closes(b, e, sym)
    ensures Forgiven(React(b, e), sym, a, if ForgivingStep(b, e) then n + 1 else n)
  {
    StepForgives(b, e, sym);
  }

  /** While a symbol has no trades its adjustment changes only by the forgiveness rounds. */
  lemma {:induction false} OnlyForgiven(b: Book, es: seq<Event>, sym: Symbol)
    requires sym in b.intel && NoTradeOf(b, es, sym)
    ensures Forgiven(ReactAll(b, es), sym, b.intel[sym].adjustment, Rounds(b, es))
  {
    if es != [] {
      OnlyForgiven(b, es[..|es| - 1], sym);
      OneStepForgiven(ReactAll(b, es[..|es| - 1]), es[|es| - 1], sym, b.intel[sym].adjustment,
                      Rounds(b, es[..|es| - 1]));
    }
  }

  lemma {:induction false} ForgivenForGood(a: real, n: nat)
    requires InRange(a) && n >= 9
    ensures ForgiveTimes(a, n) == if a > 0.0 then 0.0 else a
  {
    if n == 9 { NineRoundsForgive(a); } else { ForgivenForGood(a, n - 1); }
  }

  /** After any history, nine rounds or more without a trade of the symbol leave no penalty, and keep every bonus. */
  lemma PenaltyIsForgotten(start: real, first: seq<Event>, es: seq<Event>, sym: Symbol)
    requires sym in ReactAll(NewBook(start), first).intel
    requires NoTradeOf(ReactAll(NewBook(start), first), es, sym) && Rounds(ReactAll(NewBook(start), first), es) >= 9
    ensures var b := ReactAll(NewBook(start), first); var c := ReactAll(b, es);
      sym in c.intel
      && c.intel[sym].adjustment == if b.intel[sym].adjustment > 0.0 then 0.0 else b.intel[sym].adjustment
  {
    var b := ReactAll(NewBook(start), first);
    StatisticsAreExact(start, first);
    OnlyForgiven(b, es, sym);
    ForgivenForGood(b.intel[sym].adjustment, Rounds(b, es));
  }

  // ----- the lowest adjustment

  lemma LearnSets(b: Book, t: Trade, now: real)
    ensures var c := Learn(b, t, now);
      c.completed == b.completed + [t] && t.symbol in c.intel
      && c.intel[t.symbol].adjustment
      == Adjusted(IntelOf(b.intel, t.symbol).adjustment, OfSymbol(LastOf(b.completed + [t], 30), t.symbol), now)
  {
  }

  /** The stages after that keep an adjustment that is not a penalty. */
  lemma BonusKept(b: Book, t: Trade, now: real, sym: Symbol)
    requires sym in b.intel
    ensures var c := MaybeForgive(MaybeTune(CountAlert(b, t), now), now);
      c.completed == b.completed && sym in c.intel
      && (b.intel[sym].adjustment <= 0.0 ==> c.intel[sym].adjustment == b.intel[sym].adjustment)
  {
  }

  /** What a recorded exit appends, and the adjustment it sets when that is not a penalty. */
  lemma ExitSets(b: Book, sym: Symbol, price: real, now: real)
    requires Records(b, sym)
    ensures var t := TradeOf(b.open[sym], sym, price, now); var c := RecordExit(b, sym, price, now);
      var a := Adjusted(IntelOf(b.intel, sym).adjustment, OfSymbol(LastOf(b.completed + [t], 30), sym), now);
      c.completed == b.completed + [t] && sym in c.intel && (a <= 0.0 ==> c.intel[sym].adjustment == a)
  {
    var t := TradeOf(b.open[sym], sym, price, now);
    var closed := b.(open := b.open - {sym});
    LearnSets(closed, t, now);
    BonusKept(Learn(closed, t, now), t, now, sym);
  }

  /** A round trip of one unit held for an hour. */
  function RoundTrip(buy: real, sell: real, at: real): seq<Event> {
    [Enter("A", buy, 1.0, at), Exit("A", sell, at + 1.0)]
  }

  lemma AfterRoundTrip(b: Book, buy: real, sell: real, at: real)
    requires buy != 0.0
    ensures var c := RecordEntry(b, "A", buy, 1.0, at);
      Records(c, "A") && c.completed == b.completed
      && ReactAll(b, RoundTrip(buy, sell, at)) == RecordExit(c, "A", sell, at + 1.0)
      && TradeOf(c.open["A"], "A", sell, at + 1.0) == TripTrade(buy, sell, at)
  {
    var es := RoundTrip(buy, sell, at);
    assert es[..1] == [es[0]] && [es[0]][..0] == [];
    assert ReactAll(b, [es[0]]) == React(b, es[0]);
  }

  function TripTrade(buy: real, sell: real, at: real): Trade
    requires buy != 0.0
  {
    Trade("A", at + 1.0, (sell - buy) * 1.0, (sell - buy) / buy * 100.0, 1.0)
  }

  lemma TripHistory(b: Book, buy: real, sell: real, at: real)
    requires buy != 0.0
    ensures ReactAll(b, RoundTrip(buy, sell, at)).completed == b.completed + [TripTrade(buy, sell, at)]
  {
    AfterRoundTrip(b, buy, sell, at);
    ExitSets(RecordEntry(b, "A", buy, 1.0, at), "A", sell, at + 1.0);
  }

  lemma {:induction false} ReactsSplit(b: Book, first: seq<Event>, rest: seq<Event>)
    ensures ReactAll(b, first + rest) == ReactAll(ReactAll(b, first), rest)
    decreases |rest|
  {
    if rest == [] {
      assert first + rest == first;
    } else {
      ReactsSplit(b, first, rest[..|rest| - 1]);
      assert (first + rest)[..|first + rest| - 1] == first + rest[..|rest| - 1];
    }
  }

  /** Two wins and then a loss of the same symbol, each held for an hour and one hour apart. */
  predicate TwoWinsOneLoss(ts: seq<Trade>) {
    && |ts| == 3
    && ts[0] == TripTrade(1.0, 2.0, 0.0) && ts[1] == TripTrade(1.0, 2.0, 1.0) && ts[2] == TripTrade(2.0, 1.0, 2.0)
  }

  lemma OfThree(ts: seq<Trade>)
    requires TwoWinsOneLoss(ts)
    ensures OfSymbol(LastOf(ts, 30), "A") == ts
  {
    assert ts[..2][..1] == ts[..1] && ts[..1][..0] == [];
    assert OfSymbol(ts[..1], "A") == ts[..1] && OfSymbol(ts[..2], "A") == ts[..2];
  }

  lemma TwoWinsOneLossAdjusts(previous: real, ts: seq<Trade>)
    requires TwoWinsOneLoss(ts) && InRange(previous)
    ensures Adjusted(previous, ts, 3.0) == -0.1
  {
    ThreeWeights(ts, 3.0, Win);
    ThreeWeights(ts, 3.0, Churn);
    var wins := 12.0 / 13.0 + 24.0 / 25.0;
    assert DecayWeight(2.0) == 12.0 / 13.0 && DecayWeight(1.0) == 24.0 / 25.0 && DecayWeight(0.0) == 1.0;
    ShareAgainst(wins, wins + 1.0, 0.6);
    LowestAdjustedIff(previous, ts, 3.0);
  }

  lemma ThirdTrip(b: Book)
    requires |b.completed| == 2 && Right(b)
    requires TwoWinsOneLoss(b.completed + [TripTrade(2.0, 1.0, 2.0)])
    ensures var c := ReactAll(b, RoundTrip(2.0, 1.0, 2.0)); "A" in c.intel && c.intel["A"].adjustment == -0.1
  {
    var c := RecordEntry(b, "A", 2.0, 1.0, 2.0);
    var ts := b.completed + [TripTrade(2.0, 1.0, 2.0)];
    AfterRoundTrip(b, 2.0, 1.0, 2.0);
    OfThree(ts);
    TwoWinsOneLossAdjusts(IntelOf(c.intel, "A").adjustment, ts);
    ExitSets(c, "A", 1.0, 3.0);
  }

  /** Any history can go on with a round trip. */
  lemma OneMoreTrip(front: seq<Event>, buy: real, sell: real, at: real) returns (es: seq<Event>)
    requires buy != 0.0
    ensures ReactAll(NewBook(0.0), es) == ReactAll(ReactAll(NewBook(0.0), front), RoundTrip(buy, sell, at))
    ensures ReactAll(NewBook(0.0), es).completed
         == ReactAll(NewBook(0.0), front).completed + [TripTrade(buy, sell, at)]
  {
    es := front + RoundTrip(buy, sell, at);
    ReactsSplit(NewBook(0.0), front, RoundTrip(buy, sell, at));
    TripHistory(ReactAll(NewBook(0.0), front), buy, sell, at);
  }

  /** The bound is met: a fresh instance that sees two wins and a loss of a symbol adjusts it by -0.1. */
  lemma LowestAdjustmentReached() returns (es: seq<Event>)
    ensures var b := ReactAll(NewBook(0.0), es);
      TwoWinsOneLoss(b.completed) && "A" in b.intel && b.intel["A"].adjustment == -0.1
  {
    var one := OneMoreTrip([], 1.0, 2.0, 0.0);
    var two := OneMoreTrip(one, 1.0, 2.0, 1.0);
    es := OneMoreTrip(two, 2.0, 1.0, 2.0);
    StatisticsAreExact(0.0, two);
    ThirdTrip(ReactAll(NewBook(0.0), two));
  }

  // ----- tuning and forgiveness in time

  lemma StageTimes(b: Book, t: Trade, now: real)
    ensures var c := MaybeForgive(MaybeTune(CountAlert(Learn(b, t, now), t), now), now);
      && c.lastTuning == (if now - b.lastTuning >= 4.0 then now else b.lastTuning)
      && c.tuning == (if now - b.lastTuning >= 4.0 then Tuned(b.tuning, b.completed + [t]) else b.tuning)
      && c.lastForgiveness == (if b.lastForgiveness.Some? && now - b.lastForgiveness.value < 2.0
                               then b.lastForgiveness else Some(now))
  {
  }

  /**
   A recorded exit tunes exactly if the last tuning is four hours or more ago, and takes note of a forgiveness round
   exactly if it is the first exit, or the last note is two hours or more ago.
   */
  lemma ExitTimes(b: Book, sym: Symbol, price: real, now: real)
    requires Records(b, sym)
    ensures var c := RecordExit(b, sym, price, now);
      && c.lastTuning == (if now - b.lastTuning >= 4.0 then now else b.lastTuning)
      && c.tuning == (if now - b.lastTuning >= 4.0
                      then Tuned(b.tuning, b.completed + [TradeOf(b.open[sym], sym, price, now)]) else b.tuning)
      && c.lastForgiveness == (if b.lastForgiveness.Some? && now - b.lastForgiveness.value < 2.0
                               then b.lastForgiveness else Some(now))
    ensures ForgivingStep(b, Exit(sym, price, now))
      <==> b.lastForgiveness.Some? && now - b.lastForgiveness.value >= 2.0
  {
    StageTimes(b.(open := b.open - {sym}), TradeOf(b.open[sym], sym, price, now), now);
  }

  /** Until an exit four hours or more after the start the tuned hold is 4 hours and the bypass 8. */
  lemma {:induction false} UntunedAtFirst(start: real, es: seq<Event>)
    requires forall i :: 0 <= i < |es| ==> es[i].now - start < 4.0
    ensures var b := ReactAll(NewBook(start), es); b.tuning == Tuning(4.0, 8) && b.lastTuning == start
  {
    if es != [] {
      var before, e := es[..|es| - 1], es[|es| - 1];
      UntunedAtFirst(start, before);
      UntunedStep(ReactAll(NewBook(start), before), e);
    }
  }

  lemma UntunedStep(b: Book, e: Event)
    requires e.now - b.lastTuning < 4.0
    ensures React(b, e).tuning == b.tuning && React(b, e).lastTuning == b.lastTuning
  {
    if e.Exit? && Records(b, e.symbol) { ExitTimes(b, e.symbol, e.price, e.now); }
  }

  /** Rounds of forgiveness are two hours apart, so `n` of them take at least 2n hours from the first exit on. */
  lemma {:induction false} RoundsTakeTime(b: Book, es: seq<Event>)
    requires b.lastForgiveness.Some?
    ensures var c := ReactAll(b, es);
      c.lastForgiveness.Some? && c.lastForgiveness.value - b.lastForgiveness.value >= 2.0 * Rounds(b, es) as real
  {
    if es != [] {
      var before, e := es[..|es| - 1], es[|es| - 1];
      RoundsTakeTime(b, before);
      RoundTakesTime(ReactAll(b, before), e);
    }
  }

  lemma RoundTakesTime(b: Book, e: Event)
    requires b.lastForgiveness.Some?
    ensures var c := React(b, e);
      c.lastForgiveness.Some?
      && c.lastForgiveness.value - b.lastForgiveness.value >= if ForgivingStep(b, e) then 2.0 else 0.0
  {
    if e.Exit? && Records(b, e.symbol) { ExitTimes(b, e.symbol, e.price, e.now); }
  }
}
