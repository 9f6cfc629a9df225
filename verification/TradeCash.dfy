/** What a recorded trade is in numbers, and the session figures from the entries and exits alone. */
module TradeCash {
  import opened Prelude
  import opened TradeLearning
  import opened TradeBook

  lemma PnlIs(entry: real, exit: real, qty: real)
    ensures (exit - entry) * qty + entry * qty == exit * qty
  {
  }

  lemma PercentIs(part: real, whole: real)
    requires whole != 0.0
    ensures part / whole * 100.0 * whole == 100.0 * part
  {
    var share := part / whole;
    assert share * whole == part;
    assert share * 100.0 * whole == 100.0 * (share * whole);
  }

  /** The stages of an exit behind the history touch neither session figures nor positions, but the churn count. */
  lemma StagesKeep(b: Book, t: Trade, now: real)
    ensures var c := MaybeForgive(MaybeTune(CountAlert(Learn(b, t, now), t), now), now);
      && c.open == b.open && c.sessionPnl == b.sessionPnl + t.pnl && c.sessionTrades == b.sessionTrades + 1
      && c.completed == b.completed + [t]
      && c.churnAlerts == b.churnAlerts + if t.hours < 1.0 && t.pnl < 0.0 then 1 else 0
  {
  }

  /** What a recorded exit does to positions, history and session, for the trade it makes. */
  predicate Figures(b: Book, c: Book, sym: Symbol, t: Trade) {
    && c.open == b.open - {sym} && c.completed == b.completed + [t]
    && c.sessionPnl == b.sessionPnl + t.pnl && c.sessionTrades == b.sessionTrades + 1
    && c.churnAlerts == b.churnAlerts + if t.hours < 1.0 && t.pnl < 0.0 then 1 else 0
  }

  lemma ExitFigures(b: Book, sym: Symbol, price: real, now: real)
    requires Records(b, sym)
    ensures Figures(b, RecordExit(b, sym, price, now), sym, TradeOf(b.open[sym], sym, price, now))
  {
    StagesKeep(b.(open := b.open - {sym}), TradeOf(b.open[sym], sym, price, now), now);
  }

  /** The trade of an exit: brought in and cost, percentage, times. */
  predicate TradeRight(t: Trade, o: Open, sym: Symbol, price: real, now: real) {
    && t.symbol == sym && t.exitTime == now && t.hours == now - o.entryTime
    && t.pnl + o.entryPrice * o.qty == price * o.qty
    && t.pnlPct * o.entryPrice == 100.0 * (price - o.entryPrice)
  }

  lemma TradeIs(o: Open, sym: Symbol, price: real, now: real)
    requires o.entryPrice != 0.0
    ensures TradeRight(TradeOf(o, sym, price, now), o, sym, price, now)
  {
    PnlIs(o.entryPrice, price, o.qty);
    PercentIs(price - o.entryPrice, o.entryPrice);
  }

  /**
   A recorded exit appends one trade: what it brought in is its P&L on top of what the entry cost, its percentage is
   that of the price difference in the entry price, and it was held from the entry to the exit.
   */
  lemma RecordedTradeIs(b: Book, sym: Symbol, price: real, now: real) returns (t: Trade)
    requires sym in b.open && b.open[sym].entryPrice != 0.0
    ensures TradeRight(t, b.open[sym], sym, price, now)
    ensures Figures(b, RecordExit(b, sym, price, now), sym, t)
  {
    t := TradeOf(b.open[sym], sym, price, now);
    TradeIs(b.open[sym], sym, price, now);
    ExitFigures(b, sym, price, now);
  }

  /** An exit without an entry changes nothing; one with entry price zero only loses the position. */
  lemma UnrecordedExit(b: Book, sym: Symbol, price: real, now: real)
    ensures sym !in b.open ==> RecordExit(b, sym, price, now) == b
    ensures sym in b.open && b.open[sym].entryPrice == 0.0 ==>
      RecordExit(b, sym, price, now) == b.(open := b.open - {sym})
  {
  }

  // ----- whole runs

  /** An entry that is still open: its time, price and quantity. */
  datatype Lot = Lot(time: real, price: real, qty: real)

  /** The till of a session: the open entries, what recorded exits brought in, what their entries cost, how many. */
  datatype Till = Till(lots: map<Symbol, Lot>, brought: real, cost: real, exits: nat, churned: nat)

  const EMPTY := Till(map[], 0.0, 0.0, 0, 0)

  /** One event at the till; an exit counts if there is an entry whose price is not zero. */
  function Ring(t: Till, e: Event): Till {
    match e
    case Enter(sym, price, qty, now) => t.(lots := t.lots[sym := Lot(now, price, qty)])
    case Exit(sym, price, now) =>
      if sym !in t.lots then t
      else
        var lot := t.lots[sym];
        var left := t.(lots := t.lots - {sym});
        if lot.price == 0.0 then left
        else
          left.(brought := t.brought + price * lot.qty, cost := t.cost + lot.price * lot.qty, exits := t.exits + 1,
                churned := t.churned + if now - lot.time < 1.0 && price * lot.qty < lot.price * lot.qty then 1 else 0)
  }

  function RingAll(es: seq<Event>): Till {
    if es == [] then EMPTY else Ring(RingAll(es[..|es| - 1]), es[|es| - 1])
  }

  /** The open positions of the book are the till's entries. */
  ghost predicate SameLots(open: map<Symbol, Open>, lots: map<Symbol, Lot>) {
    && (forall sym :: sym in open <==> sym in lots)
    && forall sym :: sym in open ==>
         && open[sym].entryTime == lots[sym].time && open[sym].entryPrice == lots[sym].price
         && open[sym].qty == lots[sym].qty
  }

  ghost predicate TillAgrees(b: Book, t: Till) {
    && SameLots(b.open, t.lots) && b.sessionPnl == t.brought - t.cost && b.sessionTrades == t.exits
    && b.churnAlerts == t.churned
  }

  lemma LotsClosed(open: map<Symbol, Open>, lots: map<Symbol, Lot>, sym: Symbol)
    requires SameLots(open, lots)
    ensures SameLots(open - {sym}, lots - {sym})
  {
  }

  lemma RecordedAgrees(b: Book, till: Till, c: Book, sym: Symbol, price: real, now: real, t: Trade)
    requires TillAgrees(b, till) && sym in b.open && b.open[sym].entryPrice != 0.0
    requires TradeRight(t, b.open[sym], sym, price, now) && Figures(b, c, sym, t)
    ensures TillAgrees(c, Ring(till, Exit(sym, price, now)))
  {
    LotsClosed(b.open, till.lots, sym);
  }

  lemma ExitAgrees(b: Book, till: Till, sym: Symbol, price: real, now: real)
    requires TillAgrees(b, till)
    ensures TillAgrees(RecordExit(b, sym, price, now), Ring(till, Exit(sym, price, now)))
  {
    UnrecordedExit(b, sym, price, now);
    if sym in b.open && b.open[sym].entryPrice != 0.0 {
      var t := RecordedTradeIs(b, sym, price, now);
      RecordedAgrees(b, till, RecordExit(b, sym, price, now), sym, price, now, t);
    } else {
      LotsClosed(b.open, till.lots, sym);
    }
  }

  /**
   Over every run of a fresh instance: session P&L is what the recorded exits brought in minus what their entries
   cost, the session counts exactly those exits, and the churn alerts are those that lost within an hour.
   */
  lemma {:induction false} SessionIsTill(start: real, es: seq<Event>)
    ensures TillAgrees(ReactAll(NewBook(start), es), RingAll(es))
  {
    if es != [] {
      var before, e := es[..|es| - 1], es[|es| - 1];
      SessionIsTill(start, before);
      match e
      case Enter(sym, price, qty, now) =>
      case Exit(sym, price, now) => ExitAgrees(ReactAll(NewBook(start), before), RingAll(before), sym, price, now);
    }
  }
}
