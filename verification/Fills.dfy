/** What a fill is in numbers: its price against the bar's open, the cash it moves, and the position it leaves. */
module Fills {
  import opened Prelude
  import opened Market
  import opened Backtest
  import opened Conservation

  /** The opening price of a day, where there is one. */
  function OpenOf(w: World, sym: Symbol, day: Date): Option<real> {
    var bar := BarOf(w, sym, day);
    if bar.Some? then bar.value.open else None
  }

  /** The price is off the day's open by exactly the slippage, against the trader. */
  predicate AtOpen(w: World, t: Trade) {
    var open := OpenOf(w, t.symbol, t.date);
    && open.Some?
    && match t.side
       case Buy => t.price - open.value == w.costs.slippage * open.value
       case Sell => open.value - t.price == w.costs.slippage * open.value
       case Other(_) => t.price == open.value
  }

  lemma SlippedPrice(open: real, slippage: real)
    ensures FillPrice(Buy, open, slippage) - open == slippage * open
    ensures open - FillPrice(Sell, open, slippage) == slippage * open
  {
  }

  lemma FillAtOpen(w: World, order: PendingOrder, day: Date, t: Trade)
    requires FillOf(w, order, day, t)
    ensures AtOpen(w, t)
  {
    SlippedPrice(OpenOf(w, t.symbol, t.date).value, w.costs.slippage);
  }

  lemma {:induction false} FairFillsAtOpen(w: World, initialCash: real, settled: seq<Settled>)
    requires AllFair(w, initialCash, settled)
    ensures forall t :: t in FilledTrades(settled) ==> AtOpen(w, t)
  {
    if settled != [] {
      var before, e := settled[..|settled| - 1], settled[|settled| - 1];
      assert FairlySettled(w, CashAfter(w, initialCash, before), e);
      forall i | 0 <= i < |before| ensures FairlySettled(w, CashAfter(w, initialCash, before[..i]), before[i]) {
        assert before[..i] == settled[..i];
      }
      FairFillsAtOpen(w, initialCash, before);
      if e.outcome.Filled? { FillAtOpen(w, e.order, e.day, e.outcome.trade); }
    }
  }

  /**
   In every reachable state every recorded buy was filled above its day's open by exactly the slippage on it,
   every sell below it by as much, and an order of any other side at the open.
   */
  lemma EveryFillAtOpen(w: World, strategy: Strategy, calls: nat, initialCash: real, k: nat)
    requires k < |w.dates| && Increasing(w.dates)
    ensures forall t :: t in AfterCallback(w, strategy, calls, Fresh(initialCash), k).sim.trades ==> AtOpen(w, t)
  {
    CallbackSound(w, strategy, calls, initialCash, k);
    var s := AfterCallback(w, strategy, calls, Fresh(initialCash), k).sim;
    FairFillsAtOpen(w, s.initialCash, s.settled);
  }

  // ----- filled or skipped

  /** What a buy costs and a sell brings in, on top of or less the commission. */
  function Due(qty: real, open: real, slippage: real): real { qty * open + slippage * open * qty }

  function Proceeds(qty: real, open: real, slippage: real): real { qty * open - slippage * open * qty }

  lemma DueIs(qty: real, open: real, slippage: real)
    ensures Value(qty, FillPrice(Buy, open, slippage)) == Due(qty, open, slippage)
    ensures Value(qty, FillPrice(Sell, open, slippage)) == Proceeds(qty, open, slippage)
  {
    var slip := slippage * open;
    SlippedPrice(open, slippage);
    assert FillPrice(Buy, open, slippage) == open + slip && FillPrice(Sell, open, slippage) == open - slip;
    assert qty * (open + slip) == qty * open + slip * qty;
    assert qty * (open - slip) == qty * open - slip * qty;
  }

  /** A fill appends one trade; a skip none. */
  predicate IsFilled(w: World, s: Sim, day: Date, order: PendingOrder) {
    |ProcessOrder(w, s, day, order).trades| > |s.trades|
  }

  /**
   An order is filled if and only if its symbol has an opening price that day and, for a buy, the cash covers the
   quantity at the open, the slippage on it and the commission; a skipped one leaves account and log alone.
   */
  lemma FilledIff(w: World, s: Sim, day: Date, order: PendingOrder)
    ensures var open := OpenOf(w, order.symbol, day);
      (IsFilled(w, s, day, order) <==>
        && open.Some?
        && (order.side.Buy? ==> Due(order.qty, open.value, w.costs.slippage) + w.costs.commission <= s.cash))
    ensures !IsFilled(w, s, day, order) ==>
      ProcessOrder(w, s, day, order) == s.(settled := s.settled + [Settled(order, day, Skipped)])
  {
    var open := OpenOf(w, order.symbol, day);
    if open.Some? { DueIs(order.qty, open.value, w.costs.slippage); }
  }

  /** The cash after a fill, and the trade that records it. */
  lemma FillMovesCash(w: World, s: Sim, day: Date, order: PendingOrder)
    requires IsFilled(w, s, day, order)
    ensures var t := ProcessOrder(w, s, day, order);
      var open, slippage, commission := OpenOf(w, order.symbol, day).value, w.costs.slippage, w.costs.commission;
      && t.cash == (match order.side
                    case Buy => s.cash - Due(order.qty, open, slippage) - commission
                    case Sell => s.cash + Proceeds(order.qty, open, slippage) - commission
                    case Other(_) => s.cash)
      && |t.trades| == |s.trades| + 1 && t.trades[..|s.trades|] == s.trades
      && var trade := t.trades[|s.trades|];
         trade.orderId == order.id && trade.symbol == order.symbol && trade.side == order.side
         && trade.qty == order.qty && trade.date == day && AtOpen(w, trade)
  {
    DueIs(order.qty, OpenOf(w, order.symbol, day).value, w.costs.slippage);
    SlippedPrice(OpenOf(w, order.symbol, day).value, w.costs.slippage);
  }

  /** Buying and then selling a quantity at one opening price costs the slippage and the commission twice. */
  lemma RoundTripCosts(w: World, s: Sim, buyDay: Date, sellDay: Date, buy: PendingOrder, sell: PendingOrder)
    requires buy.side.Buy? && sell.side.Sell? && buy.symbol == sell.symbol && buy.qty == sell.qty
    requires IsFilled(w, s, buyDay, buy) && OpenOf(w, sell.symbol, sellDay) == OpenOf(w, buy.symbol, buyDay)
    ensures var t := ProcessOrder(w, ProcessOrder(w, s, buyDay, buy), sellDay, sell);
      var open := OpenOf(w, buy.symbol, buyDay).value;
      s.cash - t.cash == 2.0 * (w.costs.slippage * open * buy.qty) + 2.0 * w.costs.commission
  {
    var t := ProcessOrder(w, s, buyDay, buy);
    FilledIff(w, s, buyDay, buy);
    FillMovesCash(w, s, buyDay, buy);
    FilledIff(w, t, sellDay, sell);
    FillMovesCash(w, t, sellDay, sell);
  }

  // ----- the position after a fill

  function QtyAt(positions: map<Symbol, Position>, sym: Symbol): real {
    if sym in positions then positions[sym].qty else 0.0
  }

  /** A buy adds its quantity to whatever is held, and values the holding at the price of the fill. */
  lemma BuyAdds(w: World, s: Sim, day: Date, order: PendingOrder)
    requires order.side.Buy? && IsFilled(w, s, day, order)
    ensures var t := ProcessOrder(w, s, day, order); var price := t.trades[|s.trades|].price;
      && order.symbol in t.positions
      && t.positions[order.symbol].qty == QtyAt(s.positions, order.symbol) + order.qty
      && t.positions[order.symbol].marketValue == t.positions[order.symbol].qty * price
      && (order.symbol !in s.positions ==> t.positions[order.symbol].avgPrice == Some(price))
  {
  }

  /**
   A sell of a symbol that is not held opens a short at the price of the fill; of a long position it takes the
   quantity off and keeps the average price, or removes the position when nothing is left; a further sell of a
   position that is not long leaves it as it is.
   */
  lemma SellTakes(w: World, s: Sim, day: Date, order: PendingOrder)
    requires order.side.Sell? && IsFilled(w, s, day, order)
    ensures var t := ProcessOrder(w, s, day, order); var price := t.trades[|s.trades|].price; var sym := order.symbol;
      && (sym !in s.positions ==>
            sym in t.positions && t.positions[sym] == Position(-order.qty, Some(price), -order.qty * price))
      && (sym in s.positions && s.positions[sym].qty > order.qty && s.positions[sym].qty > 0.0 ==>
            && sym in t.positions && t.positions[sym].qty == s.positions[sym].qty - order.qty
            && t.positions[sym].avgPrice == s.positions[sym].avgPrice
            && t.positions[sym].marketValue == t.positions[sym].qty * price)
      && (sym in s.positions && 0.0 < s.positions[sym].qty <= order.qty ==> sym !in t.positions)
      && (sym in s.positions && s.positions[sym].qty <= 0.0 ==> t.positions == s.positions)
  {
  }

  /** No order touches the position of another symbol, and one of another side touches none. */
  lemma OthersUntouched(w: World, s: Sim, day: Date, order: PendingOrder)
    ensures var t := ProcessOrder(w, s, day, order);
      t.positions - {order.symbol} == s.positions - {order.symbol}
      && (order.side.Other? ==> t.positions == s.positions && t.cash == s.cash)
  {
  }
}
