/** What `close_all_positions` achieves once its orders have met the next day's open. */
module Closing {
  import opened Prelude
  import opened Market
  import opened Backtest

  /** The order that closes a position. */
  function ClosingOrder(p: Position, id: nat, sym: Symbol, day: Date): PendingOrder {
    PendingOrder(id, sym, Abs(p.qty), if p.qty > 0.0 then Sell else Buy, day, None)
  }

  /** One closing order for each symbol, in their order, numbered from `id`. */
  ghost predicate ClosingOrders(orders: seq<PendingOrder>, positions: map<Symbol, Position>, symbols: seq<Symbol>,
                                id: nat, day: Date) {
    |orders| == |symbols|
    && forall i :: 0 <= i < |orders| ==>
         symbols[i] in positions && orders[i] == ClosingOrder(positions[symbols[i]], id + i, symbols[i], day)
  }

  lemma {:induction false} CloseEachAppends(s: Sim, symbols: seq<Symbol>, day: Date)
    requires s.date == Some(day) && forall sym :: sym in symbols ==> sym in s.positions
    ensures var t := CloseEach(s, symbols);
      |t.pending| == |s.pending| + |symbols| && t.pending[..|s.pending|] == s.pending
      && ClosingOrders(t.pending[|s.pending|..], s.positions, symbols, s.nextId, day)
    decreases |symbols|
  {
    if symbols != [] {
      var sym := symbols[0];
      var qty := s.positions[sym].qty;
      var u := Submit(s, sym, Abs(qty), if qty > 0.0 then Sell else Buy, None);
      CloseEachAppends(u, symbols[1..], day);
      var t := CloseEach(s, symbols);
      assert t == CloseEach(u, symbols[1..]);
      assert t.pending[..|u.pending|][..|s.pending|] == s.pending;
      var orders, rest := t.pending[|s.pending|..], t.pending[|u.pending|..];
      assert orders[0] == t.pending[..|u.pending|][|s.pending|] == ClosingOrder(s.positions[sym], s.nextId, sym, day);
      assert orders[1..] == rest;
      forall i | 0 <= i < |orders|
        ensures symbols[i] in s.positions
          && orders[i] == ClosingOrder(s.positions[symbols[i]], s.nextId + i, symbols[i], day)
      {
        if i > 0 { assert orders[i] == rest[i - 1] && symbols[i] == symbols[1..][i - 1]; }
      }
    }
  }

  /** `close_all_positions` queues exactly one order for each held symbol, of the held size and the opposite side. */
  lemma CloseAllQueues(s: Sim, cancelOrders: bool, day: Date)
    requires s.date == Some(day) && HeldAgrees(s.held, s.positions)
    ensures var t := CloseAllPositions(s, cancelOrders); var kept := if cancelOrders then [] else s.pending;
      |t.pending| == |kept| + |s.held| && t.pending[..|kept|] == kept
      && ClosingOrders(t.pending[|kept|..], s.positions, s.held, s.nextId, day)
  {
    CloseEachAppends(if cancelOrders then CancelAll(s) else s, s.held, day);
  }

  /** The symbol has an opening price on the day. */
  predicate Opens(w: World, sym: Symbol, day: Date) {
    BarOf(w, sym, day).Some? && BarOf(w, sym, day).value.open.Some?
  }

  /** What one closing order does: it removes a long position that can be sold, and no other key. */
  lemma ClosesOne(w: World, s: Sim, day: Date, order: PendingOrder, id: nat, created: Date)
    requires order.symbol in s.positions && order == ClosingOrder(s.positions[order.symbol], id, order.symbol, created)
    ensures var t := ProcessOrder(w, s, day, order);
      (order.symbol in t.positions <==> !(s.positions[order.symbol].qty > 0.0 && Opens(w, order.symbol, day)))
      && t.positions - {order.symbol} == s.positions - {order.symbol}
  {
  }

  /** The symbol is held long and can be sold on the day. */
  predicate Sellable(w: World, positions: map<Symbol, Position>, sym: Symbol, day: Date) {
    sym in positions && positions[sym].qty > 0.0 && Opens(w, sym, day)
  }

  ghost predicate Survive(w: World, before: map<Symbol, Position>, after: map<Symbol, Position>,
                          symbols: seq<Symbol>, day: Date) {
    forall sym :: sym in after <==> sym in before && !(sym in symbols && Sellable(w, before, sym, day))
  }

  lemma {:induction false} ClosesEach(w: World, s: Sim, day: Date, orders: seq<PendingOrder>, symbols: seq<Symbol>,
                                      id: nat, created: Date)
    requires NoRepeats(symbols) && ClosingOrders(orders, s.positions, symbols, id, created)
    ensures Survive(w, s.positions, ProcessAll(w, s, day, orders).positions, symbols, day)
    decreases |orders|
  {
    if orders != [] {
      var sym, rest := symbols[0], symbols[1..];
      var t := ProcessOrder(w, s, day, orders[0]);
      ClosesOne(w, s, day, orders[0], id, created);
      assert sym !in rest && symbols == [sym] + rest;
      forall x | x != sym ensures Lookup(t.positions, x) == Lookup(s.positions, x) {
        assert Lookup(t.positions - {sym}, x) == Lookup(s.positions - {sym}, x);
      }
      forall i | 0 <= i < |rest|
        ensures rest[i] in t.positions
          && orders[1..][i] == ClosingOrder(t.positions[rest[i]], id + 1 + i, rest[i], created)
      {
        assert rest[i] == symbols[i + 1] && rest[i] != sym;
        assert Lookup(t.positions, rest[i]) == Lookup(s.positions, rest[i]);
      }
      ClosesEach(w, t, day, orders[1..], rest, id + 1, created);
      var end := ProcessAll(w, s, day, orders).positions;
      assert Survive(w, t.positions, end, rest, day);
      forall x ensures x in end <==> x in s.positions && !(x in symbols && Sellable(w, s.positions, x, day)) {
        if x != sym { assert Lookup(t.positions, x) == Lookup(s.positions, x); }
      }
    }
  }

  /**
   After a close of everything with the queue cancelled, the fills of the next day leave the account
   without positions if and only if every position was long and its symbol has an opening price that
   day: short positions stay on the books whatever is filled.
   */
  lemma CloseAllFlattensIff(w: World, s: Sim, k: nat, day: Date)
    requires k < |w.dates| && s.date == Some(day) && HeldAgrees(s.held, s.positions)
    ensures OpenDay(w, CloseAllPositions(s, true), k).positions == map[]
      <==> forall sym :: sym in s.positions ==> Sellable(w, s.positions, sym, w.dates[k])
  {
    var t := CloseAllPositions(s, true);
    CloseAllQueues(s, true, day);
    CloseEachOnlyQueues(CancelAll(s), s.held);
    assert t.pending[0..] == t.pending && t.positions == s.positions;
    var u := t.(index := k, date := Some(w.dates[k]), pending := []);
    ClosesEach(w, u, w.dates[k], t.pending, s.held, s.nextId, day);
    var end := OpenDay(w, t, k).positions;
    assert Survive(w, s.positions, end, s.held, w.dates[k]);
    if forall sym :: sym in s.positions ==> Sellable(w, s.positions, sym, w.dates[k]) {
      assert forall sym :: sym !in end;
    } else {
      var sym :| sym in s.positions && !Sellable(w, s.positions, sym, w.dates[k]);
      assert sym in end;
    }
  }

  /** A short that is bought back stays as a position of quantity zero, whose average price is not a number. */
  lemma CoveredShortStays(w: World, s: Sim, day: Date, sym: Symbol, id: nat, created: Date)
    requires sym in s.positions && s.positions[sym].qty < 0.0 && Opens(w, sym, day)
    requires var order := ClosingOrder(s.positions[sym], id, sym, created);
      var price := FillPrice(Buy, BarOf(w, sym, day).value.open.value, w.costs.slippage);
      Value(order.qty, price) + w.costs.commission <= s.cash
    ensures var t := ProcessOrder(w, s, day, ClosingOrder(s.positions[sym], id, sym, created));
      sym in t.positions && t.positions[sym].qty == 0.0 && t.positions[sym].avgPrice.None?
  {
  }
}
