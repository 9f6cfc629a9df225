/** What holds in every state a backtest can reach, whatever the strategy and the market do. */
module Conservation {
  import opened Prelude
  import opened Market
  import opened Backtest
  import opened Ledger

  ghost predicate SameLot(p: Option<Position>, q: Option<Position>) {
    match (p, q)
    case (None, None) => true
    case (Some(a), Some(b)) => a.qty == b.qty && a.avgPrice == b.avgPrice
    case _ => false
  }

  ghost predicate LotsMatch(positions: map<Symbol, Position>, trades: seq<Trade>) {
    forall sym :: SameLot(Lookup(positions, sym), Holding(trades, sym))
  }

  /** Cash and positions are what the trade history says. */
  ghost predicate LedgerAgrees(w: World, s: Sim) {
    s.cash == s.initialCash + NetFlow(s.trades, w.costs.commission) && LotsMatch(s.positions, s.trades)
  }

  /** Only the commissions of the sells since the last buy can push cash below zero. */
  ghost predicate CashFloor(commission: real, initialCash: real, cash: real, trades: seq<Trade>) {
    initialCash >= 0.0 && SellsPay(trades) ==> cash >= -(commission * SellsSinceBuy(trades) as real)
  }

  ghost predicate AccountAgrees(w: World, s: Sim) {
    && LedgerAgrees(w, s) && HeldAgrees(s.held, s.positions)
    && CashFloor(w.costs.commission, s.initialCash, s.cash, s.trades)
  }

  function Orders(settled: seq<Settled>): seq<PendingOrder> {
    seq(|settled|, i requires 0 <= i < |settled| => settled[i].order)
  }

  function FilledTrades(settled: seq<Settled>): seq<Trade> {
    if settled == [] then []
    else FilledTrades(settled[..|settled| - 1])
         + match settled[|settled| - 1].outcome
           case Filled(t) => [t]
           case _ => []
  }

  /** `day` is the trading day after `created`. */
  ghost predicate NextDate(w: World, created: Date, day: Date) {
    exists k :: 0 < k < |w.dates| && w.dates[k - 1] == created && w.dates[k] == day
  }

  /** The order can be filled at the open of `day` with this much cash. */
  predicate Fillable(w: World, order: PendingOrder, day: Date, cash: real) {
    var bar := BarOf(w, order.symbol, day);
    bar.Some? && bar.value.open.Some?
    && (order.side.Buy? ==>
          Value(order.qty, FillPrice(Buy, bar.value.open.value, w.costs.slippage)) + w.costs.commission <= cash)
  }

  ghost predicate FillOf(w: World, order: PendingOrder, day: Date, t: Trade) {
    var bar := BarOf(w, order.symbol, day);
    && t.orderId == order.id && t.symbol == order.symbol && t.side == order.side && t.qty == order.qty && t.date == day
    && bar.Some? && bar.value.open.Some? && t.price == FillPrice(t.side, bar.value.open.value, w.costs.slippage)
  }

  /**
   A settled order was cancelled on the day it was placed, or handled on the next trading day: filled at that
   day's open if it could be with the cash at that point, and skipped only if not.
   */
  ghost predicate FairlySettled(w: World, cash: real, e: Settled) {
    match e.outcome
    case Cancelled => e.day == e.order.created
    case Skipped => NextDate(w, e.order.created, e.day) && !Fillable(w, e.order, e.day, cash)
    case Filled(t) =>
      NextDate(w, e.order.created, e.day) && Fillable(w, e.order, e.day, cash) && FillOf(w, e.order, e.day, t)
  }

  /** The cash after the fills among the settled orders. */
  function CashAfter(w: World, initialCash: real, settled: seq<Settled>): real {
    initialCash + NetFlow(FilledTrades(settled), w.costs.commission)
  }

  ghost predicate Numbered(orders: seq<PendingOrder>) {
    forall i :: 0 <= i < |orders| ==> orders[i].id == i
  }

  ghost predicate AllFair(w: World, initialCash: real, settled: seq<Settled>) {
    forall i :: 0 <= i < |settled| ==> FairlySettled(w, CashAfter(w, initialCash, settled[..i]), settled[i])
  }

  lemma FairOneMore(w: World, initialCash: real, settled: seq<Settled>, e: Settled)
    requires AllFair(w, initialCash, settled) && FairlySettled(w, CashAfter(w, initialCash, settled), e)
    ensures AllFair(w, initialCash, settled + [e])
  {
    var all := settled + [e];
    forall i | 0 <= i < |all| ensures FairlySettled(w, CashAfter(w, initialCash, all[..i]), all[i]) {
      assert all[..i] == settled[..i];
      if i == |settled| { assert all[..i] == settled; }
    }
  }

  /**
   Every accepted order is in exactly one place: settled or still queued, in the order of submission.
   `queue` is what is left to handle.
   */
  ghost predicate OrdersAccounted(w: World, s: Sim, queue: seq<PendingOrder>) {
    && Orders(s.settled) + queue == s.submitted
    && |s.submitted| == s.nextId
    && Numbered(s.submitted)
    && AllFair(w, s.initialCash, s.settled)
    && s.trades == FilledTrades(s.settled)
  }

  ghost predicate Good(w: World, s: Sim, queue: seq<PendingOrder>) {
    AccountAgrees(w, s) && OrdersAccounted(w, s, queue)
  }

  /** Between operations: the queue was placed today. */
  ghost predicate Sound(w: World, s: Sim) {
    && Good(w, s, s.pending)
    && (s.date.None? ==> s.submitted == [])
    && forall o :: o in s.pending ==> s.date == Some(o.created)
  }

  lemma FreshSound(w: World, initialCash: real)
    ensures Sound(w, Fresh(initialCash))
  {
  }

  // ----- one order

  /** The state after an executed order, with its trade recorded. */
  function Traded(w: World, s: Sim, day: Date, order: PendingOrder, trade: Trade): Sim {
    Execute(w, s, day, order, trade.price).(trades := s.trades + [trade])
  }

  ghost predicate TradeOf(order: PendingOrder, trade: Trade) {
    trade.symbol == order.symbol && trade.side == order.side && trade.qty == order.qty
  }

  lemma FillsSameLot(p: Option<Position>, q: Option<Position>, qty: real, price: real)
    requires SameLot(p, q)
    ensures SameLot(Some(BuyLot(p, qty, price)), Some(BuyLot(q, qty, price)))
    ensures SameLot(SellLot(p, qty, price), SellLot(q, qty, price))
  {
  }

  lemma LedgerKept(w: World, s: Sim, day: Date, order: PendingOrder, trade: Trade)
    requires LedgerAgrees(w, s) && TradeOf(order, trade)
    ensures LedgerAgrees(w, Traded(w, s, day, order, trade))
  {
    var t := Traded(w, s, day, order, trade);
    assert t.trades[..|t.trades| - 1] == s.trades;
    FillsSameLot(Lookup(s.positions, order.symbol), Holding(s.trades, order.symbol), order.qty, trade.price);
    forall sym ensures SameLot(Lookup(t.positions, sym), Holding(t.trades, sym)) {
      assert SameLot(Lookup(s.positions, sym), Holding(s.trades, sym));
    }
  }

  lemma FloorKept(w: World, s: Sim, day: Date, order: PendingOrder, trade: Trade)
    requires CashFloor(w.costs.commission, s.initialCash, s.cash, s.trades) && TradeOf(order, trade)
    requires order.side.Buy? ==> Value(order.qty, trade.price) + w.costs.commission <= s.cash
    ensures var t := Traded(w, s, day, order, trade);
      CashFloor(w.costs.commission, t.initialCash, t.cash, t.trades)
  {
    var t := Traded(w, s, day, order, trade);
    assert t.trades[..|t.trades| - 1] == s.trades;
    assert trade in t.trades && forall x :: x in s.trades ==> x in t.trades;
    if SellsPay(t.trades) {
      assert SellsPay(s.trades);
      var n := SellsSinceBuy(s.trades) as real;
      assert w.costs.commission * (n + 1.0) == w.costs.commission * n + w.costs.commission;
    }
  }

  lemma AccountKept(w: World, s: Sim, day: Date, order: PendingOrder, trade: Trade, t: Sim)
    requires AccountAgrees(w, s) && TradeOf(order, trade)
    requires order.side.Buy? ==> Value(order.qty, trade.price) + w.costs.commission <= s.cash
    requires t.(prognosisLog := [], settled := [])
          == Traded(w, s, day, order, trade).(prognosisLog := [], settled := [])
    ensures AccountAgrees(w, t)
  {
    LedgerKept(w, s, day, order, trade);
    FloorKept(w, s, day, order, trade);
    ExecuteKeepsHeld(w, s, day, order, trade.price);
  }

  lemma SettleOne(settled: seq<Settled>, e: Settled)
    ensures Orders(settled + [e]) == Orders(settled) + [e.order]
    ensures FilledTrades(settled + [e]) == FilledTrades(settled) + if e.outcome.Filled? then [e.outcome.trade] else []
  {
    assert (settled + [e])[..|settled + [e]| - 1] == settled;
  }

  lemma AccountedKept(w: World, s: Sim, t: Sim, e: Settled, queue: seq<PendingOrder>)
    requires queue != [] && OrdersAccounted(w, s, queue) && e.order == queue[0]
    requires FairlySettled(w, CashAfter(w, s.initialCash, s.settled), e)
    requires t.settled == s.settled + [e] && t.submitted == s.submitted && t.nextId == s.nextId
    requires t.initialCash == s.initialCash
    requires t.trades == s.trades + if e.outcome.Filled? then [e.outcome.trade] else []
    ensures OrdersAccounted(w, t, queue[1..])
  {
    SettleOne(s.settled, e);
    FairOneMore(w, s.initialCash, s.settled, e);
    assert Orders(t.settled) + queue[1..] == Orders(s.settled) + queue;
  }

  lemma SkipKeeps(w: World, s: Sim, day: Date, queue: seq<PendingOrder>)
    requires queue != [] && NextDate(w, queue[0].created, day) && Good(w, s, queue)
    requires !Fillable(w, queue[0], day, s.cash)
    ensures Good(w, Skip(s, day, queue[0]), queue[1..])
  {
    AccountedKept(w, s, Skip(s, day, queue[0]), Settled(queue[0], day, Skipped), queue);
  }

  lemma FillKeeps(w: World, s: Sim, day: Date, queue: seq<PendingOrder>, trade: Trade, log: seq<LogEntry>)
    requires queue != [] && Good(w, s, queue)
    requires TradeOf(queue[0], trade) && FairlySettled(w, s.cash, Settled(queue[0], day, Filled(trade)))
    requires queue[0].side.Buy? ==> Value(queue[0].qty, trade.price) + w.costs.commission <= s.cash
    ensures Good(w, Recorded(w, s, day, queue[0], trade, log), queue[1..])
  {
    var t := Recorded(w, s, day, queue[0], trade, log);
    AccountedKept(w, s, t, Settled(queue[0], day, Filled(trade)), queue);
    AccountKept(w, s, day, queue[0], trade, t);
  }

  function Recorded(w: World, s: Sim, day: Date, order: PendingOrder, trade: Trade, log: seq<LogEntry>): Sim {
    Traded(w, s, day, order, trade).(prognosisLog := log, settled := s.settled + [Settled(order, day, Filled(trade))])
  }

  /** A processed order is filled at the day's open if it can be, and skipped otherwise. */
  lemma ProcessShape(w: World, s: Sim, day: Date, order: PendingOrder) returns (trade: Trade, log: seq<LogEntry>)
    requires NextDate(w, order.created, day)
    ensures !Fillable(w, order, day, s.cash) ==> ProcessOrder(w, s, day, order) == Skip(s, day, order)
    ensures Fillable(w, order, day, s.cash) ==>
      ProcessOrder(w, s, day, order) == Recorded(w, s, day, order, trade, log)
      && TradeOf(order, trade) && FairlySettled(w, s.cash, Settled(order, day, Filled(trade)))
      && (order.side.Buy? ==> Value(order.qty, trade.price) + w.costs.commission <= s.cash)
  {
    var bar := BarOf(w, order.symbol, day);
    trade, log := Trade(order.id, order.symbol, order.side, order.qty, 0.0, day), s.prognosisLog;
    if bar.Some? && bar.value.open.Some? {
      trade := trade.(price := FillPrice(order.side, bar.value.open.value, w.costs.slippage));
      log := s.prognosisLog + PrognosisRows(w, s.index, day, order, bar.value.close);
    }
  }

  lemma ProcessFrame(w: World, s: Sim, day: Date, order: PendingOrder)
    ensures var t := ProcessOrder(w, s, day, order);
      t.date == s.date && t.pending == s.pending && t.initialCash == s.initialCash
  {
  }

  lemma ProcessKeeps(w: World, s: Sim, day: Date, queue: seq<PendingOrder>)
    requires queue != [] && NextDate(w, queue[0].created, day) && Good(w, s, queue)
    ensures var t := ProcessOrder(w, s, day, queue[0]);
      Good(w, t, queue[1..]) && t.date == s.date && t.pending == s.pending && t.initialCash == s.initialCash
  {
    var t := ProcessOrder(w, s, day, queue[0]);
    var trade, log := ProcessShape(w, s, day, queue[0]);
    ProcessFrame(w, s, day, queue[0]);
    if Fillable(w, queue[0], day, s.cash) {
      FillKeeps(w, s, day, queue, trade, log);
      assert t == Recorded(w, s, day, queue[0], trade, log);
      assert Good(w, t, queue[1..]);
    } else {
      SkipKeeps(w, s, day, queue);
      assert t == Skip(s, day, queue[0]);
      assert Good(w, t, queue[1..]);
    }
  }

  lemma {:induction false} ProcessAllKeeps(w: World, s: Sim, day: Date, queue: seq<PendingOrder>)
    requires Good(w, s, queue) && forall o :: o in queue ==> NextDate(w, o.created, day)
    ensures var t := ProcessAll(w, s, day, queue);
      Good(w, t, []) && t.date == s.date && t.pending == s.pending && t.initialCash == s.initialCash
    decreases |queue|
  {
    if queue != [] {
      ProcessKeeps(w, s, day, queue);
      ProcessAllKeeps(w, ProcessOrder(w, s, day, queue[0]), day, queue[1..]);
    }
  }

  lemma OpenDayKeeps(w: World, s: Sim, k: nat)
    requires k < |w.dates| && Sound(w, s) && (s.date.Some? ==> k > 0 && s.date.value == w.dates[k - 1])
    ensures Sound(w, OpenDay(w, s, k))
    ensures OpenDay(w, s, k).date == Some(w.dates[k]) && OpenDay(w, s, k).initialCash == s.initialCash
  {
    var t := s.(index := k, date := Some(w.dates[k]), pending := []);
    assert Good(w, t, s.pending);
    forall o | o in s.pending ensures NextDate(w, o.created, w.dates[k]) { assert w.dates[k - 1] == o.created; }
    ProcessAllKeeps(w, t, w.dates[k], s.pending);
  }

  lemma CloseDayKeeps(w: World, s: Sim, day: Date)
    requires Sound(w, s)
    ensures Sound(w, CloseDay(w, s, day))
  {
    var t := CloseDay(w, s, day);
    forall sym ensures SameLot(Lookup(t.positions, sym), Holding(t.trades, sym)) {
      assert SameLot(Lookup(s.positions, sym), Holding(s.trades, sym));
    }
  }

  // ----- the strategy's calls

  lemma SubmitKeeps(w: World, s: Sim, sym: Symbol, qty: real, side: Side, context: Option<Prognosis>)
    requires Sound(w, s)
    ensures Sound(w, Submit(s, sym, qty, side, context)) && Submit(s, sym, qty, side, context).date == s.date
  {
    if s.date.Some? {
      var t := Submit(s, sym, qty, side, context);
      assert Orders(s.settled) + t.pending == t.submitted;
    }
  }

  lemma {:induction false} CloseEachKeeps(w: World, s: Sim, symbols: seq<Symbol>)
    requires Sound(w, s)
    ensures Sound(w, CloseEach(s, symbols)) && CloseEach(s, symbols).date == s.date
    decreases |symbols|
  {
    if symbols != [] {
      if symbols[0] !in s.positions {
        CloseEachKeeps(w, s, symbols[1..]);
      } else {
        var qty := s.positions[symbols[0]].qty;
        var side := if qty > 0.0 then Sell else Buy;
        SubmitKeeps(w, s, symbols[0], Abs(qty), side, None);
        CloseEachKeeps(w, Submit(s, symbols[0], Abs(qty), side, None), symbols[1..]);
      }
    }
  }

  lemma {:induction false} CancelsTradeNothing(before: seq<Settled>, after: seq<Settled>)
    requires forall i :: 0 <= i < |after| ==> after[i].outcome.Cancelled?
    ensures FilledTrades(before + after) == FilledTrades(before)
    decreases |after|
  {
    if after == [] {
      assert before + after == before;
    } else {
      var m := |after| - 1;
      CancelsTradeNothing(before, after[..m]);
      assert (before + after)[..|before + after| - 1] == before + after[..m];
    }
  }

  lemma CancelIsFair(w: World, cash: real, order: PendingOrder, day: Date)
    requires order.created == day
    ensures FairlySettled(w, cash, Settled(order, day, Cancelled))
  {
  }

  lemma {:induction false} CancelsFair(w: World, initialCash: real, settled: seq<Settled>, orders: seq<PendingOrder>,
                                       day: Date)
    requires AllFair(w, initialCash, settled) && forall o :: o in orders ==> o.created == day
    ensures AllFair(w, initialCash, settled + Cancels(orders, day))
    decreases |orders|
  {
    if orders == [] {
      assert settled + Cancels(orders, day) == settled;
    } else {
      var m := |orders| - 1;
      var before, e := settled + Cancels(orders[..m], day), Settled(orders[m], day, Cancelled);
      CancelsFair(w, initialCash, settled, orders[..m], day);
      CancelIsFair(w, CashAfter(w, initialCash, before), orders[m], day);
      FairOneMore(w, initialCash, before, e);
      assert settled + Cancels(orders, day) == before + [e];
    }
  }

  lemma CancelsInOrder(settled: seq<Settled>, orders: seq<PendingOrder>, day: Date)
    ensures Orders(settled + Cancels(orders, day)) == Orders(settled) + orders
  {
  }

  lemma CancelsSettle(w: World, initialCash: real, settled: seq<Settled>, orders: seq<PendingOrder>, day: Date)
    requires AllFair(w, initialCash, settled) && forall o :: o in orders ==> o.created == day
    ensures Orders(settled + Cancels(orders, day)) == Orders(settled) + orders
    ensures AllFair(w, initialCash, settled + Cancels(orders, day))
    ensures FilledTrades(settled + Cancels(orders, day)) == FilledTrades(settled)
  {
    CancelsFair(w, initialCash, settled, orders, day);
    CancelsInOrder(settled, orders, day);
    CancelsTradeNothing(settled, Cancels(orders, day));
  }

  lemma CancelKeeps(w: World, s: Sim)
    requires Sound(w, s)
    ensures Sound(w, CancelAll(s)) && CancelAll(s).date == s.date
  {
    if s.date.Some? {
      var t := CancelAll(s);
      CancelsSettle(w, s.initialCash, s.settled, s.pending, s.date.value);
      assert Orders(t.settled) + t.pending == s.submitted;
      assert AccountAgrees(w, t);
    }
  }

  lemma CloseAllKeeps(w: World, s: Sim, cancelOrders: bool)
    requires Sound(w, s)
    ensures Sound(w, CloseAllPositions(s, cancelOrders)) && CloseAllPositions(s, cancelOrders).date == s.date
  {
    CancelKeeps(w, s);
    var t := if cancelOrders then CancelAll(s) else s;
    CloseEachKeeps(w, t, t.held);
  }

  lemma ObeyKeeps(w: World, s: Sim, c: Command)
    requires Sound(w, s)
    ensures Sound(w, Obey(w, s, c)) && Obey(w, s, c).date == s.date && Obey(w, s, c).initialCash == s.initialCash
  {
    ObeyOnlyQueues(w, s, c);
    match c
    case PlaceOrder(symbol, qty, side, context) => SubmitKeeps(w, s, symbol, qty, side, context);
    case CloseAll(cancelOrders) => CloseAllKeeps(w, s, cancelOrders);
    case _ =>
  }

  /** A sound state on the same day, of the same account. */
  ghost predicate StaysSound(w: World, s: Sim, t: Sim) {
    Sound(w, t) && t.date == s.date && t.initialCash == s.initialCash
  }

  lemma {:induction false} CallbackKeeps(w: World, strategy: Strategy, calls: nat, r: Run, day: Date)
    requires Sound(w, r.sim)
    ensures StaysSound(w, r.sim, Callback(w, strategy, calls, r, day).sim)
    decreases calls
  {
    var c := strategy(r.seen);
    if !c.Raise? && calls > 0 && !c.Return? {
      var next := r.(sim := Obey(w, r.sim, c), seen := r.seen + [Answer(w, r.sim, c)]);
      ObeyKeeps(w, r.sim, c);
      CallbackKeeps(w, strategy, calls - 1, next, day);
      assert Callback(w, strategy, calls, r, day) == Callback(w, strategy, calls - 1, next, day);
    }
  }

  // ----- whole runs

  lemma FillsSound(w: World, strategy: Strategy, calls: nat, initialCash: real, k: nat)
    requires k < |w.dates| && Increasing(w.dates)
    ensures Sound(w, AfterFills(w, strategy, calls, Fresh(initialCash), k).sim)
    ensures AfterFills(w, strategy, calls, Fresh(initialCash), k).sim.date == Some(w.dates[k])
    ensures AfterFills(w, strategy, calls, Fresh(initialCash), k).sim.initialCash == initialCash
    decreases k, 0
  {
    FreshSound(w, initialCash);
    if k > 0 {
      CallbackSound(w, strategy, calls, initialCash, k - 1);
      OpenDayKeeps(w, AfterCallback(w, strategy, calls, Fresh(initialCash), k - 1).sim, k);
    }
  }

  lemma CallbackSound(w: World, strategy: Strategy, calls: nat, initialCash: real, k: nat)
    requires k < |w.dates| && Increasing(w.dates)
    ensures Sound(w, AfterCallback(w, strategy, calls, Fresh(initialCash), k).sim)
    ensures AfterCallback(w, strategy, calls, Fresh(initialCash), k).sim.date == Some(w.dates[k])
    ensures AfterCallback(w, strategy, calls, Fresh(initialCash), k).sim.initialCash == initialCash
    decreases k, 2
  {
    FillsSound(w, strategy, calls, initialCash, k);
    var r := AfterFills(w, strategy, calls, Fresh(initialCash), k);
    CloseDayKeeps(w, r.sim, w.dates[k]);
    var b := BeforeCallback(w, strategy, calls, Fresh(initialCash), k);
    CallbackKeeps(w, strategy, calls, b.(seen := b.seen + [Today(w.dates[k])]), w.dates[k]);
  }

  /**
   Accepted order number `i` has left the queue exactly once, as the `i`-th order to do so, or is still
   waiting in it at its place; it was cancelled on its own day, or handled on the next trading day and
   skipped only if it had no open or was a buy above the cash at that point.
   */
  lemma OrdersHandledOnceInOrder(w: World, strategy: Strategy, calls: nat, initialCash: real, k: nat)
    requires k < |w.dates| && Increasing(w.dates)
    ensures var s := AfterCallback(w, strategy, calls, Fresh(initialCash), k).sim;
      |s.settled| + |s.pending| == s.nextId
      && (forall i :: 0 <= i < |s.settled| ==>
            s.settled[i].order.id == i
            && FairlySettled(w, CashAfter(w, initialCash, s.settled[..i]), s.settled[i]))
      && (forall i :: 0 <= i < |s.pending| ==> s.pending[i].id == |s.settled| + i)
      && s.trades == FilledTrades(s.settled)
  {
    CallbackSound(w, strategy, calls, initialCash, k);
    var s := AfterCallback(w, strategy, calls, Fresh(initialCash), k).sim;
    forall i | 0 <= i < |s.settled| ensures s.settled[i].order.id == i {
      assert s.submitted[i] == s.settled[i].order;
    }
    forall i | 0 <= i < |s.pending| ensures s.pending[i].id == |s.settled| + i {
      assert s.submitted[|s.settled| + i] == s.pending[i];
    }
  }

  /** What the trade history says of one symbol's position. */
  lemma LotRight(lot: Option<Position>, trades: seq<Trade>, sym: Symbol)
    requires SameLot(lot, Holding(trades, sym))
    ensures AllTracked(trades, sym) ==> QtyOf(lot) == NetQty(trades, sym)
    ensures Orderly(trades, sym) ==> Books(lot, NetQty(trades, sym), Basis(trades, sym))
  {
    PositionFollowsTrades(trades, sym);
    if Orderly(trades, sym) { OrderlyPosition(trades, sym); }
  }

  lemma SoundAccount(w: World, s: Sim, sym: Symbol)
    requires AccountAgrees(w, s)
    ensures s.cash == s.initialCash + NetFlow(s.trades, w.costs.commission)
    ensures s.initialCash >= 0.0 && SellsPay(s.trades) ==>
      s.cash >= -(w.costs.commission * SellsSinceBuy(s.trades) as real)
    ensures AllTracked(s.trades, sym) ==> QtyOf(Lookup(s.positions, sym)) == NetQty(s.trades, sym)
    ensures Orderly(s.trades, sym) ==> Books(Lookup(s.positions, sym), NetQty(s.trades, sym), Basis(s.trades, sym))
  {
    assert SameLot(Lookup(s.positions, sym), Holding(s.trades, sym));
    LotRight(Lookup(s.positions, sym), s.trades, sym);
  }

  /**
   Cash and positions of every reachable state follow from the trade history alone: cash is the initial
   cash plus all net proceeds minus all costs, and is below zero by at most the commissions of the sells
   since the last buy; a symbol whose fills were all tracked is held at bought minus sold; an orderly one
   also has the average-cost basis.
   */
  lemma RunConserves(w: World, strategy: Strategy, calls: nat, initialCash: real, k: nat, sym: Symbol) returns (s: Sim)
    requires k < |w.dates| && Increasing(w.dates)
    ensures s == AfterCallback(w, strategy, calls, Fresh(initialCash), k).sim
    ensures s.cash == initialCash + NetFlow(s.trades, w.costs.commission)
    ensures initialCash >= 0.0 && SellsPay(s.trades) ==>
      s.cash >= -(w.costs.commission * SellsSinceBuy(s.trades) as real)
    ensures AllTracked(s.trades, sym) ==> QtyOf(Lookup(s.positions, sym)) == NetQty(s.trades, sym)
    ensures Orderly(s.trades, sym) ==> Books(Lookup(s.positions, sym), NetQty(s.trades, sym), Basis(s.trades, sym))
  {
    CallbackSound(w, strategy, calls, initialCash, k);
    s := AfterCallback(w, strategy, calls, Fresh(initialCash), k).sim;
    SoundAccount(w, s, sym);
  }

  // ----- valuation

  /** The stored market values of the held positions. */
  function StoredValue(held: seq<Symbol>, positions: map<Symbol, Position>): real {
    if held == [] then 0.0
    else
      StoredValue(held[..|held| - 1], positions)
      + var sym := held[|held| - 1]; if sym in positions then positions[sym].marketValue else 0.0
  }

  /** The part of it that belongs to positions without a price today. */
  function UnpricedValue(held: seq<Symbol>, positions: map<Symbol, Position>, prices: map<Symbol, real>): real {
    if held == [] then 0.0
    else
      UnpricedValue(held[..|held| - 1], positions, prices)
      + var sym := held[|held| - 1];
        if sym in positions && sym !in prices then positions[sym].marketValue else 0.0
  }

  lemma {:induction false} ValueSplits(held: seq<Symbol>, all: seq<Symbol>, positions: map<Symbol, Position>,
                                       prices: map<Symbol, real>)
    requires forall sym :: sym in held ==> sym in all
    ensures StoredValue(held, Revalued(positions, all, prices))
         == PricedValue(held, positions, prices) + UnpricedValue(held, positions, prices)
    ensures UnpricedValue(held, Revalued(positions, all, prices), prices) == UnpricedValue(held, positions, prices)
  {
    if held != [] {
      assert held[|held| - 1] in held;
      ValueSplits(held[..|held| - 1], all, positions, prices);
    }
  }

  /** The symbol has a bar on the day. */
  predicate Trades(w: World, sym: Symbol, day: Date) { BarOf(w, sym, day).Some? }

  /** What the stored values of the held symbols without a bar on the day add up to. */
  function SuspendedValue(w: World, held: seq<Symbol>, positions: map<Symbol, Position>, day: Date): real {
    if held == [] then 0.0
    else
      SuspendedValue(w, held[..|held| - 1], positions, day)
      + var sym := held[|held| - 1];
        if sym in positions && !Trades(w, sym, day) then positions[sym].marketValue else 0.0
  }

  lemma {:induction false} SuspendedIsUnpriced(w: World, held: seq<Symbol>, positions: map<Symbol, Position>, day: Date)
    ensures UnpricedValue(held, positions, Closes(w, positions, day)) == SuspendedValue(w, held, positions, day)
  {
    if held != [] { SuspendedIsUnpriced(w, held[..|held| - 1], positions, day); }
  }

  /** Every held symbol has a positive stored value. */
  ghost predicate AllWorth(positions: map<Symbol, Position>) {
    forall sym :: sym in positions ==> positions[sym].marketValue > 0.0
  }

  lemma {:induction false} SuspendedSign(w: World, held: seq<Symbol>, positions: map<Symbol, Position>, day: Date)
    requires AllWorth(positions) && forall sym :: sym in held ==> sym in positions
    ensures SuspendedValue(w, held, positions, day) >= 0.0
    ensures SuspendedValue(w, held, positions, day) == 0.0 <==> forall sym :: sym in held ==> Trades(w, sym, day)
  {
    if held != [] {
      var before, last := held[..|held| - 1], held[|held| - 1];
      assert held == before + [last];
      assert last in held;
      SuspendedSign(w, before, positions, day);
      assert forall sym :: sym in held <==> sym in before || sym == last;
    }
  }

  /**
   After the close, equity is cash plus the stored market values minus those, as they were before, of the
   held symbols that did not trade that day.
   */
  lemma EquityLeavesOutUnpriced(w: World, s: Sim, day: Date)
    ensures var t := CloseDay(w, s, day);
      t.equity == t.cash + StoredValue(t.held, t.positions) - SuspendedValue(w, s.held, s.positions, day)
  {
    ValueSplits(s.held, s.held, s.positions, Closes(w, s.positions, day));
    SuspendedIsUnpriced(w, s.held, s.positions, day);
  }

  /**
   With positions of positive worth equity is the whole worth of the account if and only if every held symbol
   traded that day, and less than it otherwise.
   */
  lemma EquityIsWorthIff(w: World, s: Sim, day: Date)
    requires HeldAgrees(s.held, s.positions) && AllWorth(s.positions)
    ensures var t := CloseDay(w, s, day); var worth := t.cash + StoredValue(t.held, t.positions);
      && t.equity <= worth
      && (t.equity == worth <==> forall sym :: sym in s.positions ==> Trades(w, sym, day))
  {
    EquityLeavesOutUnpriced(w, s, day);
    SuspendedSign(w, s.held, s.positions, day);
  }

  // ----- a symbol that stops trading

  /** One symbol that trades at `price` on the second of three days only, and costs nothing to trade. */
  function Delisted(price: real): World {
    World(map["A" := [Row(2, Bar(Some(price), price, price, price, 0.0))]], [1, 2, 3], Costs(0.0, 0.0))
  }

  /** The account after a share was bought on the second day and that day has closed. */
  function Bought(cash: real, price: real): Sim {
    var w := Delisted(price);
    CloseDay(w, OpenDay(w, Submit(StartRun(w, Fresh(cash)), "A", 1.0, Buy, None), 1), 2)
  }

  lemma DelistedBars(price: real)
    ensures BarOf(Delisted(price), "A", 2) == Some(Bar(Some(price), price, price, price, 0.0))
    ensures BarOf(Delisted(price), "A", 3) == None
  {
    var rows := Delisted(price).frames["A"];
    assert rows[1..] == [] && BarOn(rows[1..], 3) == None;
  }

  /** A buy of one share at a price that the cash covers, without costs. */
  lemma ShareBought(w: World, s: Sim, day: Date, order: PendingOrder, bar: Bar, price: real)
    requires BarOf(w, order.symbol, day) == Some(bar) && bar.open == Some(price) && w.costs == Costs(0.0, 0.0)
    requires order.side == Buy && order.qty == 1.0 && price <= s.cash && order.symbol !in s.positions
    ensures var t := ProcessOrder(w, s, day, order);
      && t.cash == s.cash - price && t.pending == s.pending && t.held == s.held + [order.symbol]
      && t.positions == s.positions[order.symbol := Position(1.0, Some(price), price)]
  {
    assert FillPrice(Buy, price, 0.0) == price && Value(1.0, price) == price;
  }

  lemma OneOrder(w: World, s: Sim, day: Date, order: PendingOrder)
    requires s.pending == [order]
    ensures ExecutePending(w, s, day) == ProcessOrder(w, s.(pending := []), day, order)
  {
    var t := ProcessOrder(w, s.(pending := []), day, order);
    assert [order][1..] == [];
    assert ProcessAll(w, t, day, []) == t;
  }

  /** The close of an account that holds one share with a price. */
  lemma ShareClosed(w: World, s: Sim, day: Date, sym: Symbol, price: real)
    requires s.held == [sym] && s.positions == map[sym := Position(1.0, Some(price), price)]
    requires BarOf(w, sym, day).Some? && BarOf(w, sym, day).value.close == price
    ensures var t := CloseDay(w, s, day);
      && t.positions == s.positions && t.held == s.held && t.cash == s.cash && t.pending == s.pending
      && t.equity == s.cash + price
  {
    var prices := Closes(w, s.positions, day);
    assert prices[sym] == price && Value(1.0, price) == price;
    assert [sym][..0] == [];
    assert PricedValue([], s.positions, prices) == 0.0;
    assert PricedValue([sym], s.positions, prices) == Value(1.0, price);
  }

  lemma BoughtIs(cash: real, price: real)
    requires 0.0 < price <= cash
    ensures var s := Bought(cash, price);
      && s.cash == cash - price && s.equity == cash && s.pending == []
      && s.held == ["A"] && s.positions == map["A" := Position(1.0, Some(price), price)]
  {
    var w := Delisted(price);
    var order := PendingOrder(0, "A", 1.0, Buy, 1, None);
    var placed := Submit(StartRun(w, Fresh(cash)), "A", 1.0, Buy, None);
    var morning := placed.(index := 1, date := Some(2));
    DelistedBars(price);
    assert morning.pending == [order];
    OneOrder(w, morning, 2, order);
    ShareBought(w, morning.(pending := []), 2, order, BarOf(w, "A", 2).value, price);
    ShareClosed(w, OpenDay(w, placed, 1), 2, "A", price);
  }

  /** On the third day the share has no bar: it is still held at its value, but equity has lost all of it. */
  lemma DelistedShareIsLost(cash: real, price: real)
    requires 0.0 < price <= cash
    ensures var s := Bought(cash, price); var t := CloseDay(Delisted(price), OpenDay(Delisted(price), s, 2), 3);
      s.equity == cash && t.equity == cash - price && t.cash + StoredValue(t.held, t.positions) == cash
  {
    var w, s := Delisted(price), Bought(cash, price);
    BoughtIs(cash, price);
    DelistedBars(price);
    var morning := OpenDay(w, s, 2);
    assert morning == s.(index := 2, date := Some(3), pending := []);
    var t := CloseDay(w, morning, 3);
    assert ["A"][..0] == [];
    EquityLeavesOutUnpriced(w, morning, 3);
    assert SuspendedValue(w, ["A"], morning.positions, 3) == price;
    assert t.positions == morning.positions;
  }
}
