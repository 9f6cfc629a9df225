/**
 The backtest engine in the source's own form: an account and a client whose fields change in place.
 Every method is tied to the function of the same step in `Backtest`.
 */
module Simulation {
  import opened Prelude
  import opened Market
  import opened Backtest

  class SimulationAccount {
    const initialCash: real
    var cash: real
    var positions: map<Symbol, Position>
    var held: seq<Symbol>
    var equity: real
    var portfolioValue: real
    var tradeHistory: seq<Trade>

    constructor (initialCash: real)
      ensures this.initialCash == initialCash && cash == initialCash && equity == initialCash
      ensures positions == map[] && held == [] && portfolioValue == 0.0 && tradeHistory == []
    {
      this.initialCash, cash, equity := initialCash, initialCash, initialCash;
      positions, held, portfolioValue, tradeHistory := map[], [], 0.0, [];
    }

    method Put(symbol: Symbol, position: Position)
      modifies this`positions, this`held
      ensures positions == old(positions)[symbol := position]
      ensures held == if symbol in old(positions) then old(held) else old(held) + [symbol]
    {
      if symbol !in positions {
        held := held + [symbol];
      }
      positions := positions[symbol := position];
    }

    /** Values every position that has a price today; the others keep their last value and add nothing. */
    method UpdatePortfolioValue(prices: map<Symbol, real>)
      requires HeldAgrees(held, positions)
      modifies this`positions, this`portfolioValue, this`equity
      ensures positions == Revalued(old(positions), held, prices)
      ensures portfolioValue == PricedValue(held, old(positions), prices)
      ensures equity == cash + portfolioValue
    {
      portfolioValue := 0.0;
      for i := 0 to |held|
        invariant Valued(old(positions), held, i, prices, positions, portfolioValue)
      {
        ValuedOneMore(old(positions), held, i, prices, positions, portfolioValue);
        ValuePosition(held[i], prices);
      }
      assert held[..|held|] == held;
      equity := cash + portfolioValue;
    }

    method ValuePosition(symbol: Symbol, prices: map<Symbol, real>)
      requires symbol in positions
      modifies this`positions, this`portfolioValue
      ensures positions == old(positions)[symbol := Revalue(old(positions)[symbol], symbol, prices)]
      ensures portfolioValue == old(portfolioValue)
        + if symbol in prices then Value(old(positions)[symbol].qty, prices[symbol]) else 0.0
    {
      if symbol in prices {
        var position := positions[symbol];
        positions := positions[symbol := position.(marketValue := Value(position.qty, prices[symbol]))];
        portfolioValue := portfolioValue + positions[symbol].marketValue;
      } else {
        assert positions == positions[symbol := positions[symbol]];
      }
    }
  }

  /** The first `i` symbols have been valued: `now` are the positions, and `value` is the sum so far. */
  ghost predicate Valued(before: map<Symbol, Position>, held: seq<Symbol>, i: nat, prices: map<Symbol, real>,
                         now: map<Symbol, Position>, value: real)
    requires i <= |held|
  {
    now == Revalued(before, held[..i], prices) && value == PricedValue(held[..i], before, prices)
  }

  lemma ValuedOneMore(before: map<Symbol, Position>, held: seq<Symbol>, i: nat, prices: map<Symbol, real>,
                      now: map<Symbol, Position>, value: real)
    requires HeldAgrees(held, before) && i < |held| && Valued(before, held, i, prices, now, value)
    ensures held[i] in now
    ensures Valued(before, held, i + 1, prices, now[held[i] := Revalue(now[held[i]], held[i], prices)],
                   value + if held[i] in prices then Value(now[held[i]].qty, prices[held[i]]) else 0.0)
  {
    var symbol := held[i];
    assert held[..i + 1] == held[..i] + [symbol] && held[..i + 1][..i] == held[..i];
    assert symbol in held && symbol !in held[..i];
    RevaluedOneMore(before, held[..i], symbol, prices);
  }

  class RealisticSimulationClient {
    const world: World
    const account: SimulationAccount
    var currentDate: Option<Date>
    var currentIndex: int
    var orderIdCounter: nat
    var pendingOrders: seq<PendingOrder>
    var prognosisLog: seq<LogEntry>
    ghost var submitted: seq<PendingOrder>
    ghost var settled: seq<Settled>

    ghost function State(): Sim
      reads this, account
    {
      Sim(account.initialCash, account.cash, account.positions, account.held, account.portfolioValue,
          account.equity, account.tradeHistory, currentIndex, currentDate, orderIdCounter, pendingOrders,
          prognosisLog, submitted, settled)
    }

    ghost predicate Valid()
      reads this, account
    {
      HeldAgrees(account.held, account.positions)
    }

    constructor (world: World, initialCash: real)
      ensures Valid() && State() == Fresh(initialCash) && this.world == world && fresh(account)
    {
      this.world := world;
      account := new SimulationAccount(initialCash);
      currentDate, currentIndex, orderIdCounter, pendingOrders := None, -1, 0, [];
      prognosisLog, submitted, settled := [], [], [];
    }

    method SubmitOrder(symbol: Symbol, qty: real, side: Side, context: Option<Prognosis>) returns (id: Option<nat>)
      modifies this
      ensures State() == Submit(old(State()), symbol, qty, side, context)
      ensures id == if old(currentDate).None? then None else Some(old(orderIdCounter))
    {
      if currentDate.None? {
        return None;
      }
      var order := PendingOrder(orderIdCounter, symbol, qty, side, currentDate.value, context);
      id := Some(orderIdCounter);
      orderIdCounter := orderIdCounter + 1;
      pendingOrders := pendingOrders + [order];
      submitted := submitted + [order];
    }

    method ProcessBuyExecution(symbol: Symbol, qty: real, price: real)
      modifies account
      ensures State() == BuyExecution(old(State()), symbol, qty, price, world.costs.commission)
    {
      account.cash := account.cash - (Value(qty, price) + world.costs.commission);
      if symbol in account.positions {
        var current := account.positions[symbol];
        account.Put(symbol, Position(current.qty + qty, AverageAfter(current.qty, current.avgPrice, qty, price),
                                     Value(current.qty + qty, price)));
      } else {
        account.Put(symbol, Position(qty, Some(price), Value(qty, price)));
      }
    }

    method ProcessSellExecution(symbol: Symbol, qty: real, price: real)
      modifies account
      ensures State() == SellExecution(old(State()), symbol, qty, price, world.costs.commission)
    {
      account.cash := account.cash + (Value(qty, price) - world.costs.commission);
      if symbol !in account.positions {
        account.Put(symbol, Position(-qty, Some(price), Value(-qty, price)));
        return;
      }
      var position := account.positions[symbol];
      if position.qty > 0.0 {
        if qty >= position.qty {
          account.positions := account.positions - {symbol};
          account.held := Remove(account.held, symbol);
        } else {
          account.Put(symbol, Position(position.qty - qty, position.avgPrice, Value(position.qty - qty, price)));
        }
      } else {
        assert account.positions == account.positions[symbol := position];
      }
    }

    method ProcessSingleOrder(order: PendingOrder)
      requires currentDate.Some?
      modifies this`prognosisLog, this`settled, account
      ensures State() == ProcessOrder(world, old(State()), currentDate.value, order)
    {
      var today := currentDate.value;
      var bar := BarOf(world, order.symbol, today);
      if bar.None? || bar.value.open.None? {
        settled := settled + [Settled(order, today, Skipped)];
        return;
      }
      var price := bar.value.open.value;
      if order.side.Buy? {
        price := price * (1.0 + world.costs.slippage);
      } else if order.side.Sell? {
        price := price * (1.0 - world.costs.slippage);
      }
      assert price == FillPrice(order.side, bar.value.open.value, world.costs.slippage);
      if order.side.Buy? && Value(order.qty, price) + world.costs.commission > account.cash {
        settled := settled + [Settled(order, today, Skipped)];
        return;
      }
      if order.side.Buy? {
        ProcessBuyExecution(order.symbol, order.qty, price);
      } else if order.side.Sell? {
        ProcessSellExecution(order.symbol, order.qty, price);
      }
      var trade := Trade(order.id, order.symbol, order.side, order.qty, price, today);
      account.tradeHistory := account.tradeHistory + [trade];
      LogPrognosis(order, today, bar.value.close);
      settled := settled + [Settled(order, today, Filled(trade))];
    }

    method LogPrognosis(order: PendingOrder, today: Date, close: real)
      modifies this`prognosisLog
      ensures prognosisLog == old(prognosisLog) + PrognosisRows(world, currentIndex, today, order, close)
    {
      if order.context.None? {
        return;
      }
      var target := currentIndex + 5;
      var targetDate, actual := None, None;
      if 0 <= target < |world.dates| {
        targetDate := Some(world.dates[target]);
        var bar := BarOf(world, order.symbol, targetDate.value);
        if bar.Some? && close != 0.0 {
          actual := Some((bar.value.close - close) / close * 100.0);
        }
      }
      prognosisLog := prognosisLog + [LogEntry(today, order.symbol, order.side, order.context.value.scaled,
                                               order.context.value.unscaled * 100.0, targetDate, actual)];
    }

    method ExecutePendingOrders()
      requires currentDate.Some?
      modifies this`pendingOrders, this`prognosisLog, this`settled, account
      ensures State() == ExecutePending(world, old(State()), currentDate.value)
    {
      var orders := pendingOrders;
      pendingOrders := [];
      ghost var begin := State();
      for i := 0 to |orders|
        invariant ProcessAll(world, State(), currentDate.value, orders[i..])
               == ProcessAll(world, begin, currentDate.value, orders)
      {
        assert orders[i..][0] == orders[i] && orders[i..][1..] == orders[i + 1..];
        ProcessSingleOrder(orders[i]);
      }
    }

    method CloseAllPositions(cancelOrders: bool)
      requires Valid()
      modifies this
      ensures Valid() && State() == Backtest.CloseAllPositions(old(State()), cancelOrders)
    {
      if cancelOrders {
        if currentDate.Some? {
          settled := settled + Cancels(pendingOrders, currentDate.value);
        }
        pendingOrders := [];
      }
      ghost var begin := State();
      var symbols := account.held;
      for i := 0 to |symbols|
        invariant Valid() && State().positions == begin.positions && State().held == begin.held
        invariant CloseEach(State(), symbols[i..]) == CloseEach(begin, symbols)
      {
        assert symbols[i..][0] == symbols[i] && symbols[i..][1..] == symbols[i + 1..];
        var qty := account.positions[symbols[i]].qty;
        var _ := SubmitOrder(symbols[i], Abs(qty), if qty > 0.0 then Sell else Buy, None);
      }
    }

    method GetBars(symbol: Symbol, limit: int) returns (rows: seq<Row>)
      ensures rows == Backtest.GetBars(world, State(), symbol, limit)
    {
      if currentDate.None? || symbol !in world.frames {
        return [];
      }
      rows := Tail(UpTo(world.frames[symbol], currentDate.value), limit);
    }

    method GetSnapshots(symbols: seq<Symbol>) returns (snapshots: map<Symbol, Bar>)
      ensures snapshots == Backtest.GetSnapshots(world, State(), symbols)
    {
      snapshots := map[];
      if currentDate.None? {
        return;
      }
      for i := 0 to |symbols|
        invariant snapshots == Backtest.GetSnapshots(world, State(), symbols[..i])
      {
        assert symbols[..i + 1] == symbols[..i] + [symbols[i]];
        var bar := BarOf(world, symbols[i], currentDate.value);
        if bar.Some? {
          snapshots := snapshots[symbols[i] := bar.value];
        }
      }
      assert symbols[..|symbols|] == symbols;
    }

    method ListPositions() returns (list: seq<PositionView>)
      requires Valid()
      ensures list == Backtest.ListPositions(State(), account.held)
    {
      list := [];
      for i := 0 to |account.held|
        invariant list + Backtest.ListPositions(State(), account.held[i..])
               == Backtest.ListPositions(State(), account.held)
      {
        assert account.held[i..][0] == account.held[i] && account.held[i..][1..] == account.held[i + 1..];
        var p := account.positions[account.held[i]];
        list := list + [PositionView(account.held[i], p.qty, p.avgPrice, p.marketValue, p.qty > 0.0)];
      }
    }

    method ClosingPrices() returns (prices: map<Symbol, real>)
      requires Valid() && currentDate.Some?
      ensures prices == Closes(world, account.positions, currentDate.value)
    {
      prices := map[];
      for i := 0 to |account.held|
        invariant prices == map sym | sym in account.held[..i] && BarOf(world, sym, currentDate.value).Some?
                            :: BarOf(world, sym, currentDate.value).value.close
      {
        assert account.held[..i + 1] == account.held[..i] + [account.held[i]];
        var bar := BarOf(world, account.held[i], currentDate.value);
        if bar.Some? {
          prices := prices[account.held[i] := bar.value.close];
        }
      }
      assert account.held[..|account.held|] == account.held;
    }

    /** Moves to the next trading day: fills at its open, then valuation at its close. */
    method AdvanceDay() returns (more: bool)
      requires Valid() && -1 <= currentIndex
      modifies this, account
      ensures Valid()
      ensures more == (old(currentIndex) + 1 < |world.dates|)
      ensures State() == if more
        then CloseDay(world, OpenDay(world, old(State()), old(currentIndex) + 1), world.dates[old(currentIndex) + 1])
        else old(State())
      ensures more ==> currentIndex == old(currentIndex) + 1 && currentDate == Some(world.dates[currentIndex])
    {
      if currentIndex >= |world.dates| - 1 {
        return false;
      }
      currentIndex := currentIndex + 1;
      currentDate := Some(world.dates[currentIndex]);
      FillsKeepHeld(world, State().(pending := []), currentDate.value, pendingOrders);
      ExecutePendingOrders();
      var prices := ClosingPrices();
      account.UpdatePortfolioValue(prices);
      more := true;
    }

    /** One call of the strategy, answered. */
    method Serve(c: Command) returns (reply: Reply)
      requires Valid()
      modifies this
      ensures Valid() && State() == Obey(world, old(State()), c) && reply == Answer(world, old(State()), c)
    {
      match c
      case AskBars(symbol, limit) => var rows := GetBars(symbol, limit); reply := Bars(rows);
      case AskSnapshots(symbols) => var bars := GetSnapshots(symbols); reply := Snapshots(bars);
      case AskAccount => reply := AccountOf(account.cash, account.equity, account.portfolioValue, account.tradeHistory);
      case AskPositions => var list := ListPositions(); reply := PositionsOf(list);
      case PlaceOrder(symbol, qty, side, context) =>
        var id := SubmitOrder(symbol, qty, side, context);
        reply := Accepted(id);
      case CloseAll(cancelOrders) => CloseAllPositions(cancelOrders); reply := Closing;
      case Return => reply := Closing;
      case Raise => reply := Closing;
    }

    /** The strategy callback of one day. */
    method CallStrategy(strategy: Strategy, calls: nat, seen: seq<Reply>, daily: seq<(Date, real)>, day: Date)
      returns (seen': seq<Reply>, daily': seq<(Date, real)>)
      requires Valid()
      modifies this
      ensures Valid() && currentIndex == old(currentIndex)
      ensures Run(State(), seen', daily') == Callback(world, strategy, calls, Run(old(State()), seen, daily), day)
    {
      seen', daily' := seen, daily;
      var left := calls;
      while true
        invariant Valid() && currentIndex == old(currentIndex) && daily' == daily
        invariant Callback(world, strategy, left, Run(State(), seen', daily), day)
               == Callback(world, strategy, calls, Run(old(State()), seen, daily), day)
        decreases left
      {
        var c := strategy(seen');
        if c.Raise? {
          return;
        }
        if left == 0 || c.Return? {
          daily' := daily' + [(day, account.equity)];
          return;
        }
        ObeyOnlyQueues(world, State(), c);
        var reply := Serve(c);
        seen' := seen' + [reply];
        left := left - 1;
      }
    }

    /** The day loop of a backtest over loaded data. */
    method RunSimulation(strategy: Strategy, calls: nat) returns (seen: seq<Reply>, daily: seq<(Date, real)>)
      requires Valid() && 0 < |world.dates|
      modifies this, account
      ensures Run(State(), seen, daily) == AfterCallback(world, strategy, calls, old(State()), |world.dates| - 1)
    {
      ghost var begin := State();
      currentIndex := 0;
      currentDate := Some(world.dates[0]);
      seen, daily := [], [];
      ghost var k := 0;
      while true
        invariant Valid() && 0 <= k < |world.dates| && currentIndex == k && currentDate == Some(world.dates[k])
        invariant Run(State(), seen, daily) == BeforeCallback(world, strategy, calls, begin, k)
        decreases |world.dates| - k
      {
        var more;
        seen, daily, more := SimulateDay(strategy, calls, seen, daily);
        if !more {
          return;
        }
        NextDay(world, strategy, calls, begin, k);
        k := k + 1;
      }
    }

    /** One turn of the day loop: the callback, then the next day if there is one. */
    method SimulateDay(strategy: Strategy, calls: nat, seen: seq<Reply>, daily: seq<(Date, real)>)
      returns (seen': seq<Reply>, daily': seq<(Date, real)>, more: bool)
      requires Valid() && 0 <= currentIndex < |world.dates| && currentDate == Some(world.dates[currentIndex])
      modifies this, account
      ensures Valid() && more == (old(currentIndex) + 1 < |world.dates|)
      ensures var k := old(currentIndex);
        var morning := Run(old(State()), seen + [Today(world.dates[k])], daily);
        var r := Callback(world, strategy, calls, morning, world.dates[k]);
        Run(State(), seen', daily')
          == if more then r.(sim := CloseDay(world, OpenDay(world, r.sim, k + 1), world.dates[k + 1])) else r
      ensures more ==> currentIndex == old(currentIndex) + 1 && currentDate == Some(world.dates[currentIndex])
    {
      seen', daily' := CallStrategy(strategy, calls, seen + [Today(currentDate.value)], daily, currentDate.value);
      more := AdvanceDay();
    }
  }
}
