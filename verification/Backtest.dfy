/**
 The backtest engine as a function on values: what each client operation does to the account, the
 order queue and the calendar.  The Simulation module implements it on objects that change in place.
 */
module Backtest {
  import opened Prelude
  import opened Market

  /** The order side after lower-casing; any other text is recorded but moves nothing. */
  datatype Side = Buy | Sell | Other(text: string)

  /** `avgPrice` is `None` once a division by a zero quantity has made it infinite or NaN. */
  datatype Position = Position(qty: real, avgPrice: Option<real>, marketValue: real)

  datatype Prognosis = Prognosis(scaled: real, unscaled: real)

  /** The id text is "sim_<symbol>_<number>"; the number alone is unique. */
  datatype PendingOrder = PendingOrder(id: nat, symbol: Symbol, qty: real, side: Side,
                                       created: Date, context: Option<Prognosis>)

  datatype Trade = Trade(orderId: nat, symbol: Symbol, side: Side, qty: real, price: real, date: Date)

  datatype Outcome = Filled(trade: Trade) | Skipped | Cancelled

  /** What became of an order when it left the queue, and on which day. */
  datatype Settled = Settled(order: PendingOrder, day: Date, outcome: Outcome)

  datatype LogEntry = LogEntry(date: Date, symbol: Symbol, side: Side, scaled: real, unscaledPct: real,
                               targetDate: Option<Date>, actualPct: Option<real>)

  /**
   The whole state of the client.  `held` lists the keys of `positions` in insertion order, as the
   source's dictionary iterates them.  `submitted` and `settled` are history: every order ever
   accepted, and every order that has left the queue.
   */
  datatype Sim = Sim(
    initialCash: real, cash: real, positions: map<Symbol, Position>, held: seq<Symbol>,
    portfolioValue: real, equity: real, trades: seq<Trade>,
    index: int, date: Option<Date>, nextId: nat, pending: seq<PendingOrder>,
    prognosisLog: seq<LogEntry>, submitted: seq<PendingOrder>, settled: seq<Settled>)

  function Fresh(initialCash: real): Sim {
    Sim(initialCash, initialCash, map[], [], 0.0, initialCash, [], -1, None, 0, [], [], [], [])
  }

  // ----- fills

  function FillPrice(side: Side, open: real, slippage: real): real {
    match side
    case Buy => open * (1.0 + slippage)
    case Sell => open * (1.0 - slippage)
    case Other(_) => open
  }

  /** What a quantity is worth at a price. */
  function Value(qty: real, price: real): real { qty * price }

  function Lookup(positions: map<Symbol, Position>, symbol: Symbol): Option<Position> {
    if symbol in positions then Some(positions[symbol]) else None
  }

  /** The weighted average entry price after a buy. */
  function AverageAfter(heldQty: real, avgPrice: Option<real>, qty: real, price: real): Option<real> {
    if avgPrice.None? || heldQty + qty == 0.0 then None
    else Some((Value(heldQty, avgPrice.value) + Value(qty, price)) / (heldQty + qty))
  }

  function BuyLot(lot: Option<Position>, qty: real, price: real): Position {
    match lot
    case None => Position(qty, Some(price), Value(qty, price))
    case Some(p) =>
      Position(p.qty + qty, AverageAfter(p.qty, p.avgPrice, qty, price), Value(p.qty + qty, price))
  }

  /** `None` means that the position is gone. */
  function SellLot(lot: Option<Position>, qty: real, price: real): Option<Position> {
    match lot
    case None => Some(Position(-qty, Some(price), Value(-qty, price)))
    case Some(p) =>
      if p.qty > 0.0 then
        if qty >= p.qty then None else Some(Position(p.qty - qty, p.avgPrice, Value(p.qty - qty, price)))
      else Some(p)
  }

  function Remove(held: seq<Symbol>, symbol: Symbol): seq<Symbol> {
    if held == [] then []
    else if held[0] == symbol then held[1..]
    else [held[0]] + Remove(held[1..], symbol)
  }

  function Store(s: Sim, symbol: Symbol, lot: Option<Position>): Sim {
    match lot
    case Some(p) => s.(positions := s.positions[symbol := p],
                       held := if symbol in s.positions then s.held else s.held + [symbol])
    case None => s.(positions := s.positions - {symbol}, held := Remove(s.held, symbol))
  }

  function BuyExecution(s: Sim, symbol: Symbol, qty: real, price: real, commission: real): Sim {
    Store(s, symbol, Some(BuyLot(Lookup(s.positions, symbol), qty, price)))
    .(cash := s.cash - (Value(qty, price) + commission))
  }

  function SellExecution(s: Sim, symbol: Symbol, qty: real, price: real, commission: real): Sim {
    Store(s, symbol, SellLot(Lookup(s.positions, symbol), qty, price))
    .(cash := s.cash + (Value(qty, price) - commission))
  }

  /** The row of the prognosis log: it reads the close five trading days ahead. */
  function PrognosisRows(w: World, index: int, day: Date, order: PendingOrder, close: real): seq<LogEntry> {
    match order.context
    case None => []
    case Some(p) =>
      var target := index + 5;
      var targetDate := if 0 <= target < |w.dates| then Some(w.dates[target]) else None;
      var actual :=
        if targetDate.None? || close == 0.0 then None
        else match BarOf(w, order.symbol, targetDate.value)
          case None => None
          case Some(bar) => Some((bar.close - close) / close * 100.0);
      [LogEntry(day, order.symbol, order.side, p.scaled, p.unscaled * 100.0, targetDate, actual)]
  }

  function Skip(s: Sim, day: Date, order: PendingOrder): Sim {
    s.(settled := s.settled + [Settled(order, day, Skipped)])
  }

  function Execute(w: World, s: Sim, day: Date, order: PendingOrder, price: real): Sim {
    match order.side
    case Buy => BuyExecution(s, order.symbol, order.qty, price, w.costs.commission)
    case Sell => SellExecution(s, order.symbol, order.qty, price, w.costs.commission)
    case Other(_) => s
  }

  /** One queued order at the opening price of `day`. */
  function ProcessOrder(w: World, s: Sim, day: Date, order: PendingOrder): Sim {
    match BarOf(w, order.symbol, day)
    case None => Skip(s, day, order)
    case Some(bar) =>
      if bar.open.None? then Skip(s, day, order)
      else
        var price := FillPrice(order.side, bar.open.value, w.costs.slippage);
        if order.side.Buy? && Value(order.qty, price) + w.costs.commission > s.cash then Skip(s, day, order)
        else
          var trade := Trade(order.id, order.symbol, order.side, order.qty, price, day);
          var t := Execute(w, s, day, order, price);
          t.(trades := s.trades + [trade],
             prognosisLog := s.prognosisLog + PrognosisRows(w, s.index, day, order, bar.close),
             settled := s.settled + [Settled(order, day, Filled(trade))])
  }

  function ProcessAll(w: World, s: Sim, day: Date, orders: seq<PendingOrder>): Sim
    decreases |orders|
  {
    if orders == [] then s else ProcessAll(w, ProcessOrder(w, s, day, orders[0]), day, orders[1..])
  }

  function ExecutePending(w: World, s: Sim, day: Date): Sim {
    ProcessAll(w, s.(pending := []), day, s.pending)
  }

  // ----- the keys of the positions

  ghost predicate NoRepeats<T>(xs: seq<T>) {
    forall i, j :: 0 <= i < j < |xs| ==> xs[i] != xs[j]
  }

  /** `held` lists the keys of `positions`, each once. */
  ghost predicate HeldAgrees(held: seq<Symbol>, positions: map<Symbol, Position>) {
    NoRepeats(held) && forall sym :: sym in held <==> sym in positions
  }

  lemma {:induction false} RemoveOne(held: seq<Symbol>, sym: Symbol)
    requires NoRepeats(held)
    ensures NoRepeats(Remove(held, sym))
    ensures forall x :: x in Remove(held, sym) <==> x in held && x != sym
  {
    if held != [] {
      RemoveOne(held[1..], sym);
      assert held == [held[0]] + held[1..];
      assert held[0] !in held[1..];
      assert forall x :: x in held <==> x == held[0] || x in held[1..];
    }
  }

  lemma StoreKeepsHeld(s: Sim, sym: Symbol, lot: Option<Position>)
    requires HeldAgrees(s.held, s.positions)
    ensures HeldAgrees(Store(s, sym, lot).held, Store(s, sym, lot).positions)
  {
    if lot.None? { RemoveOne(s.held, sym); }
  }

  lemma ExecuteKeepsHeld(w: World, s: Sim, day: Date, order: PendingOrder, price: real)
    requires HeldAgrees(s.held, s.positions)
    ensures var t := Execute(w, s, day, order, price); HeldAgrees(t.held, t.positions)
  {
    match order.side
    case Buy => StoreKeepsHeld(s, order.symbol, Some(BuyLot(Lookup(s.positions, order.symbol), order.qty, price)));
    case Sell => StoreKeepsHeld(s, order.symbol, SellLot(Lookup(s.positions, order.symbol), order.qty, price));
    case Other(_) =>
  }

  lemma {:induction false} FillsKeepHeld(w: World, s: Sim, day: Date, orders: seq<PendingOrder>)
    requires HeldAgrees(s.held, s.positions)
    ensures var t := ProcessAll(w, s, day, orders);
      HeldAgrees(t.held, t.positions) && t.date == s.date && t.index == s.index
    decreases |orders|
  {
    if orders != [] {
      var bar := BarOf(w, orders[0].symbol, day);
      if bar.Some? && bar.value.open.Some? {
        ExecuteKeepsHeld(w, s, day, orders[0], FillPrice(orders[0].side, bar.value.open.value, w.costs.slippage));
      }
      FillsKeepHeld(w, ProcessOrder(w, s, day, orders[0]), day, orders[1..]);
    }
  }

  // ----- the calendar

  function OpenDay(w: World, s: Sim, k: nat): Sim
    requires k < |w.dates|
  {
    ExecutePending(w, s.(index := k, date := Some(w.dates[k])), w.dates[k])
  }

  /** The closing prices that `advance_day` collects. */
  function Closes(w: World, positions: map<Symbol, Position>, day: Date): map<Symbol, real> {
    map sym | sym in positions && BarOf(w, sym, day).Some? :: BarOf(w, sym, day).value.close
  }

  function Revalue(p: Position, symbol: Symbol, prices: map<Symbol, real>): Position {
    if symbol in prices then p.(marketValue := Value(p.qty, prices[symbol])) else p
  }

  /** The positions with those of `done` revalued. */
  function Revalued(positions: map<Symbol, Position>, done: seq<Symbol>,
                    prices: map<Symbol, real>): map<Symbol, Position> {
    map sym | sym in positions :: if sym in done then Revalue(positions[sym], sym, prices) else positions[sym]
  }

  lemma RevaluedOneMore(positions: map<Symbol, Position>, done: seq<Symbol>, sym: Symbol, prices: map<Symbol, real>)
    requires sym in positions && sym !in done
    ensures Revalued(positions, done + [sym], prices)
         == Revalued(positions, done, prices)[sym := Revalue(positions[sym], sym, prices)]
    ensures Revalued(positions, done, prices)[sym] == positions[sym]
  {
  }

  /** Sum of the values of the positions that have a price. */
  function PricedValue(held: seq<Symbol>, positions: map<Symbol, Position>, prices: map<Symbol, real>): real {
    if held == [] then 0.0
    else
      PricedValue(held[..|held| - 1], positions, prices)
      + var sym := held[|held| - 1];
        if sym in prices && sym in positions then Value(positions[sym].qty, prices[sym]) else 0.0
  }

  function MarkToMarket(s: Sim, prices: map<Symbol, real>): Sim {
    var value := PricedValue(s.held, s.positions, prices);
    s.(positions := Revalued(s.positions, s.held, prices),
       portfolioValue := value, equity := s.cash + value)
  }

  function CloseDay(w: World, s: Sim, day: Date): Sim {
    MarkToMarket(s, Closes(w, s.positions, day))
  }

  // ----- what a strategy may call

  function Submit(s: Sim, symbol: Symbol, qty: real, side: Side, context: Option<Prognosis>): Sim {
    match s.date
    case None => s
    case Some(day) =>
      var order := PendingOrder(s.nextId, symbol, qty, side, day, context);
      s.(nextId := s.nextId + 1, pending := s.pending + [order], submitted := s.submitted + [order])
  }

  function Cancels(orders: seq<PendingOrder>, day: Date): seq<Settled> {
    seq(|orders|, i requires 0 <= i < |orders| => Settled(orders[i], day, Cancelled))
  }

  function CancelAll(s: Sim): Sim {
    match s.date
    case None => s.(pending := [])
    case Some(day) => s.(pending := [], settled := s.settled + Cancels(s.pending, day))
  }

  function CloseEach(s: Sim, symbols: seq<Symbol>): Sim
    decreases |symbols|
  {
    if symbols == [] then s
    else if symbols[0] !in s.positions then CloseEach(s, symbols[1..])
    else
      var qty := s.positions[symbols[0]].qty;
      CloseEach(Submit(s, symbols[0], Abs(qty), if qty > 0.0 then Sell else Buy, None), symbols[1..])
  }

  /** Closing positions only queues orders. */
  lemma {:induction false} CloseEachOnlyQueues(s: Sim, symbols: seq<Symbol>)
    ensures var t := CloseEach(s, symbols);
      t == s.(nextId := t.nextId, pending := t.pending, submitted := t.submitted)
    decreases |symbols|
  {
    if symbols != [] {
      if symbols[0] !in s.positions { CloseEachOnlyQueues(s, symbols[1..]); }
      else {
        var qty := s.positions[symbols[0]].qty;
        CloseEachOnlyQueues(Submit(s, symbols[0], Abs(qty), if qty > 0.0 then Sell else Buy, None), symbols[1..]);
      }
    }
  }

  function CloseAllPositions(s: Sim, cancelOrders: bool): Sim {
    var t := if cancelOrders then CancelAll(s) else s;
    CloseEach(t, t.held)
  }

  function GetBars(w: World, s: Sim, symbol: Symbol, limit: int): seq<Row> {
    if s.date.None? || symbol !in w.frames then []
    else Tail(UpTo(w.frames[symbol], s.date.value), limit)
  }

  function GetSnapshots(w: World, s: Sim, symbols: seq<Symbol>): map<Symbol, Bar> {
    if s.date.None? then map[]
    else map sym | sym in symbols && BarOf(w, sym, s.date.value).Some? :: BarOf(w, sym, s.date.value).value
  }

  datatype PositionView = PositionView(symbol: Symbol, qty: real, avgEntryPrice: Option<real>, marketValue: real,
                                       long: bool)

  function ListPositions(s: Sim, held: seq<Symbol>): seq<PositionView> {
    if held == [] then []
    else
      (if held[0] in s.positions
       then var p := s.positions[held[0]];
            [PositionView(held[0], p.qty, p.avgPrice, p.marketValue, p.qty > 0.0)]
       else [])
      + ListPositions(s, held[1..])
  }

  datatype Command =
    | AskBars(symbol: Symbol, limit: int)
    | AskSnapshots(symbols: seq<Symbol>)
    | AskAccount
    | AskPositions
    | PlaceOrder(symbol: Symbol, qty: real, side: Side, context: Option<Prognosis>)
    | CloseAll(cancelOrders: bool)
    | Return
    | Raise

  datatype Reply =
    | Today(date: Date)
    | Bars(rows: seq<Row>)
    | Snapshots(bars: map<Symbol, Bar>)
    | AccountOf(cash: real, equity: real, portfolioValue: real, trades: seq<Trade>)
    | PositionsOf(list: seq<PositionView>)
    | Accepted(id: Option<nat>)
    | Closing

  /**
   A deterministic strategy: its next call depends on every reply it has received since the run began,
   so it may keep any memory it likes.
   */
  type Strategy = seq<Reply> -> Command

  function Obey(w: World, s: Sim, c: Command): Sim {
    match c
    case PlaceOrder(symbol, qty, side, context) => Submit(s, symbol, qty, side, context)
    case CloseAll(cancelOrders) => CloseAllPositions(s, cancelOrders)
    case _ => s
  }

  /** A strategy's call changes nothing but the order queue. */
  lemma ObeyOnlyQueues(w: World, s: Sim, c: Command)
    ensures var t := Obey(w, s, c);
      t == s.(nextId := t.nextId, pending := t.pending, submitted := t.submitted, settled := t.settled)
  {
    if c.CloseAll? { CloseEachOnlyQueues(if c.cancelOrders then CancelAll(s) else s, s.held); }
  }

  function Answer(w: World, s: Sim, c: Command): Reply {
    match c
    case AskBars(symbol, limit) => Bars(GetBars(w, s, symbol, limit))
    case AskSnapshots(symbols) => Snapshots(GetSnapshots(w, s, symbols))
    case AskAccount => AccountOf(s.cash, s.equity, s.portfolioValue, s.trades)
    case AskPositions => PositionsOf(ListPositions(s, s.held))
    case PlaceOrder(_, _, _, _) => Accepted(if s.date.None? then None else Some(s.nextId))
    case _ => Closing
  }

  /** A run so far: the client, everything the strategy has seen, and the daily equity curve. */
  datatype Run = Run(sim: Sim, seen: seq<Reply>, daily: seq<(Date, real)>)

  /** The strategy callback of one day; it makes at most `calls` calls before it returns. */
  function Callback(w: World, strategy: Strategy, calls: nat, r: Run, day: Date): Run
    decreases calls
  {
    var c := strategy(r.seen);
    if c.Raise? then r
    else if calls == 0 || c.Return? then r.(daily := r.daily + [(day, r.sim.equity)])
    else Callback(w, strategy, calls - 1,
                  r.(sim := Obey(w, r.sim, c), seen := r.seen + [Answer(w, r.sim, c)]), day)
  }

  function StartRun(w: World, s: Sim): Sim
    requires 0 < |w.dates|
  {
    s.(index := 0, date := Some(w.dates[0]))
  }

  /** The run right after the fills of day `k`. */
  function AfterFills(w: World, strategy: Strategy, calls: nat, s: Sim, k: nat): Run
    requires k < |w.dates|
    decreases k, 0
  {
    if k == 0 then Run(StartRun(w, s), [], [])
    else
      var r := AfterCallback(w, strategy, calls, s, k - 1);
      r.(sim := OpenDay(w, r.sim, k))
  }

  /** The run as the strategy finds it on day `k`: filled at the open and, after the first day, valued at the close. */
  function BeforeCallback(w: World, strategy: Strategy, calls: nat, s: Sim, k: nat): Run
    requires k < |w.dates|
    decreases k, 1
  {
    var r := AfterFills(w, strategy, calls, s, k);
    if k == 0 then r else r.(sim := CloseDay(w, r.sim, w.dates[k]))
  }

  /** The run after the strategy has acted on day `k`. */
  function AfterCallback(w: World, strategy: Strategy, calls: nat, s: Sim, k: nat): Run
    requires k < |w.dates|
    decreases k, 2
  {
    var r := BeforeCallback(w, strategy, calls, s, k);
    Callback(w, strategy, calls, r.(seen := r.seen + [Today(w.dates[k])]), w.dates[k])
  }

  /** One turn of the day loop. */
  lemma NextDay(w: World, strategy: Strategy, calls: nat, s: Sim, k: nat)
    requires k + 1 < |w.dates|
    ensures var r := AfterCallback(w, strategy, calls, s, k);
      BeforeCallback(w, strategy, calls, s, k + 1) == r.(sim := CloseDay(w, OpenDay(w, r.sim, k + 1), w.dates[k + 1]))
  {
  }
}
