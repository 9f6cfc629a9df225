/** What the trade history says the account must hold, defined without the account. */
module Ledger {
  import opened Prelude
  import opened Market
  import opened Backtest

  function Flow(t: Trade, commission: real): real {
    match t.side
    case Buy => -Value(t.qty, t.price) - commission
    case Sell => Value(t.qty, t.price) - commission
    case Other(_) => 0.0
  }

  /** Cash moved by a history: all net sell proceeds minus all buy costs. */
  function NetFlow(trades: seq<Trade>, commission: real): real {
    if trades == [] then 0.0
    else NetFlow(trades[..|trades| - 1], commission) + Flow(trades[|trades| - 1], commission)
  }

  /** Sells since the last buy. */
  function SellsSinceBuy(trades: seq<Trade>): nat {
    if trades == [] then 0
    else
      var before := trades[..|trades| - 1];
      match trades[|trades| - 1].side
      case Buy => 0
      case Sell => SellsSinceBuy(before) + 1
      case Other(_) => SellsSinceBuy(before)
  }

  ghost predicate SellsPay(trades: seq<Trade>) {
    forall t :: t in trades && t.side.Sell? ==> Value(t.qty, t.price) >= 0.0
  }

  /** Bought minus sold. */
  function NetQty(trades: seq<Trade>, sym: Symbol): real {
    if trades == [] then 0.0
    else
      var t := trades[|trades| - 1];
      NetQty(trades[..|trades| - 1], sym)
      + if t.symbol != sym then 0.0
        else match t.side
          case Buy => t.qty
          case Sell => -t.qty
          case Other(_) => 0.0
  }

  /** The cost basis left when `qty` of `net` is sold. */
  function SoldDown(basis: real, net: real, qty: real): real {
    if net == 0.0 then 0.0 else basis * ((net - qty) / net)
  }

  /** Average-cost basis: a buy adds its cost, a sell takes out its share of the quantity. */
  function Basis(trades: seq<Trade>, sym: Symbol): real {
    if trades == [] then 0.0
    else
      var t := trades[|trades| - 1];
      var before := trades[..|trades| - 1];
      var net := NetQty(before, sym);
      if t.symbol != sym then Basis(before, sym)
      else match t.side
        case Buy => Basis(before, sym) + Value(t.qty, t.price)
        case Sell => SoldDown(Basis(before, sym), net, t.qty)
        case Other(_) => Basis(before, sym)
  }

  /** The position of a symbol after its fills, one fill at a time. */
  function Holding(trades: seq<Trade>, sym: Symbol): Option<Position> {
    if trades == [] then None
    else
      var t := trades[|trades| - 1];
      var h := Holding(trades[..|trades| - 1], sym);
      if t.symbol != sym then h
      else match t.side
        case Buy => Some(BuyLot(h, t.qty, t.price))
        case Sell => SellLot(h, t.qty, t.price)
        case Other(_) => h
  }

  function QtyOf(h: Option<Position>): real {
    match h
    case None => 0.0
    case Some(p) => p.qty
  }

  /**
   The fill that the position does not follow: a sell of more than the long quantity held, or any
   further sell of a symbol that is already short or flat on the books.
   */
  predicate Untracked(h: Option<Position>, t: Trade) {
    t.side.Sell? && h.Some? && if h.value.qty > 0.0 then t.qty > h.value.qty else t.qty != 0.0
  }

  /** No fill of the history is of that kind. */
  predicate AllTracked(trades: seq<Trade>, sym: Symbol) {
    if trades == [] then true
    else
      var t := trades[|trades| - 1];
      var before := trades[..|trades| - 1];
      AllTracked(before, sym) && (t.symbol == sym ==> !Untracked(Holding(before, sym), t))
  }

  /** After every fill of the history the position equals bought minus sold. */
  predicate QtyFollows(trades: seq<Trade>, sym: Symbol) {
    QtyOf(Holding(trades, sym)) == NetQty(trades, sym)
    && (trades == [] || QtyFollows(trades[..|trades| - 1], sym))
  }

  /**
   The position of a symbol equals bought minus sold after every fill of a history if and only if no
   fill oversells a long position or sells on top of a short one.
   */
  lemma {:induction false} PositionFollowsTrades(trades: seq<Trade>, sym: Symbol)
    ensures QtyFollows(trades, sym) <==> AllTracked(trades, sym)
  {
    if trades != [] {
      PositionFollowsTrades(trades[..|trades| - 1], sym);
    }
  }

  /** Every buy is of a positive quantity, and every sell of at most what has been bought and not sold. */
  predicate Orderly(trades: seq<Trade>, sym: Symbol) {
    if trades == [] then true
    else
      var t := trades[|trades| - 1];
      var before := trades[..|trades| - 1];
      Orderly(before, sym)
      && (t.symbol == sym ==>
            (t.side.Buy? ==> t.qty > 0.0) && (t.side.Sell? ==> 0.0 < t.qty <= NetQty(before, sym)))
  }

  /** The books of one symbol are right: flat means no position, else quantity and cost basis agree. */
  ghost predicate Books(h: Option<Position>, net: real, basis: real) {
    match h
    case None => net == 0.0 && basis == 0.0
    case Some(p) => net > 0.0 && p.qty == net && p.avgPrice.Some? && p.qty * p.avgPrice.value == basis
  }

  lemma BuyKeepsBooks(h: Option<Position>, net: real, basis: real, qty: real, price: real)
    requires Books(h, net, basis) && qty > 0.0
    ensures Books(Some(BuyLot(h, qty, price)), net + qty, basis + Value(qty, price))
  {
    if h.Some? {
      assert (net + qty) * ((basis + qty * price) / (net + qty)) == basis + qty * price;
    }
  }

  lemma SellKeepsBooks(h: Option<Position>, net: real, basis: real, qty: real, price: real)
    requires Books(h, net, basis) && 0.0 < qty <= net
    ensures Books(SellLot(h, qty, price), net - qty, SoldDown(basis, net, qty))
  {
    var avg := h.value.avgPrice.value;
    var share := (net - qty) / net;
    assert net * share == net - qty;
    assert net * avg * share == (net * share) * avg;
  }

  /**
   In an orderly history the books hold exactly what was bought and not sold, and quantity times
   average price is the average-cost basis.
   */
  lemma {:induction false} OrderlyPosition(trades: seq<Trade>, sym: Symbol)
    requires Orderly(trades, sym)
    ensures Books(Holding(trades, sym), NetQty(trades, sym), Basis(trades, sym))
  {
    if trades != [] {
      var t := trades[|trades| - 1];
      var before := trades[..|trades| - 1];
      var h, net, basis := Holding(before, sym), NetQty(before, sym), Basis(before, sym);
      OrderlyPosition(before, sym);
      if t.symbol == sym {
        match t.side
        case Buy => BuyKeepsBooks(h, net, basis, t.qty, t.price);
        case Sell => SellKeepsBooks(h, net, basis, t.qty, t.price);
        case Other(_) =>
      }
    }
  }

  /** Overselling: the position is gone, but two shares more were sold than bought. */
  lemma OversoldExample(price: real)
    ensures var buy := Trade(0, "A", Buy, 1.0, price, 1);
            var sell := Trade(1, "A", Sell, 3.0, price, 2);
            Holding([buy, sell], "A") == None && NetQty([buy, sell], "A") == -2.0
  {
    var buy := Trade(0, "A", Buy, 1.0, price, 1);
    var sell := Trade(1, "A", Sell, 3.0, price, 2);
    assert [buy, sell][..1] == [buy] && [buy][..0] == [];
    assert Holding([buy], "A") == Some(Position(1.0, Some(price), 1.0 * price));
    assert NetQty([buy], "A") == 1.0;
  }
}
