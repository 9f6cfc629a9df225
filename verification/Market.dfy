/** Daily price data as the backtest reads it: one frame of dated bars per symbol. */
module Market {
  import opened Prelude

  type Symbol = string
  type Date = int

  /** One daily bar. A missing (NaN) opening price is `None`. */
  datatype Bar = Bar(open: Option<real>, high: real, low: real, close: real, volume: real)
  datatype Row = Row(date: Date, bar: Bar)

  ghost predicate Increasing(dates: seq<Date>) {
    forall i, j :: 0 <= i < j < |dates| ==> dates[i] < dates[j]
  }

  datatype Costs = Costs(slippage: real, commission: real)

  /** Everything fixed for one backtest: the frames, the trading days and the execution costs. */
  datatype World = World(frames: map<Symbol, seq<Row>>, dates: seq<Date>, costs: Costs)

  /** The rows up to and including `date`. */
  function UpTo(rows: seq<Row>, date: Date): seq<Row> {
    if rows == [] then []
    else if rows[0].date <= date then [rows[0]] + UpTo(rows[1..], date)
    else UpTo(rows[1..], date)
  }

  /** The rows strictly before `date`. */
  function Before(rows: seq<Row>, date: Date): seq<Row> {
    if rows == [] then []
    else if rows[0].date < date then [rows[0]] + Before(rows[1..], date)
    else Before(rows[1..], date)
  }

  /** The bar of a day, if the symbol trades on it. */
  function BarOn(rows: seq<Row>, date: Date): Option<Bar> {
    if rows == [] then None
    else if rows[0].date == date then Some(rows[0].bar)
    else BarOn(rows[1..], date)
  }

  function BarOf(w: World, symbol: Symbol, date: Date): Option<Bar> {
    if symbol in w.frames then BarOn(w.frames[symbol], date) else None
  }

  /** The last `limit` rows; a negative limit drops that many rows from the front. */
  function Tail(rows: seq<Row>, limit: int): (t: seq<Row>)
    ensures |t| == if limit >= 0 then (if limit <= |rows| then limit else |rows|)
                   else (if -limit <= |rows| then |rows| + limit else 0)
    ensures forall i :: 0 <= i < |t| ==> t[i] == rows[|rows| - |t| + i]
  {
    if limit >= 0 then (if limit <= |rows| then rows[|rows| - limit..] else rows)
    else (if -limit <= |rows| then rows[-limit..] else [])
  }

  lemma {:induction false} UpToFromBefore(rows: seq<Row>, date: Date, day: Date)
    requires date < day
    ensures UpTo(rows, date) == UpTo(Before(rows, day), date)
  {
    if rows != [] {
      UpToFromBefore(rows[1..], date, day);
      if rows[0].date < day {
        assert Before(rows, day)[1..] == Before(rows[1..], day);
      }
    }
  }

  lemma {:induction false} BarFromBefore(rows: seq<Row>, date: Date, day: Date)
    requires date < day
    ensures BarOn(rows, date) == BarOn(Before(rows, day), date)
  {
    if rows != [] {
      BarFromBefore(rows[1..], date, day);
      if rows[0].date < day {
        assert Before(rows, day)[1..] == Before(rows[1..], day);
      }
    }
  }

  /** No row that a strategy can see is later than the day it asks on. */
  lemma {:induction false} UpToIsPast(rows: seq<Row>, date: Date)
    ensures forall r :: r in UpTo(rows, date) <==> r in rows && r.date <= date
  {
    if rows != [] {
      UpToIsPast(rows[1..], date);
      assert rows == [rows[0]] + rows[1..];
    }
  }
}
