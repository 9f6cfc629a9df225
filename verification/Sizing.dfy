/** Position sizing: a raw size, then a pipeline of caps, thresholds and roundings. */
module Sizing {
  import opened Prelude

  datatype Confidence = High | Medium | Low

  /** The sizing settings; an optional cap that is `None` is switched off. */
  datatype Config = Config(dynamic: bool, minPct: real, maxPctSizing: real, maxPct: real,
                           maxExposurePct: Option<real>, kellyCap: Option<real>,
                           minOrderValue: real, riskPerTradePct: real)

  /** The values of the repository's configuration file and of the code's fallbacks. */
  const REPOSITORY_CONFIG := Config(true, 0.05, 0.30, 0.25, Some(0.95), None, 50.0, 0.02)

  /**
   What the pipeline looks at.  `atr` is `None` when it is missing or NaN; `invested` is the sum of the open
   market values, `None` when there is no client or it fails.
   */
  datatype Terms = Terms(slMultiplier: real, atr: Option<real>, price: real, cash: real, fractional: bool,
                         invested: Option<real>)

  /** One sizing call.  `vix` is `None` when the market data has none. */
  datatype Request = Request(terms: Terms, confidence: Confidence, sizeScaler: real, vix: Option<real>,
                             strategies: int, conviction: real)

  // ----- the raw size

  function VixScaler(vix: Option<real>): real {
    var v := if vix.Some? then vix.value else 20.0;
    if v > 40.0 then 0.3
    else if v > 35.0 then 0.4
    else if v > 25.0 then 0.65
    else if v > 18.0 then 0.9
    else 1.0
  }

  function ConfidenceScaler(c: Confidence): real {
    match c
    case High => 1.5
    case Medium => 1.0
    case Low => 0.5
  }

  function ReductionScaler(reduced: bool): real { if reduced then 0.5 else 1.0 }

  /** A share of an amount. */
  function Part(amount: real, share: real): real { amount * share }

  /** Linear between the two ends, with the conviction clamped to [0, 1]. */
  function Interpolate(low: real, high: real, conviction: real): real {
    low + Part(high - low, Max(0.0, Min(1.0, conviction)))
  }

  function TargetPct(cfg: Config, conviction: real): real {
    Min(Interpolate(cfg.minPct, cfg.maxPctSizing, conviction), cfg.maxPct)
  }

  /** The product of the four scalers, in the order of the source. */
  function ScalerOf(vix: real, confidence: real, size: real, reduction: real): real {
    vix * confidence * size * reduction
  }

  function RiskScaler(q: Request, reduced: bool): real {
    ScalerOf(VixScaler(q.vix), ConfidenceScaler(q.confidence), q.sizeScaler, ReductionScaler(reduced))
  }

  /** Money put at risk or invested before the division by the price or by the risk of one share. */
  function Stake(cfg: Config, capital: real, price: real, conviction: real, strategies: int): real {
    if cfg.dynamic && price > 0.0 then Part(capital, TargetPct(cfg, conviction))
    else capital * cfg.riskPerTradePct / (if strategies <= 0 then 1 else strategies) as real
  }

  /** What one share costs of that stake. */
  function PerShare(cfg: Config, t: Terms): real
    requires t.atr.Some?
  {
    if cfg.dynamic && t.price > 0.0 then t.price else t.atr.value * t.slMultiplier
  }

  function Shares(stake: real, scaler: real, perShare: real): real
    requires perShare > 0.0
  {
    stake * scaler / perShare
  }

  /** `None` when one share carries no risk. */
  function Raw(cfg: Config, capital: real, q: Request, reduced: bool): Option<real>
    requires q.terms.atr.Some?
  {
    var per := PerShare(cfg, q.terms);
    if per <= 0.0 then None
    else
      var stake := Stake(cfg, capital, q.terms.price, q.conviction, q.strategies);
      Some(Shares(stake, RiskScaler(q, reduced), per))
  }

  // ----- the pipeline

  function CapPosition(cfg: Config, capital: real, q: Terms, n: real): real {
    if q.price > 0.0 then Min(n, capital * cfg.maxPct / q.price) else n
  }

  function CapCash(q: Terms, n: real): real {
    if q.price > 0.0 && q.cash > 0.0 then Min(n, Max(0.0, (q.cash - 50.0) / q.price)) else n
  }

  function CapExposure(cfg: Config, capital: real, q: Terms, n: real): real {
    if cfg.maxExposurePct.Some? && q.price > 0.0 && q.invested.Some? then
      var room := capital * cfg.maxExposurePct.value - q.invested.value;
      if room < n * q.price then Max(0.0, room / q.price) else n
    else n
  }

  function ScaleKelly(cfg: Config, n: real): real {
    if cfg.kellyCap.Some? && n > 0.0 then n * cfg.kellyCap.value else n
  }

  function CapLoss(maxLoss: real, q: Terms, n: real): real
    requires q.atr.Some?
  {
    if q.slMultiplier > 0.0 && q.atr.value > 0.0 && q.price > 0.0 then
      var perShare := q.atr.value * q.slMultiplier;
      if n * q.atr.value * q.slMultiplier > maxLoss && maxLoss / perShare < n
      then Max(0.0, maxLoss / perShare) else n
    else n
  }

  function DropTiny(q: Terms, n: real): real {
    if q.price > 0.0 then (if n < 1.0 / q.price then 0.0 else n)
    else if n < 0.001 then 0.0 else n
  }

  /** Round half to even at six decimals. */
  function Round6(x: real): real {
    var scaled := x * 1000000.0;
    var down := scaled.Floor;
    var rest := scaled - down as real;
    (if rest < 0.5 || (rest == 0.5 && down % 2 == 0) then down else down + 1) as real / 1000000.0
  }

  function Truncate(x: real): real { if x >= 0.0 then x.Floor as real else -((-x).Floor as real) }

  function WholeShares(q: Terms, n: real): real {
    if q.fractional then n
    else if Truncate(n) < 1.0 then 0.0 else Truncate(n)
  }

  function DropDust(cfg: Config, q: Terms, n: real): real {
    if q.price > 0.0 && n > 0.0 && n * q.price < cfg.minOrderValue then 0.0 else n
  }

  /** The size after the caps, before thresholds and rounding. */
  function Capped(cfg: Config, capital: real, maxLoss: real, q: Terms, n: real): real
    requires q.atr.Some?
  {
    CapLoss(maxLoss, q, ScaleKelly(cfg, CapExposure(cfg, capital, q, CapCash(q, CapPosition(cfg, capital, q, n)))))
  }

  /** Thresholds and rounding. */
  function Finish(cfg: Config, q: Terms, n: real): real {
    DropDust(cfg, q, WholeShares(q, Round6(DropTiny(q, n))))
  }

  function Pipeline(cfg: Config, capital: real, maxLoss: real, q: Terms, raw: real): real
    requires q.atr.Some?
  {
    Finish(cfg, q, Capped(cfg, capital, maxLoss, q, raw))
  }

  /** The size that the sizing call returns. */
  function Size(cfg: Config, capital: real, maxLoss: real, q: Request, reduced: bool, halted: bool): real {
    if q.terms.atr.None? || q.terms.atr.value <= 0.0 || halted then 0.0
    else match Raw(cfg, capital, q, reduced)
      case None => 0.0
      case Some(raw) => Pipeline(cfg, capital, maxLoss, q.terms, raw)
  }

  // ----- rounding

  const HALF_UNIT := 0.0000005

  lemma RoundNear(x: real)
    ensures x - HALF_UNIT <= Round6(x) <= x + HALF_UNIT
  {
  }

  lemma RoundUp(x: real, y: real)
    requires x <= y
    ensures Round6(x) <= Round6(y)
  {
    FloorUp(x * 1000000.0, y * 1000000.0);
  }

  lemma FloorUp(x: real, y: real)
    requires x <= y
    ensures x.Floor <= y.Floor
  {
  }

  lemma TruncateUp(x: real, y: real)
    requires x <= y
    ensures Truncate(x) <= Truncate(y)
  {
    if x >= 0.0 { FloorUp(x, y); }
    else if y < 0.0 { FloorUp(-y, -x); }
    else { FloorUp(0.0, -x); FloorUp(0.0, y); }
  }

  lemma TruncateBelow(x: real)
    requires 0.0 <= x
    ensures 0.0 <= Truncate(x) <= x
  {
    FloorUp(0.0, x);
  }

  // ----- every cap at once

  /** A cap of `limit` in money: the size is not positive, or is worth at most `limit`. */
  predicate Within(n: real, unit: real, limit: real) { n <= 0.0 || n * unit <= limit }

  /** A stage after a cap never makes the size larger. */
  lemma WithinKept(n: real, m: real, unit: real, limit: real)
    requires Within(n, unit, limit) && unit > 0.0 && m <= Max(0.0, n)
    ensures Within(m, unit, limit)
  {
    if m > 0.0 { ScaleUp(unit, m, n); }
  }

  lemma ExposureShrinks(cfg: Config, capital: real, q: Terms, n: real)
    ensures CapExposure(cfg, capital, q, n) <= Max(0.0, n)
  {
    if cfg.maxExposurePct.Some? && q.price > 0.0 && q.invested.Some? {
      var room := capital * cfg.maxExposurePct.value - q.invested.value;
      if room < n * q.price {
        DivideUp(q.price, room, n * q.price);
        assert n * q.price / q.price == n;
      }
    }
  }

  lemma KellyShrinks(cfg: Config, n: real)
    requires cfg.kellyCap.Some? ==> cfg.kellyCap.value <= 1.0
    ensures ScaleKelly(cfg, n) <= Max(0.0, n)
  {
    if cfg.kellyCap.Some? && n > 0.0 {
      ScaleUp(n, cfg.kellyCap.value, 1.0);
    }
  }

  lemma LossShrinks(maxLoss: real, q: Terms, n: real)
    requires q.atr.Some?
    ensures CapLoss(maxLoss, q, n) <= Max(0.0, n)
  {
  }

  lemma CapTimesUnit(n: real, limit: real, unit: real)
    requires unit > 0.0 && n <= limit / unit
    ensures n * unit <= limit
  {
    ScaleUp(unit, n, limit / unit);
    assert (limit / unit) * unit == limit;
  }

  lemma PositionCapBites(cfg: Config, capital: real, q: Terms, n: real)
    requires q.price > 0.0
    ensures Within(CapPosition(cfg, capital, q, n), q.price, capital * cfg.maxPct)
  {
    CapTimesUnit(CapPosition(cfg, capital, q, n), capital * cfg.maxPct, q.price);
  }

  lemma CashCapBites(q: Terms, n: real)
    requires q.price > 0.0 && q.cash > 0.0
    ensures Within(CapCash(q, n), q.price, q.cash - 50.0)
  {
    var c := CapCash(q, n);
    if c > 0.0 { CapTimesUnit(c, q.cash - 50.0, q.price); }
  }

  lemma ExposureCapBites(cfg: Config, capital: real, q: Terms, n: real)
    requires q.price > 0.0 && cfg.maxExposurePct.Some? && q.invested.Some?
    ensures Within(CapExposure(cfg, capital, q, n), q.price, capital * cfg.maxExposurePct.value - q.invested.value)
  {
    var room := capital * cfg.maxExposurePct.value - q.invested.value;
    var c := CapExposure(cfg, capital, q, n);
    if room < n * q.price && c > 0.0 { CapTimesUnit(c, room, q.price); }
  }

  lemma LossCapBites(maxLoss: real, q: Terms, n: real)
    requires q.price > 0.0 && q.atr.Some? && q.atr.value > 0.0 && q.slMultiplier > 0.0
    ensures Within(CapLoss(maxLoss, q, n), q.atr.value * q.slMultiplier, maxLoss)
  {
    var perShare := q.atr.value * q.slMultiplier;
    assert perShare > 0.0;
    assert n * q.atr.value * q.slMultiplier == n * perShare;
    var c := CapLoss(maxLoss, q, n);
    if c > 0.0 && c <= maxLoss / perShare { CapTimesUnit(c, maxLoss, perShare); }
  }

  /** What the caps leave obeys all of them. */
  lemma CappedWithin(cfg: Config, capital: real, maxLoss: real, q: Terms, n: real)
    requires q.price > 0.0 && q.atr.Some? && q.atr.value > 0.0 && (cfg.kellyCap.Some? ==> cfg.kellyCap.value <= 1.0)
    ensures CapsHold(cfg, capital, maxLoss, q, Capped(cfg, capital, maxLoss, q, n))
  {
    var n1 := CapPosition(cfg, capital, q, n);
    var n2 := CapCash(q, n1);
    var n3 := CapExposure(cfg, capital, q, n2);
    var n4 := ScaleKelly(cfg, n3);
    var n5 := CapLoss(maxLoss, q, n4);
    PositionCapBites(cfg, capital, q, n);
    if q.slMultiplier > 0.0 { LossCapBites(maxLoss, q, n4); }
    ExposureShrinks(cfg, capital, q, n2);
    KellyShrinks(cfg, n3);
    LossShrinks(maxLoss, q, n4);
    WithinKept(n1, n5, q.price, capital * cfg.maxPct);
    if q.cash > 0.0 { CashCapBites(q, n1); WithinKept(n2, n5, q.price, q.cash - 50.0); }
    if cfg.maxExposurePct.Some? && q.invested.Some? {
      ExposureCapBites(cfg, capital, q, n2);
      WithinKept(n3, n5, q.price, capital * cfg.maxExposurePct.value - q.invested.value);
    }
  }

  /** Thresholds and rounding add at most half a unit of the sixth decimal. */
  lemma FinishAdds(cfg: Config, q: Terms, n: real)
    requires q.price > 0.0
    ensures var r := Finish(cfg, q, n);
      r == 0.0 || (n > 0.0 && 0.0 < r <= n + HALF_UNIT && cfg.minOrderValue <= r * q.price)
  {
    var t := DropTiny(q, n);
    if n >= 1.0 / q.price { assert 1.0 / q.price > 0.0; }
    RoundNear(t);
    RoundUp(0.0, t);
    if Round6(t) >= 0.0 { TruncateBelow(Round6(t)); }
  }

  /** The size times the unit is at most the limit, up to the half unit of the rounding. */
  predicate AtMost(r: real, unit: real, limit: real) { r * unit <= limit + HALF_UNIT * unit }

  lemma SlackAdds(n: real, r: real, unit: real, limit: real)
    requires Within(n, unit, limit) && n > 0.0 && unit > 0.0 && r <= n + HALF_UNIT
    ensures AtMost(r, unit, limit)
  {
    ScaleUp(unit, r, n + HALF_UNIT);
  }

  /** `n` obeys the caps exactly. */
  predicate CapsHold(cfg: Config, capital: real, maxLoss: real, q: Terms, n: real) {
    && Within(n, q.price, capital * cfg.maxPct)
    && (q.cash > 0.0 ==> Within(n, q.price, q.cash - 50.0))
    && (cfg.maxExposurePct.Some? && q.invested.Some? ==>
          Within(n, q.price, capital * cfg.maxExposurePct.value - q.invested.value))
    && (q.slMultiplier > 0.0 && q.atr.Some? ==> Within(n, q.atr.value * q.slMultiplier, maxLoss))
  }

  lemma SlackObeys(cfg: Config, capital: real, maxLoss: real, q: Terms, n: real, r: real)
    requires q.price > 0.0 && q.atr.Some? && q.atr.value > 0.0 && CapsHold(cfg, capital, maxLoss, q, n)
    requires n > 0.0 && 0.0 < r <= n + HALF_UNIT && cfg.minOrderValue <= r * q.price
    ensures ObeysCaps(cfg, capital, maxLoss, q, r)
  {
    SlackAdds(n, r, q.price, capital * cfg.maxPct);
    if q.cash > 0.0 { SlackAdds(n, r, q.price, q.cash - 50.0); }
    if cfg.maxExposurePct.Some? && q.invested.Some? {
      SlackAdds(n, r, q.price, capital * cfg.maxExposurePct.value - q.invested.value);
    }
    if q.slMultiplier > 0.0 {
      assert q.atr.value * q.slMultiplier > 0.0;
      SlackAdds(n, r, q.atr.value * q.slMultiplier, maxLoss);
    }
  }

  /**
   The size is 0, or worth at least the dust minimum and at most the position cap, the cash minus 50 (when
   there is cash) and the remaining exposure (when the positions can be read), and its loss at the stop is
   at most the maximum.
   */
  predicate ObeysCaps(cfg: Config, capital: real, maxLoss: real, q: Terms, r: real) {
    r == 0.0
    || (&& r > 0.0
        && cfg.minOrderValue <= r * q.price
        && AtMost(r, q.price, capital * cfg.maxPct)
        && (q.cash > 0.0 ==> AtMost(r, q.price, q.cash - 50.0))
        && (cfg.maxExposurePct.Some? && q.invested.Some? ==>
              AtMost(r, q.price, capital * cfg.maxExposurePct.value - q.invested.value))
        && (q.slMultiplier > 0.0 && q.atr.Some? ==> AtMost(r, q.atr.value * q.slMultiplier, maxLoss)))
  }

  lemma FinishObeys(cfg: Config, capital: real, maxLoss: real, q: Terms, n: real)
    requires q.price > 0.0 && q.atr.Some? && q.atr.value > 0.0 && CapsHold(cfg, capital, maxLoss, q, n)
    ensures ObeysCaps(cfg, capital, maxLoss, q, Finish(cfg, q, n))
  {
    FinishAdds(cfg, q, n);
    var r := Finish(cfg, q, n);
    if r != 0.0 { SlackObeys(cfg, capital, maxLoss, q, n, r); }
  }

  lemma PipelineWithinCaps(cfg: Config, capital: real, maxLoss: real, q: Terms, raw: real)
    requires q.price > 0.0 && q.atr.Some? && q.atr.value > 0.0 && (cfg.kellyCap.Some? ==> cfg.kellyCap.value <= 1.0)
    ensures ObeysCaps(cfg, capital, maxLoss, q, Pipeline(cfg, capital, maxLoss, q, raw))
  {
    CappedWithin(cfg, capital, maxLoss, q, raw);
    FinishObeys(cfg, capital, maxLoss, q, Capped(cfg, capital, maxLoss, q, raw));
  }

  /** Every cap at once, for a positive price and a Kelly cap that is absent or at most 1. */
  lemma SizeWithinCaps(cfg: Config, capital: real, maxLoss: real, q: Request, reduced: bool, halted: bool)
    requires q.terms.price > 0.0 && (cfg.kellyCap.Some? ==> cfg.kellyCap.value <= 1.0)
    ensures ObeysCaps(cfg, capital, maxLoss, q.terms, Size(cfg, capital, maxLoss, q, reduced, halted))
  {
    if q.terms.atr.Some? && q.terms.atr.value > 0.0 {
      var raw := Raw(cfg, capital, q, reduced);
      if raw.Some? { PipelineWithinCaps(cfg, capital, maxLoss, q.terms, raw.value); }
    }
  }
}
