/** The size in numbers: what is wanted, what the caps take off it, and how the pipeline ends. */
module SizeValue {
  import opened Prelude
  import opened Sizing
  import opened SizingOrder

  // ----- the factors, as tables

  /** The factor of the volatility band; without a VIX it is that of 20. */
  predicate VixFactorIs(vix: Option<real>, factor: real) {
    var v := if vix.Some? then vix.value else 20.0;
    && (v <= 18.0 ==> factor == 1.0)
    && (18.0 < v <= 25.0 ==> factor == 0.9)
    && (25.0 < v <= 35.0 ==> factor == 0.65)
    && (35.0 < v <= 40.0 ==> factor == 0.4)
    && (v > 40.0 ==> factor == 0.3)
  }

  predicate ConfidenceFactorIs(c: Confidence, factor: real) {
    (c == Low && factor == 0.5) || (c == Medium && factor == 1.0) || (c == High && factor == 1.5)
  }

  predicate ReductionIs(reduced: bool, factor: real) {
    (reduced && factor == 0.5) || (!reduced && factor == 1.0)
  }

  /** All factors of a request: volatility, confidence and reduction, besides its own size scaler. */
  predicate FactorsAre(q: Request, reduced: bool, v: real, c: real, r: real) {
    VixFactorIs(q.vix, v) && ConfidenceFactorIs(q.confidence, c) && ReductionIs(reduced, r)
  }

  /** The share of the capital for a conviction: linear from the smallest to the largest, but at most the cap. */
  predicate ConvictionShareIs(cfg: Config, conviction: real, line: real, share: real) {
    && (conviction <= 0.0 ==> line == cfg.minPct)
    && (conviction >= 1.0 ==> line == cfg.maxPctSizing)
    && (0.0 < conviction < 1.0 ==> line == (1.0 - conviction) * cfg.minPct + conviction * cfg.maxPctSizing)
    && ((line <= cfg.maxPct && share == line) || (line > cfg.maxPct && share == cfg.maxPct))
  }

  /** The product of the factors. */
  function Scaled(v: real, c: real, r: real, size: real): real { v * c * r * size }

  lemma LineBetween(low: real, high: real, conviction: real)
    ensures low + (high - low) * conviction == (1.0 - conviction) * low + conviction * high
  {
  }

  lemma LineIs(low: real, high: real, conviction: real)
    ensures conviction <= 0.0 ==> Interpolate(low, high, conviction) == low
    ensures conviction >= 1.0 ==> Interpolate(low, high, conviction) == high
    ensures 0.0 < conviction < 1.0 ==>
      Interpolate(low, high, conviction) == (1.0 - conviction) * low + conviction * high
  {
    var width := high - low;
    assert Part(width, 0.0) == 0.0 && Part(width, 1.0) == width;
    LineBetween(low, high, conviction);
  }

  lemma ShareIs(cfg: Config, conviction: real, line: real, share: real)
    requires ConvictionShareIs(cfg, conviction, line, share)
    ensures share == TargetPct(cfg, conviction)
  {
    LineIs(cfg.minPct, cfg.maxPctSizing, conviction);
    assert line == Interpolate(cfg.minPct, cfg.maxPctSizing, conviction);
  }

  lemma ScalerIs(q: Request, reduced: bool, v: real, c: real, r: real)
    requires FactorsAre(q, reduced, v, c, r)
    ensures RiskScaler(q, reduced) == Scaled(v, c, r, q.sizeScaler)
  {
    assert ScalerOf(v, c, q.sizeScaler, r) == Scaled(v, c, r, q.sizeScaler);
  }

  lemma SharesAre(stake: real, scaler: real, per: real, n: real)
    requires per > 0.0 && n * per == stake * scaler
    ensures Shares(stake, scaler, per) == n
  {
    QuotientIs(stake * scaler, per, n);
  }

  /** With dynamic sizing: the conviction share of the capital times the factors, over the price. */
  lemma DynamicWanted(cfg: Config, capital: real, q: Request, reduced: bool, v: real, c: real, r: real, line: real,
                      share: real, n: real)
    requires cfg.dynamic && q.terms.price > 0.0 && q.terms.atr.Some?
    requires FactorsAre(q, reduced, v, c, r) && ConvictionShareIs(cfg, q.conviction, line, share)
    requires n * q.terms.price == Part(capital, share) * Scaled(v, c, r, q.sizeScaler)
    ensures Raw(cfg, capital, q, reduced) == Some(n)
  {
    ShareIs(cfg, q.conviction, line, share);
    ScalerIs(q, reduced, v, c, r);
    SharesAre(Part(capital, share), Scaled(v, c, r, q.sizeScaler), q.terms.price, n);
  }

  lemma EachStock(total: real, stocks: int, scaler: real, loss: real)
    requires stocks >= 1 && loss * stocks as real == total * scaler
    ensures loss == total / stocks as real * scaler
  {
    var each := total / stocks as real;
    assert each * stocks as real == total;
    assert (loss - each * scaler) * stocks as real == 0.0;
  }

  /** Without it: the risk share of the capital per stock times the factors, over the loss of a share at the stop. */
  lemma RiskWanted(cfg: Config, capital: real, q: Request, reduced: bool, v: real, c: real, r: real, stocks: int,
                   n: real)
    requires !(cfg.dynamic && q.terms.price > 0.0)
    requires q.terms.atr.Some? && q.terms.atr.value * q.terms.slMultiplier > 0.0
    requires FactorsAre(q, reduced, v, c, r) && stocks == if q.strategies >= 1 then q.strategies else 1
    requires n * (q.terms.atr.value * q.terms.slMultiplier) * stocks as real
          == capital * cfg.riskPerTradePct * Scaled(v, c, r, q.sizeScaler)
    ensures Raw(cfg, capital, q, reduced) == Some(n)
  {
    var t, scaler := q.terms, Scaled(v, c, r, q.sizeScaler);
    var total, per := capital * cfg.riskPerTradePct, t.atr.value * t.slMultiplier;
    var stake := Stake(cfg, capital, t.price, q.conviction, q.strategies);
    ScalerIs(q, reduced, v, c, r);
    EachStock(total, stocks, scaler, n * per);
    assert stake == total / stocks as real && PerShare(cfg, t) == per;
    SharesAre(stake, scaler, per, n);
  }

  /** Nothing is wanted when a share carries no risk and there is no dynamic sizing. */
  lemma NoRiskNoSize(cfg: Config, capital: real, maxLoss: real, q: Request, reduced: bool, halted: bool)
    requires !(cfg.dynamic && q.terms.price > 0.0)
    requires q.terms.atr.Some? ==> q.terms.atr.value * q.terms.slMultiplier <= 0.0
    ensures Size(cfg, capital, maxLoss, q, reduced, halted) == 0.0
  {
  }

  // ----- where no cap binds

  /** No cap is below `n`: neither the position, the cash, the exposure, the Kelly cap nor the loss at the stop. */
  predicate NothingBinds(cfg: Config, capital: real, maxLoss: real, t: Terms, n: real) {
    && (t.price > 0.0 ==>
          && n * t.price <= capital * cfg.maxPct
          && (t.cash > 0.0 ==> n * t.price <= t.cash - 50.0)
          && (cfg.maxExposurePct.Some? && t.invested.Some? ==>
                n * t.price <= capital * cfg.maxExposurePct.value - t.invested.value)
          && (t.slMultiplier > 0.0 && t.atr.Some? ==> n * t.atr.value * t.slMultiplier <= maxLoss))
    && cfg.kellyCap.None?
  }

  lemma UnitsFit(n: real, price: real, limit: real)
    requires price > 0.0 && n * price <= limit
    ensures n <= limit / price
  {
    DivideUp(price, n * price, limit);
    QuotientIs(n * price, price, n);
  }

  lemma UncappedPosition(cfg: Config, capital: real, t: Terms, n: real)
    requires t.price > 0.0 ==> n * t.price <= capital * cfg.maxPct
    ensures CapPosition(cfg, capital, t, n) == n
  {
    if t.price > 0.0 { UnitsFit(n, t.price, capital * cfg.maxPct); }
  }

  lemma UncappedCash(t: Terms, n: real)
    requires t.price > 0.0 && t.cash > 0.0 ==> n * t.price <= t.cash - 50.0
    ensures CapCash(t, n) == n
  {
    if t.price > 0.0 && t.cash > 0.0 { UnitsFit(n, t.price, t.cash - 50.0); }
  }

  lemma Uncapped(cfg: Config, capital: real, maxLoss: real, t: Terms, n: real)
    requires t.atr.Some? && NothingBinds(cfg, capital, maxLoss, t, n)
    ensures Capped(cfg, capital, maxLoss, t, n) == n
  {
    UncappedPosition(cfg, capital, t, n);
    UncappedCash(t, n);
    assert CapExposure(cfg, capital, t, n) == n;
    assert CapLoss(maxLoss, t, n) == n;
  }

  // ----- how the pipeline ends

  /** `k` is the whole number nearest to `y`, and the even one half way. */
  predicate Nearest(y: real, k: int) {
    y - 0.5 <= k as real <= y + 0.5 && (k as real == y - 0.5 || k as real == y + 0.5 ==> k % 2 == 0)
  }

  lemma NearestIsOne(y: real, j: int, k: int)
    requires Nearest(y, j) && Nearest(y, k)
    ensures j == k
  {
  }

  function InMillionths(x: real): real { x * 1000000.0 }

  /** Rounding takes the nearest number of millionths. */
  lemma RoundedIs(x: real, k: int)
    requires Nearest(InMillionths(x), k)
    ensures Round6(x) == k as real / 1000000.0
  {
    var y := InMillionths(x);
    var down := y.Floor;
    var rest := y - down as real;
    var j := if rest < 0.5 || (rest == 0.5 && down % 2 == 0) then down else down + 1;
    NearestIsOne(y, j, k);
  }

  lemma ZeroStaysZero(cfg: Config, t: Terms)
    ensures Round6(0.0) == 0.0 && WholeShares(t, 0.0) == 0.0 && DropDust(cfg, t, 0.0) == 0.0
  {
    RoundedIs(0.0, 0);
  }

  /** `w` is `r`, cut to the `j` whole shares in it where fractions are not allowed. */
  predicate IsCut(t: Terms, r: real, j: int, w: real) {
    if t.fractional then w == r else w == j as real && j as real <= r < (j + 1) as real
  }

  lemma WholeIs(t: Terms, r: real, j: int, w: real)
    requires r >= 0.0 && IsCut(t, r, j, w)
    ensures WholeShares(t, r) == if w <= 0.0 then 0.0 else w
  {
    if !t.fractional { assert r.Floor == j; }
  }

  lemma UnitOver(price: real)
    requires price > 0.0
    ensures 1.0 / price > 0.0 && (1.0 / price) * price == 1.0
  {
    var u := 1.0 / price;
    assert u * price == 1.0;
    if u <= 0.0 { ScaleUp(price, u, 0.0); }
  }

  lemma OneUnit(n: real, price: real, u: real)
    requires price > 0.0 && u > 0.0 && u * price == 1.0
    ensures n < u <==> n * price < 1.0
  {
    var gap := n - u;
    assert n * price == 1.0 + gap * price;
    if gap >= 0.0 { ScaleUp(price, 0.0, gap); } else { assert -gap * price > 0.0; }
  }

  lemma TinyIs(t: Terms, n: real)
    requires t.price > 0.0
    ensures DropTiny(t, n) == if n * t.price < 1.0 then 0.0 else n
    ensures n * t.price >= 1.0 ==> n > 0.0
  {
    UnitOver(t.price);
    OneUnit(n, t.price, 1.0 / t.price);
  }

  lemma TinyEnds(cfg: Config, t: Terms, n: real)
    requires t.price > 0.0 && n * t.price < 1.0
    ensures Finish(cfg, t, n) == 0.0
  {
    TinyIs(t, n);
    ZeroStaysZero(cfg, t);
  }

  lemma RoundedNotNegative(cfg: Config, t: Terms, n: real, r: real)
    requires t.price > 0.0 && n * t.price >= 1.0 && Round6(n) == r
    ensures r >= 0.0 && DropTiny(t, n) == n
  {
    TinyIs(t, n);
    ZeroStaysZero(cfg, t);
    RoundUp(0.0, n);
  }

  lemma DustIs(cfg: Config, t: Terms, w: real)
    requires t.price > 0.0
    ensures DropDust(cfg, t, if w <= 0.0 then 0.0 else w)
         == if w <= 0.0 || w * t.price < cfg.minOrderValue then 0.0 else w
  {
  }

  lemma RestEnds(cfg: Config, t: Terms, n: real, r: real, j: int, w: real)
    requires DropTiny(t, n) == n && Round6(n) == r && r >= 0.0 && IsCut(t, r, j, w)
    ensures Finish(cfg, t, n) == DropDust(cfg, t, if w <= 0.0 then 0.0 else w)
  {
    WholeIs(t, r, j, w);
  }

  /**
   The end of the pipeline at a price: a size worth less than one unit of money ends as 0, any other is rounded,
   and cut to whole shares where fractions are not allowed; what is then worth less than the dust minimum is 0.
   */
  lemma FinishIs(cfg: Config, t: Terms, n: real, k: int, j: int, w: real)
    requires t.price > 0.0 && Nearest(InMillionths(n), k) && IsCut(t, k as real / 1000000.0, j, w)
    ensures Finish(cfg, t, n)
         == if n * t.price < 1.0 || w <= 0.0 || w * t.price < cfg.minOrderValue then 0.0 else w
  {
    if n * t.price < 1.0 {
      TinyEnds(cfg, t, n);
    } else {
      var r := k as real / 1000000.0;
      RoundedIs(n, k);
      RoundedNotNegative(cfg, t, n, r);
      RestEnds(cfg, t, n, r, j, w);
      DustIs(cfg, t, w);
    }
  }

  /** Without a price only the smallest sizes are dropped. */
  lemma FinishWithoutPrice(cfg: Config, t: Terms, n: real, k: int)
    requires t.price <= 0.0 && t.fractional && Nearest(InMillionths(n), k)
    ensures Finish(cfg, t, n) == if n < 0.001 then 0.0 else k as real / 1000000.0
  {
    ZeroStaysZero(cfg, t);
    RoundedIs(n, k);
  }

  // ----- the size

  /**
   Where no cap and no threshold binds, the size with dynamic sizing is, within half a unit of the sixth decimal,
   the capital times the conviction share, the factors and the size scaler, over the price.
   */
  lemma DynamicSizeIs(cfg: Config, capital: real, maxLoss: real, q: Request, reduced: bool, v: real, c: real, r: real,
                      line: real, share: real, n: real)
    requires cfg.dynamic && q.terms.price > 0.0 && q.terms.atr.Some? && q.terms.atr.value > 0.0 && q.terms.fractional
    requires FactorsAre(q, reduced, v, c, r) && ConvictionShareIs(cfg, q.conviction, line, share)
    requires n * q.terms.price == Part(capital, share) * Scaled(v, c, r, q.sizeScaler)
    requires NothingBinds(cfg, capital, maxLoss, q.terms, n)
    requires n * q.terms.price >= 1.0 && cfg.minOrderValue <= (n - 0.0000005) * q.terms.price && n > 0.0000005
    ensures n - 0.0000005 <= Size(cfg, capital, maxLoss, q, reduced, false) <= n + 0.0000005
  {
    DynamicWanted(cfg, capital, q, reduced, v, c, r, line, share, n);
    FreeSize(cfg, capital, maxLoss, q.terms, n);
  }

  /** The same without dynamic sizing, over the loss of a share at the stop. */
  lemma RiskSizeIs(cfg: Config, capital: real, maxLoss: real, q: Request, reduced: bool, v: real, c: real, r: real,
                   stocks: int, n: real)
    requires !cfg.dynamic && q.terms.price > 0.0 && q.terms.atr.Some? && q.terms.atr.value > 0.0 && q.terms.fractional
    requires q.terms.slMultiplier > 0.0 && FactorsAre(q, reduced, v, c, r)
    requires stocks == if q.strategies >= 1 then q.strategies else 1
    requires n * (q.terms.atr.value * q.terms.slMultiplier) * stocks as real
          == capital * cfg.riskPerTradePct * Scaled(v, c, r, q.sizeScaler)
    requires NothingBinds(cfg, capital, maxLoss, q.terms, n)
    requires n * q.terms.price >= 1.0 && cfg.minOrderValue <= (n - 0.0000005) * q.terms.price && n > 0.0000005
    ensures n - 0.0000005 <= Size(cfg, capital, maxLoss, q, reduced, false) <= n + 0.0000005
  {
    RiskWanted(cfg, capital, q, reduced, v, c, r, stocks, n);
    FreeSize(cfg, capital, maxLoss, q.terms, n);
  }

  /** And where there is no price, so that only the smallest sizes are dropped. */
  lemma RiskSizeWithoutPrice(cfg: Config, capital: real, maxLoss: real, q: Request, reduced: bool, v: real, c: real,
                             r: real, stocks: int, n: real)
    requires q.terms.price <= 0.0 && q.terms.atr.Some? && q.terms.atr.value > 0.0 && q.terms.fractional
    requires q.terms.slMultiplier > 0.0 && FactorsAre(q, reduced, v, c, r) && cfg.kellyCap.None?
    requires stocks == if q.strategies >= 1 then q.strategies else 1
    requires n * (q.terms.atr.value * q.terms.slMultiplier) * stocks as real
          == capital * cfg.riskPerTradePct * Scaled(v, c, r, q.sizeScaler)
    ensures var size := Size(cfg, capital, maxLoss, q, reduced, false);
      if n < 0.001 then size == 0.0 else n - 0.0000005 <= size <= n + 0.0000005
  {
    var k := NearestExists(InMillionths(n));
    RiskWanted(cfg, capital, q, reduced, v, c, r, stocks, n);
    Uncapped(cfg, capital, maxLoss, q.terms, n);
    FinishWithoutPrice(cfg, q.terms, n, k);
    RoundedIs(n, k);
    RoundNear(n);
  }

  lemma NearestExists(y: real) returns (k: int)
    ensures Nearest(y, k)
  {
    var down := y.Floor;
    var rest := y - down as real;
    k := if rest < 0.5 || (rest == 0.5 && down % 2 == 0) then down else down + 1;
  }

  lemma FreeFinish(cfg: Config, t: Terms, n: real)
    requires t.price > 0.0 && t.fractional && n * t.price >= 1.0 && n > 0.0000005
    requires cfg.minOrderValue <= (n - 0.0000005) * t.price
    ensures n - 0.0000005 <= Finish(cfg, t, n) <= n + 0.0000005
  {
    var k := NearestExists(InMillionths(n));
    var r := k as real / 1000000.0;
    RoundedIs(n, k);
    RoundNear(n);
    NotDust(n - 0.0000005, r, t.price, cfg.minOrderValue);
    FinishIs(cfg, t, n, k, 0, r);
  }

  lemma NotDust(m: real, r: real, price: real, limit: real)
    requires 0.0 < price && m <= r && limit <= m * price
    ensures limit <= r * price
  {
    ScaleUp(price, m, r);
  }

  lemma FreeSize(cfg: Config, capital: real, maxLoss: real, t: Terms, n: real)
    requires t.price > 0.0 && t.atr.Some? && t.fractional && NothingBinds(cfg, capital, maxLoss, t, n)
    requires n * t.price >= 1.0 && cfg.minOrderValue <= (n - 0.0000005) * t.price && n > 0.0000005
    ensures n - 0.0000005 <= Pipeline(cfg, capital, maxLoss, t, n) <= n + 0.0000005
  {
    Uncapped(cfg, capital, maxLoss, t, n);
    FreeFinish(cfg, t, n);
  }

  // ----- the caps take no more than they must

  lemma AtLeast(m: real, n: real, unit: real, limit: real)
    requires unit > 0.0 && m <= n && m * unit <= limit
    ensures m <= Min(n, limit / unit)
  {
    UnitsFit(m, unit, limit);
  }

  lemma PositionAtLeast(cfg: Config, capital: real, t: Terms, n: real, m: real)
    requires t.price > 0.0 && m <= n && m * t.price <= capital * cfg.maxPct
    ensures m <= CapPosition(cfg, capital, t, n) <= n
  {
    AtLeast(m, n, t.price, capital * cfg.maxPct);
  }

  lemma CashAtLeast(t: Terms, n: real, m: real)
    requires t.price > 0.0 && m <= n && (t.cash > 0.0 ==> m * t.price <= t.cash - 50.0)
    ensures m <= CapCash(t, n) <= n
  {
    if t.cash > 0.0 { AtLeast(m, n, t.price, t.cash - 50.0); }
  }

  /**
   Without a Kelly cap the caps leave the largest size that obeys them all: any other size within them, and not
   above the wanted one, is at most as large.
   */
  lemma CappedIsLargest(cfg: Config, capital: real, maxLoss: real, t: Terms, n: real, m: real)
    requires t.price > 0.0 && t.atr.Some? && t.atr.value > 0.0 && cfg.kellyCap.None?
    requires 0.0 <= m <= n && NothingBinds(cfg, capital, maxLoss, t, m)
    ensures m <= Capped(cfg, capital, maxLoss, t, n) <= n
  {
    var n1 := CapPosition(cfg, capital, t, n);
    var n2 := CapCash(t, n1);
    var n3 := CapExposure(cfg, capital, t, n2);
    PositionAtLeast(cfg, capital, t, n, m);
    CashAtLeast(t, n1, m);
    ExposureAtLeast(cfg, capital, t, n2, m);
    ExposureShrinks(cfg, capital, t, n2);
    LossAtLeast(maxLoss, t, n3, m);
    LossShrinks(maxLoss, t, n3);
  }

  lemma ExposureAtLeast(cfg: Config, capital: real, t: Terms, n: real, m: real)
    requires t.price > 0.0 && 0.0 <= m <= n
    requires cfg.maxExposurePct.Some? && t.invested.Some? ==>
      m * t.price <= capital * cfg.maxExposurePct.value - t.invested.value
    ensures m <= CapExposure(cfg, capital, t, n)
  {
    if cfg.maxExposurePct.Some? && t.invested.Some? {
      AtLeast(m, n, t.price, capital * cfg.maxExposurePct.value - t.invested.value);
    }
  }

  lemma LossAtLeast(maxLoss: real, t: Terms, n: real, m: real)
    requires t.price > 0.0 && t.atr.Some? && t.atr.value > 0.0 && 0.0 <= m <= n
    requires t.slMultiplier > 0.0 ==> m * t.atr.value * t.slMultiplier <= maxLoss
    ensures m <= CapLoss(maxLoss, t, n)
  {
    if t.slMultiplier > 0.0 {
      var per := t.atr.value * t.slMultiplier;
      assert per > 0.0 && m * t.atr.value * t.slMultiplier == m * per;
      AtLeast(m, n, per, maxLoss);
    }
  }

  /** A Kelly cap multiplies what the caps before it leave, and only the loss at the stop is checked behind it. */
  lemma KellyMultiplies(cfg: Config, capital: real, maxLoss: real, t: Terms, n: real, k: real)
    requires t.atr.Some? && cfg.kellyCap == Some(k)
    ensures var before := CapExposure(cfg, capital, t, CapCash(t, CapPosition(cfg, capital, t, n)));
      Capped(cfg, capital, maxLoss, t, n) == CapLoss(maxLoss, t, if before > 0.0 then before * k else before)
  {
  }

  // ----- confidence

  lemma SharesUpWithConfidence(stake: real, v: real, c1: real, c2: real, s: real, r: real, per: real)
    requires 0.0 <= c1 <= c2 && per > 0.0
    ensures Ordered(Shares(stake, ScalerOf(v, c1, s, r), per), Shares(stake, ScalerOf(v, c2, s, r), per))
  {
    ConfidenceFactor(stake, v, c1, s, r);
    ConfidenceFactor(stake, v, c2, s, r);
    FactorUp(c1, c2, stake * (v * s * r), per);
  }

  lemma ConfidenceFactor(stake: real, v: real, c: real, s: real, r: real)
    ensures stake * ScalerOf(v, c, s, r) == c * (stake * (v * s * r))
  {
    assert v * c * s * r == c * (v * s * r);
    assert stake * (c * (v * s * r)) == c * (stake * (v * s * r));
  }

  function Rank(c: Confidence): int {
    match c
    case Low => 0
    case Medium => 1
    case High => 2
  }

  /** More confidence never gives a smaller size. */
  lemma SizeUpWithConfidence(cfg: Config, capital: real, maxLoss: real, q: Request, c1: Confidence, c2: Confidence,
                             reduced: bool, halted: bool)
    requires Rank(c1) <= Rank(c2)
    ensures Size(cfg, capital, maxLoss, q.(confidence := c1), reduced, halted)
         <= Size(cfg, capital, maxLoss, q.(confidence := c2), reduced, halted)
  {
    var t := q.terms;
    if t.atr.Some? && PerShare(cfg, t) > 0.0 {
      SharesUpWithConfidence(Stake(cfg, capital, t.price, q.conviction, q.strategies), VixScaler(q.vix),
                             ConfidenceScaler(c1), ConfidenceScaler(c2), q.sizeScaler, ReductionScaler(reduced),
                             PerShare(cfg, t));
    }
    SizeOrdered(cfg, capital, maxLoss, q.(confidence := c1), q.(confidence := c2), reduced, reduced, halted);
  }
}
