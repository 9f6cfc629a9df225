/** How the size moves with conviction, volatility and the warning phase, through the whole pipeline. */
module SizingOrder {
  import opened Prelude
  import opened Sizing

  lemma ExposureUp(cfg: Config, capital: real, q: Terms, n: real, m: real)
    requires n <= m
    ensures CapExposure(cfg, capital, q, n) <= CapExposure(cfg, capital, q, m)
  {
    if cfg.maxExposurePct.Some? && q.price > 0.0 && q.invested.Some? {
      var room := capital * cfg.maxExposurePct.value - q.invested.value;
      ScaleUp(q.price, n, m);
      if n * q.price <= room {
        DivideUp(q.price, n * q.price, room);
        assert n * q.price / q.price == n;
      }
    }
  }

  lemma KellyUp(cfg: Config, n: real, m: real)
    requires n <= m && (cfg.kellyCap.Some? ==> 0.0 <= cfg.kellyCap.value)
    ensures ScaleKelly(cfg, n) <= ScaleKelly(cfg, m)
  {
    if cfg.kellyCap.Some? && m > 0.0 {
      ScaleUp(m, 0.0, cfg.kellyCap.value);
      ScaleUp(cfg.kellyCap.value, n, m);
    }
  }

  /** Cutting at the loss limit is cutting at a number of shares. */
  lemma LossCut(maxLoss: real, q: Terms, n: real)
    requires q.atr.Some? && q.atr.value > 0.0 && q.slMultiplier > 0.0 && q.price > 0.0
    ensures var most := maxLoss / (q.atr.value * q.slMultiplier);
      CapLoss(maxLoss, q, n) == if most < n then Max(0.0, most) else n
  {
    var perShare := q.atr.value * q.slMultiplier;
    assert perShare > 0.0 && n * q.atr.value * q.slMultiplier == n * perShare;
    if n * perShare <= maxLoss {
      DivideUp(perShare, n * perShare, maxLoss);
      assert n * perShare / perShare == n;
    }
  }

  lemma LossUp(maxLoss: real, q: Terms, n: real, m: real)
    requires n <= m && q.atr.Some? && q.atr.value > 0.0
    ensures CapLoss(maxLoss, q, n) <= CapLoss(maxLoss, q, m)
  {
    if q.slMultiplier > 0.0 && q.price > 0.0 {
      LossCut(maxLoss, q, n);
      LossCut(maxLoss, q, m);
    }
  }

  lemma CappedUp(cfg: Config, capital: real, maxLoss: real, q: Terms, n: real, m: real)
    requires n <= m && q.atr.Some? && q.atr.value > 0.0 && (cfg.kellyCap.Some? ==> 0.0 <= cfg.kellyCap.value)
    ensures Capped(cfg, capital, maxLoss, q, n) <= Capped(cfg, capital, maxLoss, q, m)
  {
    var n1, m1 := CapPosition(cfg, capital, q, n), CapPosition(cfg, capital, q, m);
    var n2, m2 := CapCash(q, n1), CapCash(q, m1);
    ExposureUp(cfg, capital, q, n2, m2);
    var n3, m3 := CapExposure(cfg, capital, q, n2), CapExposure(cfg, capital, q, m2);
    KellyUp(cfg, n3, m3);
    LossUp(maxLoss, q, ScaleKelly(cfg, n3), ScaleKelly(cfg, m3));
  }

  lemma WholeUp(q: Terms, n: real, m: real)
    requires 0.0 <= n <= m
    ensures 0.0 <= WholeShares(q, n) <= WholeShares(q, m)
  {
    TruncateUp(n, m);
    TruncateBelow(n);
  }

  lemma DustUp(cfg: Config, q: Terms, n: real, m: real)
    requires 0.0 <= n <= m
    ensures 0.0 <= DropDust(cfg, q, n) <= DropDust(cfg, q, m)
  {
    if q.price > 0.0 { ScaleUp(q.price, n, m); }
  }

  lemma TinyUp(q: Terms, n: real, m: real)
    requires n <= m
    ensures 0.0 <= DropTiny(q, n) <= DropTiny(q, m)
  {
    if q.price > 0.0 { assert 1.0 / q.price > 0.0; }
  }

  lemma FinishUp(cfg: Config, q: Terms, n: real, m: real)
    requires n <= m
    ensures 0.0 <= Finish(cfg, q, n) <= Finish(cfg, q, m)
  {
    TinyUp(q, n, m);
    RoundUp(DropTiny(q, n), DropTiny(q, m));
    RoundUp(0.0, DropTiny(q, n));
    WholeUp(q, Round6(DropTiny(q, n)), Round6(DropTiny(q, m)));
    DustUp(cfg, q, WholeShares(q, Round6(DropTiny(q, n))), WholeShares(q, Round6(DropTiny(q, m))));
  }

  lemma FinishZero(cfg: Config, q: Terms, n: real)
    requires n <= 0.0
    ensures Finish(cfg, q, n) == 0.0
  {
    TinyUp(q, n, 0.0);
    assert DropTiny(q, n) == 0.0;
    assert Round6(0.0) == 0.0;
    assert Truncate(0.0) == 0.0;
  }

  /** A raw size that is not positive, or a negative Kelly cap, ends as size 0. */
  lemma NothingToBuy(cfg: Config, capital: real, maxLoss: real, q: Terms, n: real)
    requires q.atr.Some?
    requires n <= 0.0 || (cfg.kellyCap.Some? && cfg.kellyCap.value < 0.0)
    ensures Pipeline(cfg, capital, maxLoss, q, n) == 0.0
  {
    var n2 := CapCash(q, CapPosition(cfg, capital, q, n));
    var n3 := CapExposure(cfg, capital, q, n2);
    ExposureShrinks(cfg, capital, q, n2);
    if n3 > 0.0 { ScaleUp(n3, cfg.kellyCap.value, 0.0); }
    LossShrinks(maxLoss, q, ScaleKelly(cfg, n3));
    FinishZero(cfg, q, Capped(cfg, capital, maxLoss, q, n));
  }

  /** The pipeline keeps the order of raw sizes. */
  lemma PipelineUp(cfg: Config, capital: real, maxLoss: real, q: Terms, n: real, m: real)
    requires q.atr.Some? && q.atr.value > 0.0 && (n <= m || n <= 0.0)
    ensures Pipeline(cfg, capital, maxLoss, q, n) <= Pipeline(cfg, capital, maxLoss, q, m)
  {
    FinishUp(cfg, q, Capped(cfg, capital, maxLoss, q, m), Capped(cfg, capital, maxLoss, q, m));
    if n <= 0.0 || (cfg.kellyCap.Some? && cfg.kellyCap.value < 0.0) {
      NothingToBuy(cfg, capital, maxLoss, q, n);
    } else {
      CappedUp(cfg, capital, maxLoss, q, n, m);
      FinishUp(cfg, q, Capped(cfg, capital, maxLoss, q, n), Capped(cfg, capital, maxLoss, q, m));
    }
  }

  /** Two products with one factor raised: the smaller one is not positive, or not larger. */
  lemma FactorUp(a: real, b: real, x: real, per: real)
    requires 0.0 <= a <= b && per > 0.0
    ensures a * x / per <= b * x / per || a * x / per <= 0.0
  {
    if x >= 0.0 {
      ScaleUp(x, a, b);
      DivideUp(per, a * x, b * x);
    } else {
      ScaleUp(a, x, 0.0);
      DivideUp(per, a * x, 0.0);
    }
  }

  /** `n` ends up no larger than `m`. */
  predicate Ordered(n: real, m: real) { n <= m || n <= 0.0 }

  lemma SharesUpWithStake(capital: real, pct1: real, pct2: real, scaler: real, per: real)
    requires 0.0 <= pct1 <= pct2 && per > 0.0
    ensures Ordered(Shares(Part(capital, pct1), scaler, per), Shares(Part(capital, pct2), scaler, per))
  {
    assert capital * pct1 * scaler == pct1 * (capital * scaler);
    assert capital * pct2 * scaler == pct2 * (capital * scaler);
    FactorUp(pct1, pct2, capital * scaler, per);
  }

  lemma VixFactor(stake: real, v: real, c: real, s: real, r: real)
    ensures stake * ScalerOf(v, c, s, r) == v * (stake * (c * s * r))
  {
    assert v * c * s * r == v * (c * s * r);
    assert stake * (v * (c * s * r)) == v * (stake * (c * s * r));
  }

  lemma SharesUpWithVixScaler(stake: real, v1: real, v2: real, c: real, s: real, r: real, per: real)
    requires 0.0 <= v1 <= v2 && per > 0.0
    ensures Ordered(Shares(stake, ScalerOf(v1, c, s, r), per), Shares(stake, ScalerOf(v2, c, s, r), per))
  {
    VixFactor(stake, v1, c, s, r);
    VixFactor(stake, v2, c, s, r);
    FactorUp(v1, v2, stake * (c * s * r), per);
  }

  lemma SharesUpWithReduction(stake: real, v: real, c: real, s: real, r1: real, r2: real, per: real)
    requires 0.0 <= r1 <= r2 && per > 0.0
    ensures Ordered(Shares(stake, ScalerOf(v, c, s, r1), per), Shares(stake, ScalerOf(v, c, s, r2), per))
  {
    assert stake * ScalerOf(v, c, s, r1) == r1 * (stake * (v * c * s));
    assert stake * ScalerOf(v, c, s, r2) == r2 * (stake * (v * c * s));
    FactorUp(r1, r2, stake * (v * c * s), per);
  }

  lemma PartUp(amount: real, d1: real, d2: real)
    requires 0.0 <= amount && 0.0 <= d1 <= d2
    ensures 0.0 <= Part(amount, d1) <= Part(amount, d2)
  {
    ScaleUp(amount, d1, d2);
    ScaleUp(amount, 0.0, d1);
  }

  lemma InterpolateUp(low: real, high: real, c1: real, c2: real)
    requires c1 <= c2 && low <= high
    ensures low <= Interpolate(low, high, c1) <= Interpolate(low, high, c2)
  {
    PartUp(high - low, Max(0.0, Min(1.0, c1)), Max(0.0, Min(1.0, c2)));
  }

  lemma TargetUp(cfg: Config, c1: real, c2: real)
    requires c1 <= c2 && 0.0 <= cfg.minPct <= cfg.maxPctSizing && 0.0 <= cfg.maxPct
    ensures 0.0 <= TargetPct(cfg, c1) <= TargetPct(cfg, c2)
  {
    InterpolateUp(cfg.minPct, cfg.maxPctSizing, c1, c2);
  }

  /** Sizes are ordered as soon as the raw sizes are. */
  lemma SizeOrdered(cfg: Config, capital: real, maxLoss: real, q1: Request, q2: Request, reduced1: bool,
                    reduced2: bool, halted: bool)
    requires q1.terms == q2.terms
    requires var t := q1.terms; t.atr.Some? && PerShare(cfg, t) > 0.0 ==>
      Ordered(Raw(cfg, capital, q1, reduced1).value, Raw(cfg, capital, q2, reduced2).value)
    ensures Size(cfg, capital, maxLoss, q1, reduced1, halted) <= Size(cfg, capital, maxLoss, q2, reduced2, halted)
  {
    var t := q1.terms;
    if t.atr.Some? && t.atr.value > 0.0 && PerShare(cfg, t) > 0.0 {
      PipelineUp(cfg, capital, maxLoss, t, Raw(cfg, capital, q1, reduced1).value,
                 Raw(cfg, capital, q2, reduced2).value);
    }
  }

  lemma StakeUpWithConviction(cfg: Config, capital: real, price: real, c1: real, c2: real, strategies: int,
                              scaler: real, per: real)
    requires c1 <= c2 && 0.0 <= cfg.minPct <= cfg.maxPctSizing && 0.0 <= cfg.maxPct && per > 0.0
    ensures Ordered(Shares(Stake(cfg, capital, price, c1, strategies), scaler, per),
                    Shares(Stake(cfg, capital, price, c2, strategies), scaler, per))
  {
    if cfg.dynamic && price > 0.0 {
      TargetUp(cfg, c1, c2);
      SharesUpWithStake(capital, TargetPct(cfg, c1), TargetPct(cfg, c2), scaler, per);
    } else {
      assert Stake(cfg, capital, price, c1, strategies) == Stake(cfg, capital, price, c2, strategies);
    }
  }

  /** More conviction never gives a smaller size. */
  lemma SizeUpWithConviction(cfg: Config, capital: real, maxLoss: real, q: Request, c1: real, c2: real,
                             reduced: bool, halted: bool)
    requires c1 <= c2 && 0.0 <= cfg.minPct <= cfg.maxPctSizing && 0.0 <= cfg.maxPct
    ensures Size(cfg, capital, maxLoss, q.(conviction := c1), reduced, halted)
         <= Size(cfg, capital, maxLoss, q.(conviction := c2), reduced, halted)
  {
    var t := q.terms;
    if t.atr.Some? && PerShare(cfg, t) > 0.0 {
      StakeUpWithConviction(cfg, capital, t.price, c1, c2, q.strategies, RiskScaler(q, reduced), PerShare(cfg, t));
    }
    SizeOrdered(cfg, capital, maxLoss, q.(conviction := c1), q.(conviction := c2), reduced, reduced, halted);
  }

  /** A higher VIX never gives a larger size. */
  lemma SizeDownWithVix(cfg: Config, capital: real, maxLoss: real, q: Request, v1: real, v2: real, reduced: bool,
                        halted: bool)
    requires v1 <= v2
    ensures Size(cfg, capital, maxLoss, q.(vix := Some(v2)), reduced, halted)
         <= Size(cfg, capital, maxLoss, q.(vix := Some(v1)), reduced, halted)
  {
    var t := q.terms;
    if t.atr.Some? && PerShare(cfg, t) > 0.0 {
      SharesUpWithVixScaler(Stake(cfg, capital, t.price, q.conviction, q.strategies),
                            VixScaler(Some(v2)), VixScaler(Some(v1)),
                            ConfidenceScaler(q.confidence), q.sizeScaler, ReductionScaler(reduced), PerShare(cfg, t));
    }
    SizeOrdered(cfg, capital, maxLoss, q.(vix := Some(v2)), q.(vix := Some(v1)), reduced, reduced, halted);
  }

  /** The warning phase never gives a larger size. */
  lemma ReducedNeverLarger(cfg: Config, capital: real, maxLoss: real, q: Request, halted: bool)
    ensures Size(cfg, capital, maxLoss, q, true, halted) <= Size(cfg, capital, maxLoss, q, false, halted)
  {
    var t := q.terms;
    if t.atr.Some? && PerShare(cfg, t) > 0.0 {
      SharesUpWithReduction(Stake(cfg, capital, t.price, q.conviction, q.strategies), VixScaler(q.vix),
                            ConfidenceScaler(q.confidence), q.sizeScaler,
                            0.5, 1.0, PerShare(cfg, t));
    }
    SizeOrdered(cfg, capital, maxLoss, q, q, true, false, halted);
  }

  // ----- where the caps do not hold

  /** Terms at price 1 without cash, stop or readable positions: only the position cap limits them. */
  predicate PlainTerms(t: Terms) { t == Terms(0.0, Some(1.0), 1.0, t.cash, true, None) && t.cash <= 0.0 }

  /** A request on such terms at full conviction. */
  predicate Plain(q: Request) {
    && PlainTerms(q.terms) && q.conviction == 1.0
    && VixScaler(q.vix) == 1.0 && q.confidence.Medium? && q.sizeScaler == 1.0
  }

  function PlainRequest(cash: real): Request {
    Request(Terms(0.0, Some(1.0), 1.0, cash, true, None), Medium, 1.0, Some(10.0), 1, 1.0)
  }

  /** The repository's settings with any Kelly cap, or none. */
  predicate AnyKelly(cfg: Config) { cfg.(kellyCap := None) == REPOSITORY_CONFIG }

  function Kelly(cfg: Config): real { if cfg.kellyCap.Some? then cfg.kellyCap.value else 1.0 }

  lemma PlainRaw(cfg: Config, capital: real, q: Request)
    requires Plain(q) && AnyKelly(cfg)
    ensures Raw(cfg, capital, q, false) == Some(capital * 0.25)
  {
    assert Interpolate(cfg.minPct, cfg.maxPctSizing, 1.0) == 0.30;
    assert TargetPct(cfg, 1.0) == 0.25;
    assert RiskScaler(q, false) == 1.0;
    assert Shares(capital * 0.25, 1.0, 1.0) == capital * 0.25;
  }

  lemma PlainCapped(cfg: Config, capital: real, maxLoss: real, t: Terms)
    requires AnyKelly(cfg) && PlainTerms(t) && capital > 0.0
    ensures Capped(cfg, capital, maxLoss, t, capital * 0.25) == capital * 0.25 * Kelly(cfg)
  {
    assert CapPosition(cfg, capital, t, capital * 0.25) == capital * 0.25;
  }

  lemma PlainFinish(cfg: Config, t: Terms, n: real)
    requires n >= 100.0 && t.price == 1.0 && t.fractional && cfg.minOrderValue == 50.0
    ensures Finish(cfg, t, n) >= n - HALF_UNIT
  {
    RoundNear(n);
    assert DropTiny(t, n) == n;
  }

  lemma PlainSize(cfg: Config, capital: real, maxLoss: real, q: Request)
    requires Plain(q) && AnyKelly(cfg) && capital > 0.0 && capital * 0.25 * Kelly(cfg) >= 100.0
    ensures Size(cfg, capital, maxLoss, q, false, false) >= capital * 0.25 * Kelly(cfg) - HALF_UNIT
  {
    PlainRaw(cfg, capital, q);
    PlainCapped(cfg, capital, maxLoss, q.terms);
    PlainFinish(cfg, q.terms, capital * 0.25 * Kelly(cfg));
  }

  predicate KeepsCaps(cfg: Config, capital: real, maxLoss: real, q: Request) {
    q.terms.price > 0.0 ==> ObeysCaps(cfg, capital, maxLoss, q.terms, Size(cfg, capital, maxLoss, q, false, false))
  }

  /** A capital at which a Kelly cap above 1 exceeds a quarter of it by a full unit. */
  function Excess(k: real): real
    requires k > 1.0
  {
    4.0 / (k - 1.0) + 400.0
  }

  lemma ExcessExceeds(k: real)
    requires k > 1.0
    ensures var c := Excess(k) * 0.25; 100.0 <= c && c + 1.0 <= c * k
  {
    var x := 4.0 / (k - 1.0);
    assert x * (k - 1.0) == 4.0;
    DivideUp(k - 1.0, 0.0, 4.0);
    ScaleUp(k - 1.0, x * 0.25, x * 0.25 + 100.0);
    var c := x * 0.25 + 100.0;
    assert c * (k - 1.0) >= x * 0.25 * (k - 1.0) == 0.25 * (x * (k - 1.0));
    assert c * k == c * (k - 1.0) + c;
  }

  lemma PlainBreaksCap(cfg: Config, capital: real, q: Request)
    requires Plain(q) && AnyKelly(cfg) && Kelly(cfg) > 1.0 && capital == Excess(Kelly(cfg))
    ensures !KeepsCaps(cfg, capital, 0.0, q)
  {
    ExcessExceeds(Kelly(cfg));
    PlainSize(cfg, capital, 0.0, q);
  }

  /** With the repository's settings every request keeps every cap if and only if the Kelly cap is at most 1. */
  lemma CapsHoldIffKellyAtMostOne(cfg: Config)
    requires AnyKelly(cfg)
    ensures (forall capital: real, maxLoss: real, q: Request :: KeepsCaps(cfg, capital, maxLoss, q))
      <==> Kelly(cfg) <= 1.0
  {
    if Kelly(cfg) <= 1.0 {
      forall capital: real, maxLoss: real, q: Request ensures KeepsCaps(cfg, capital, maxLoss, q) {
        if q.terms.price > 0.0 { SizeWithinCaps(cfg, capital, maxLoss, q, false, false); }
      }
    } else {
      PlainBreaksCap(cfg, Excess(Kelly(cfg)), PlainRequest(0.0));
    }
  }

  // ----- the cash cap

  /** The size is 0, or worth at most the cash minus 50, up to the half unit of the rounding. */
  predicate KeepsCash(cfg: Config, capital: real, maxLoss: real, q: Request, reduced: bool) {
    var r := Size(cfg, capital, maxLoss, q, reduced, false);
    q.terms.price > 0.0 ==> r == 0.0 || AtMost(r, q.terms.price, q.terms.cash - 50.0)
  }

  /** Every request with this much cash keeps to it. */
  ghost predicate CashCapHolds(cfg: Config, cash: real) {
    forall capital: real, maxLoss: real, q: Request, reduced: bool ::
      q.terms.cash == cash ==> KeepsCash(cfg, capital, maxLoss, q, reduced)
  }

  lemma CashIsKept(cfg: Config, capital: real, maxLoss: real, q: Request, reduced: bool)
    requires Kelly(cfg) <= 1.0 && q.terms.cash > 0.0
    ensures KeepsCash(cfg, capital, maxLoss, q, reduced)
  {
    if q.terms.price > 0.0 { SizeWithinCaps(cfg, capital, maxLoss, q, reduced, false); }
  }

  lemma NoKellyNoSize(cfg: Config, capital: real, maxLoss: real, q: Request, reduced: bool)
    requires Kelly(cfg) <= 0.0
    ensures Size(cfg, capital, maxLoss, q, reduced, false) == 0.0
  {
    var t := q.terms;
    if t.atr.Some? && t.atr.value > 0.0 {
      var raw := Raw(cfg, capital, q, reduced);
      if raw.Some? {
        var n := CapExposure(cfg, capital, t, CapCash(t, CapPosition(cfg, capital, t, raw.value)));
        if n > 0.0 { ScaleUp(n, Kelly(cfg), 0.0); }
        LossShrinks(maxLoss, t, ScaleKelly(cfg, n));
        FinishZero(cfg, t, Capped(cfg, capital, maxLoss, t, raw.value));
      }
    }
  }

  lemma NoCashBreaksCap(cfg: Config, q: Request)
    requires Plain(q) && AnyKelly(cfg) && Kelly(cfg) > 0.0
    ensures !KeepsCash(cfg, 400.0 / Kelly(cfg), 0.0, q, false)
  {
    var capital := 400.0 / Kelly(cfg);
    assert capital > 0.0 && capital * Kelly(cfg) == 400.0;
    assert capital * 0.25 * Kelly(cfg) == capital * Kelly(cfg) * 0.25;
    PlainSize(cfg, capital, 0.0, q);
  }

  /**
   With the repository's settings and a Kelly cap of at most 1, every request keeps to the cash minus 50 if
   and only if there is cash, or the Kelly cap forbids every size: without cash there is no cash cap.
   */
  lemma CashCapHoldsIff(cfg: Config, cash: real)
    requires AnyKelly(cfg) && Kelly(cfg) <= 1.0
    ensures CashCapHolds(cfg, cash) <==> cash > 0.0 || Kelly(cfg) <= 0.0
  {
    if cash > 0.0 || Kelly(cfg) <= 0.0 {
      forall capital: real, maxLoss: real, q: Request, reduced: bool | q.terms.cash == cash
        ensures KeepsCash(cfg, capital, maxLoss, q, reduced)
      {
        if cash > 0.0 { CashIsKept(cfg, capital, maxLoss, q, reduced); }
        else { NoKellyNoSize(cfg, capital, maxLoss, q, reduced); }
      }
    } else {
      NoCashBreaksCap(cfg, PlainRequest(cash));
    }
  }

  /** In particular with nothing in the account, or debts, the full position is sized. */
  lemma NoCashNoCap(cfg: Config, maxLoss: real, q: Request)
    requires AnyKelly(cfg) && Kelly(cfg) == 1.0 && Plain(q)
    ensures q.terms.cash <= 0.0 && Size(cfg, 100000.0, maxLoss, q, false, false) * q.terms.price >= 24999.0
  {
    PlainSize(cfg, 100000.0, maxLoss, q);
  }
}
