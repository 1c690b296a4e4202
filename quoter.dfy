/** The `Quoter` of pm4/trading.py: the liquidity proxy from recent trades,
    the reservation price and half-spread in log-odds space, the ladder built
    around them, and the per-side clean-up that enforces the minimum order
    size and the notional cap. */
module Quoting {
  import opened RealMath
  import opened Utils
  import opened Config
  import opened Risk
  import opened Feed
  import opened Estimator
  import opened Ladder

  /** `U_proxy_window_s = 6 * 3600`, in milliseconds. */
  const UProxyWindowMs: int := 6 * 3600 * 1000
  /** The window of the trade rate that scales the book depth. */
  const RateWindowS: real := 60.0
  /** The mid is clipped to [1e-6, 1 - 1e-6] before it is used. */
  const MidEps: real := 0.000001
  /** The floor under the denominators of the depth terms. */
  const Tiny: real := 0.000000001

  datatype Side = Buy | Sell

  /** One order of the quote: `{"asset_id", "side", "price", "size"}`. */
  datatype Order = Order(assetId: string, side: Side, price: real, size: real)

  /** The `metrics` record `compute` reports. */
  datatype Metrics = Metrics(
    pMid: real, qhat: real, gamma: real, lambda: real, sigma: real,
    deltaLogit: real, rLogit: real, nBids: nat, nAsks: nat)

  datatype Quote = Quote(metrics: Metrics, bids: seq<Order>, asks: seq<Order>)

  // ---------------------------------------------------------------------
  // Liquidity proxy

  /** sqrt of the number of trailing trades inside the six-hour window. */
  function UProxy(f: Fns, ts: seq<int>, now: int): (u: real)
    requires Laws(f)
    ensures u >= 0.0
    ensures ts == [] ==> u == f.sqrt(0.0)
  {
    f.sqrt(RecentCount(ts, now - UProxyWindowMs) as real)
  }

  // ---------------------------------------------------------------------
  // Reservation price

  /** delta = q_hat gamma lambda sigma, the inventory adjustment in logit
      space. */
  function Shift(qhat: real, gamma: real, lam: real, sigma: real): real {
    qhat * gamma * lam * sigma
  }

  /** r_x = logit(p) - delta. */
  function Reservation(f: Fns, p: real, qhat: real, gamma: real, lam: real, sigma: real): real {
    Logit(f, p) - Shift(qhat, gamma, lam, sigma)
  }

  /** The quotes lean against the inventory: long (q_hat > 0) moves the
      reservation price down, short moves it up, flat leaves it at the mid. */
  lemma InventorySkew(f: Fns, p: real, qhat: real, gamma: real, lam: real, sigma: real)
    requires gamma >= 0.0 && lam >= 0.0 && sigma >= 0.0
    ensures qhat >= 0.0 ==> Reservation(f, p, qhat, gamma, lam, sigma) <= Logit(f, p)
    ensures qhat <= 0.0 ==> Reservation(f, p, qhat, gamma, lam, sigma) >= Logit(f, p)
    ensures qhat == 0.0 ==> Reservation(f, p, qhat, gamma, lam, sigma) == Logit(f, p)
  {
    var s := gamma * lam * sigma;
    MulNonNeg(gamma, lam);
    MulNonNeg(gamma * lam, sigma);
    assert qhat * gamma * lam * sigma == qhat * s;
    if qhat >= 0.0 {
      MulNonNeg(qhat, s);
    } else {
      MulNonNeg(-qhat, s);
    }
  }

  // ---------------------------------------------------------------------
  // Half-spread

  /** kappa = kappa0 (1 + rate / max(rate_ref, 1e-9)). */
  function Kappa(q: QuoteConfig, rate: real): real {
    q.kappa0 * (1.0 + rate / Max(q.rateRefPerS, Tiny))
  }

  /** Delta_liq = (1 / gamma) ln(1 + gamma / max(kappa, 1e-9)). */
  function LiquiditySpread(f: Fns, gamma: real, kappa: real): (d: real)
    requires Laws(f)
    requires gamma > 0.0
    ensures d > 0.0
  {
    var y := gamma / Max(kappa, Tiny);
    LnPositive(f, 1.0 + y);
    MulPositive(1.0 / gamma, f.ln(1.0 + y));
    (1.0 / gamma) * f.ln(1.0 + y)
  }

  lemma MulPositive(a: real, b: real)
    requires a > 0.0 && b > 0.0
    ensures a * b > 0.0
  {
  }

  /** Delta_risk = c_risk gamma lambda sigma. */
  function RiskSpread(q: QuoteConfig, gamma: real, lam: real, sigma: real): real {
    q.cRisk * gamma * lam * sigma
  }

  /** The half-spread: clip(Delta_risk + Delta_liq, 0, max_half_spread_logit). */
  function HalfSpread(f: Fns, q: QuoteConfig, gamma: real, lam: real, sigma: real, rate: real): (h: real)
    requires Laws(f)
    requires gamma > 0.0
    ensures h >= 0.0
    ensures q.maxHalfSpreadLogit >= 0.0 ==> h <= q.maxHalfSpreadLogit
  {
    Clip(RiskSpread(q, gamma, lam, sigma) + LiquiditySpread(f, gamma, Kappa(q, rate)), 0.0, q.maxHalfSpreadLogit)
  }

  lemma ClipMonotone(x: real, y: real, lo: real, hi: real)
    requires x <= y
    ensures Clip(x, lo, hi) <= Clip(y, lo, hi)
  {
  }

  /** Wider in volatile markets: the half-spread does not shrink as sigma
      grows, for a non-negative risk coefficient and regime. */
  lemma HalfSpreadWidensWithSigma(f: Fns, q: QuoteConfig, gamma: real, lam: real, s1: real, s2: real, rate: real)
    requires Laws(f)
    requires gamma > 0.0 && lam >= 0.0 && q.cRisk >= 0.0
    requires s1 <= s2
    ensures HalfSpread(f, q, gamma, lam, s1, rate) <= HalfSpread(f, q, gamma, lam, s2, rate)
  {
    MulNonNeg(q.cRisk, gamma);
    MulNonNeg(q.cRisk * gamma, lam);
    MulMonotone(q.cRisk * gamma * lam, s1, s2);
    var liq := LiquiditySpread(f, gamma, Kappa(q, rate));
    ClipMonotone(RiskSpread(q, gamma, lam, s1) + liq, RiskSpread(q, gamma, lam, s2) + liq, 0.0, q.maxHalfSpreadLogit);
  }

  /** Tighter in active markets: more trades per second raise kappa, which
      does not widen the half-spread, for a positive kappa0. */
  lemma HalfSpreadTightensWithRate(f: Fns, q: QuoteConfig, gamma: real, lam: real, sigma: real, r1: real, r2: real)
    requires Laws(f)
    requires gamma > 0.0 && q.kappa0 > 0.0
    requires 0.0 <= r1 <= r2
    ensures HalfSpread(f, q, gamma, lam, sigma, r2) <= HalfSpread(f, q, gamma, lam, sigma, r1)
  {
    KappaMonotone(q, r1, r2);
    LiquiditySpreadAntitone(f, gamma, Kappa(q, r1), Kappa(q, r2));
    var risk := RiskSpread(q, gamma, lam, sigma);
    ClipMonotone(risk + LiquiditySpread(f, gamma, Kappa(q, r2)), risk + LiquiditySpread(f, gamma, Kappa(q, r1)),
                 0.0, q.maxHalfSpreadLogit);
  }

  lemma KappaMonotone(q: QuoteConfig, r1: real, r2: real)
    requires q.kappa0 > 0.0 && 0.0 <= r1 <= r2
    ensures 0.0 < Kappa(q, r1) <= Kappa(q, r2)
  {
    var d := Max(q.rateRefPerS, Tiny);
    DivideMonotone(0.0, r1, d);
    DivideMonotone(r1, r2, d);
    MulMonotone(q.kappa0, 1.0 + r1 / d, 1.0 + r2 / d);
    MulPositive(q.kappa0, 1.0 + r1 / d);
  }

  lemma LiquiditySpreadAntitone(f: Fns, gamma: real, k1: real, k2: real)
    requires Laws(f)
    requires gamma > 0.0 && k1 <= k2
    ensures LiquiditySpread(f, gamma, k2) <= LiquiditySpread(f, gamma, k1)
  {
    var d1, d2 := Max(k1, Tiny), Max(k2, Tiny);
    RecipAntitone(d1, d2);
    assert gamma / d2 == gamma * (1.0 / d2) && gamma / d1 == gamma * (1.0 / d1);
    MulMonotone(gamma, 1.0 / d2, 1.0 / d1);
    DivideMonotone(0.0, gamma, d2);
    LnMonotone(f, 1.0 + gamma / d2, 1.0 + gamma / d1);
    DivideMonotone(0.0, 1.0, gamma);
    MulMonotone(1.0 / gamma, f.ln(1.0 + gamma / d2), f.ln(1.0 + gamma / d1));
  }

  /** B_side x time_factor: the budget the ladder sizes each side from. It
      is non-negative for a non-negative bankroll, and never more than B_side
      from the start of the market on when eta_time >= 0. */
  function SideBudget(f: Fns, c: BotConfig, tMs: int): (b: real)
    requires Laws(f)
    ensures c.risk.bankrollB >= 0.0 ==> b >= 0.0
    ensures c.risk.bankrollB >= 0.0 && c.risk.etaTime >= 0.0 && tMs >= c.market.startTsMs ==> b <= BSide(c.risk)
  {
    var t := TimeFactor(f, c.market, c.risk.etaTime, tMs);
    assert c.risk.bankrollB >= 0.0 ==> BSide(c.risk) * t >= 0.0 by {
      if c.risk.bankrollB >= 0.0 {
        MulNonNeg(BSide(c.risk), t);
      }
    }
    assert c.risk.bankrollB >= 0.0 && c.risk.etaTime >= 0.0 && tMs >= c.market.startTsMs ==>
           BSide(c.risk) * t <= BSide(c.risk) by {
      if c.risk.bankrollB >= 0.0 && c.risk.etaTime >= 0.0 && tMs >= c.market.startTsMs {
        TimeFactorAtMostOne(f, c.market, c.risk.etaTime, tMs);
        MulMonotone(BSide(c.risk), t, 1.0);
      }
    }
    BSide(c.risk) * t
  }

  // ---------------------------------------------------------------------
  // clean_orders

  /** The notional an order commits: price x size for a buy, (1 - price) x
      size for a sell. */
  function Impact(side: Side, px: real, sz: real): real {
    if side == Buy then px * sz else (1.0 - px) * sz
  }

  /** The notional a list of orders commits: the sum of their impacts. */
  function Notional(orders: seq<Order>): real {
    if orders == [] then 0.0 else Impact(orders[0].side, orders[0].price, orders[0].size) + Notional(orders[1..])
  }

  /** The orders `clean_orders` keeps from `levels` when `total` is already
      committed: each level raised to the minimum size, in ladder order, up to
      (not including) the first whose notional would push the total over the
      cap. */
  function CleanFrom(levels: seq<Level>, side: Side, asset: string, minSize: real, cap: real, total: real)
    : (r: seq<Order>)
    ensures |r| <= |levels|
  {
    if levels == [] then []
    else
      var sz := Max(minSize, levels[0].size);
      var impact := Impact(side, levels[0].price, sz);
      if total + impact > cap then []
      else [Order(asset, side, levels[0].price, sz)] + CleanFrom(levels[1..], side, asset, minSize, cap, total + impact)
  }

  /** The kept orders are the leading levels in order, each raised to the
      minimum size. */
  lemma {:induction false} CleanKeepsPrefix(levels: seq<Level>, side: Side, asset: string, minSize: real, cap: real, total: real)
    ensures var r := CleanFrom(levels, side, asset, minSize, cap, total);
      forall k :: 0 <= k < |r| ==> r[k] == Order(asset, side, levels[k].price, Max(minSize, levels[k].size))
  {
    if levels != [] {
      var impact := Impact(side, levels[0].price, Max(minSize, levels[0].size));
      if total + impact <= cap {
        CleanKeepsPrefix(levels[1..], side, asset, minSize, cap, total + impact);
      }
    }
  }

  /** The kept orders never take the committed total past the cap (a total
      already past it stays where it is). */
  lemma {:induction false} CleanWithinCap(levels: seq<Level>, side: Side, asset: string, minSize: real, cap: real, total: real)
    ensures total + Notional(CleanFrom(levels, side, asset, minSize, cap, total)) <= Max(cap, total)
  {
    if levels != [] {
      var sz := Max(minSize, levels[0].size);
      var impact := Impact(side, levels[0].price, sz);
      if total + impact <= cap {
        CleanWithinCap(levels[1..], side, asset, minSize, cap, total + impact);
      }
    }
  }

  /** The cut is where the cap binds: when levels are dropped, the first of
      them would have taken the total past the cap. */
  lemma {:induction false} CleanStopsAtCap(levels: seq<Level>, side: Side, asset: string, minSize: real, cap: real, total: real)
    ensures var r := CleanFrom(levels, side, asset, minSize, cap, total);
      |r| < |levels| ==>
        total + Notional(r) + Impact(side, levels[|r|].price, Max(minSize, levels[|r|].size)) > cap
  {
    if levels != [] {
      var sz := Max(minSize, levels[0].size);
      var impact := Impact(side, levels[0].price, sz);
      if total + impact <= cap {
        CleanStopsAtCap(levels[1..], side, asset, minSize, cap, total + impact);
      }
    }
  }

  /** The `clean_orders` loop from position i, with `acc` kept so far and
      `total` committed. */
  function CleanAcc(levels: seq<Level>, side: Side, asset: string, minSize: real, cap: real,
                    i: nat, total: real, acc: seq<Order>): seq<Order>
    requires i <= |levels|
    decreases |levels| - i
  {
    if i == |levels| then acc
    else
      var sz := Max(minSize, levels[i].size);
      var impact := Impact(side, levels[i].price, sz);
      if total + impact > cap then acc
      else CleanAcc(levels, side, asset, minSize, cap, i + 1, total + impact, acc + [Order(asset, side, levels[i].price, sz)])
  }

  /** The loop appends exactly what `CleanFrom` keeps of the remaining levels. */
  lemma {:induction false} CleanAccFrom(levels: seq<Level>, side: Side, asset: string, minSize: real, cap: real,
                                        i: nat, total: real, acc: seq<Order>)
    requires i <= |levels|
    ensures CleanAcc(levels, side, asset, minSize, cap, i, total, acc)
         == acc + CleanFrom(levels[i..], side, asset, minSize, cap, total)
    decreases |levels| - i
  {
    if i < |levels| {
      assert levels[i..][0] == levels[i] && levels[i..][1..] == levels[i + 1..];
      var sz := Max(minSize, levels[i].size);
      var impact := Impact(side, levels[i].price, sz);
      if total + impact <= cap {
        var o := Order(asset, side, levels[i].price, sz);
        CleanAccFrom(levels, side, asset, minSize, cap, i + 1, total + impact, acc + [o]);
        assert acc + [o] + CleanFrom(levels[i + 1..], side, asset, minSize, cap, total + impact)
            == acc + ([o] + CleanFrom(levels[i + 1..], side, asset, minSize, cap, total + impact));
      }
    }
  }

  /** `clean_orders(raw_orders, side)`. */
  method CleanOrders(levels: seq<Level>, side: Side, asset: string, minSize: real, cap: real)
    returns (out: seq<Order>)
    ensures out == CleanFrom(levels, side, asset, minSize, cap, 0.0)
  {
    out := [];
    var total := 0.0;
    var i := 0;
    while i < |levels|
      invariant 0 <= i <= |levels|
      invariant CleanAcc(levels, side, asset, minSize, cap, i, total, out)
             == CleanAcc(levels, side, asset, minSize, cap, 0, 0.0, [])
    {
      var sz := Max(minSize, levels[i].size);
      var px := levels[i].price;
      var impact := Impact(side, px, sz);
      if total + impact > cap {
        break;
      }
      total := total + impact;
      out := out + [Order(asset, side, px, sz)];
      i := i + 1;
    }
    CleanAccFrom(levels, side, asset, minSize, cap, 0, 0.0, []);
    assert levels[0..] == levels;
  }

  /** What the quote promises about one side, given the ladder side it was
      cleaned from: same side and asset, at least the minimum size, prices
      strictly ordered (descending for bids), within the cap, and no more
      orders than ladder levels. */
  ghost predicate SideOk(orders: seq<Order>, side: Side, asset: string, minSize: real, cap: real, levels: seq<Level>) {
    && |orders| <= |levels|
    && (forall k :: 0 <= k < |orders| ==>
          orders[k].side == side && orders[k].assetId == asset && orders[k].size >= minSize
          && orders[k].price == levels[k].price)
    && (forall i, j :: 0 <= i < j < |orders| ==>
          if side == Buy then orders[i].price > orders[j].price else orders[i].price < orders[j].price)
    && Notional(orders) <= Max(cap, 0.0)
  }

  lemma CleanedSideOk(levels: seq<Level>, side: Side, asset: string, minSize: real, cap: real)
    requires StrictlyOrdered(levels, side == Buy)
    ensures SideOk(CleanFrom(levels, side, asset, minSize, cap, 0.0), side, asset, minSize, cap, levels)
  {
    CleanKeepsPrefix(levels, side, asset, minSize, cap, 0.0);
    CleanWithinCap(levels, side, asset, minSize, cap, 0.0);
  }

  // ---------------------------------------------------------------------
  // The quoter

  class Quoter {
    const cfg: BotConfig
    const ind: Indicators
    const md: MarketData

    constructor (cfg: BotConfig, ind: Indicators, md: MarketData)
      ensures this.cfg == cfg && this.ind == ind && this.md == md
    {
      this.cfg := cfg;
      this.ind := ind;
      this.md := md;
    }

    /** `estimate_U_proxy()`: counts the trades from the newest backwards,
        stopping at the first one older than the window. */
    method EstimateUProxy(now: int) returns (u: real)
      requires Laws(ind.fns)
      ensures u == UProxy(ind.fns, md.tradeTs, now)
    {
      var ts := md.tradeTs;
      var cutoff := now - UProxyWindowMs;
      var n := 0;
      var i := |ts|;
      assert ts[..i] == ts;
      while i > 0
        invariant 0 <= i <= |ts|
        invariant n == |ts| - i
        invariant RecentCount(ts, cutoff) == n + RecentCount(ts[..i], cutoff)
      {
        if ts[i - 1] < cutoff {
          break;
        }
        assert ts[..i][..i - 1] == ts[..i - 1];
        n := n + 1;
        i := i - 1;
      }
      u := ind.fns.sqrt(n as real);
    }

    /** `compute(q_yes)`: the metrics, and bid and ask orders cleaned from the
        ladder around the reservation price. */
    method Compute(qYes: real, now: int) returns (q: Quote)
      requires ind.Valid() && md.Valid()
      requires md.state.tickSize != 0.0
      ensures var f := ind.fns;
        var p := Clip(md.state.mid, MidEps, 1.0 - MidEps);
        var qhat := QHat(f, ind.cfg, qYes, p, now);
        var gamma := Gamma(f, ind.cfg.risk, qhat);
        var lam := LambdaStruct(f, ind.cfg.risk, p, UProxy(f, md.tradeTs, now));
        && q.metrics.pMid == p && q.metrics.qhat == qhat && q.metrics.gamma == gamma
        && q.metrics.lambda == lam && q.metrics.sigma == ind.est.sigma
        && q.metrics.deltaLogit == Shift(qhat, gamma, lam, ind.est.sigma)
        && q.metrics.rLogit == Reservation(f, p, qhat, gamma, lam, ind.est.sigma)
      ensures q.metrics.nBids == |q.bids| && q.metrics.nAsks == |q.asks|
      ensures var rate := Rate(RecentCount(md.tradeTs, now - Trunc(RateWindowS * 1000.0)), RateWindowS);
        QuotedFrom(ind.fns, cfg.quote, cfg.market.assetIdYes, q.metrics.rLogit,
                   HalfSpread(ind.fns, cfg.quote, q.metrics.gamma, q.metrics.lambda, q.metrics.sigma, rate),
                   md.state.tickSize,
                   SideBudget(ind.fns, ind.cfg, now), q.bids, q.asks)
      ensures QuoteOk(q.bids, q.asks, cfg.market.assetIdYes, cfg.quote, md.state.tickSize)
    {
      // The two trade-window scans come first; they change nothing.
      var u := EstimateUProxy(now);
      var rate := md.TradeRatePerS(RateWindowS, now);
      var f := ind.fns;
      var s := md.state;
      var p := Clip(s.mid, MidEps, 1.0 - MidEps);
      var qhat := QHat(f, ind.cfg, qYes, p, now);
      var gamma := Gamma(f, ind.cfg.risk, qhat);
      var lam := LambdaStruct(f, ind.cfg.risk, p, u);
      var sigma := ind.est.sigma;
      var delta := Shift(qhat, gamma, lam, sigma);
      var m := Logit(f, p);
      var rX := m - delta;

      assert rate == Rate(RecentCount(md.tradeTs, now - Trunc(RateWindowS * 1000.0)), RateWindowS);
      var half := HalfSpread(f, cfg.quote, gamma, lam, sigma, rate);
      var bSide := SideBudget(f, ind.cfg, now);
      var bids, asks := QuoteOrders(f, cfg.quote, cfg.market.assetIdYes, rX, half, s.tickSize, bSide);
      q := Quote(Metrics(p, qhat, gamma, lam, sigma, delta, rX, |bids|, |asks|), bids, asks);
    }
  }

  /** What `compute` promises about the two sides of a quote: each side is
      well formed against some ladder side that is itself well formed, and
      for a positive tick no bid is above any ask. */
  ghost predicate QuoteOk(bids: seq<Order>, asks: seq<Order>, asset: string, q: QuoteConfig, tick: real) {
    && (exists lb :: SideOk(bids, Buy, asset, q.minOrderSize, q.maxOrderNotionalSide, lb)
                     && LadderSideOk(lb, tick, q.ladderMaxLevels, true))
    && (exists la :: SideOk(asks, Sell, asset, q.minOrderSize, q.maxOrderNotionalSide, la)
                     && LadderSideOk(la, tick, q.ladderMaxLevels, false))
    && (tick > 0.0 ==> forall i, j :: 0 <= i < |bids| && 0 <= j < |asks| ==> bids[i].price <= asks[j].price)
  }

  /** The keyword arguments `compute` passes to `build_v1_ladder`: the same
      half-spread on both sides and the ladder settings of the quote config. */
  function QuoteLadderArgs(q: QuoteConfig, rX: real, half: real, tick: real, bSide: real): (a: LadderArgs)
    ensures a.rX == rX && a.halfB == half && a.halfA == half && a.tick == tick && a.bSide == bSide
    ensures a.maxLevels == q.ladderMaxLevels && a.decay == q.ladderDecay
  {
    LadderArgs(rX, half, half, tick, bSide, q.ladderDecay, q.ladderStepMult, q.ladderMinStepLogit, q.ladderMaxLevels)
  }

  /** The orders are exactly the ones `compute` quotes around rX: each side is
      the de-duplicated ladder side generated from `QuoteLadderArgs`, cleaned
      to the minimum size and the per-side notional cap. */
  ghost predicate QuotedFrom(f: Fns, q: QuoteConfig, asset: string, rX: real, half: real, tick: real, bSide: real,
                             bids: seq<Order>, asks: seq<Order>)
    requires Laws(f) && tick != 0.0
  {
    var a := QuoteLadderArgs(q, rX, half, tick, bSide);
    && (exists lb :: IsDedupe(lb, BidsFrom(f, a, 0, Iterations(BidCount(f, a))), true)
                     && bids == CleanFrom(lb, Buy, asset, q.minOrderSize, q.maxOrderNotionalSide, 0.0))
    && (exists la :: IsDedupe(la, AsksFrom(f, a, 0, Iterations(AskCount(f, a))), false)
                     && asks == CleanFrom(la, Sell, asset, q.minOrderSize, q.maxOrderNotionalSide, 0.0))
  }

  /** Whatever is quoted around rX with a non-negative half-spread is well
      formed and uncrossed. */
  lemma QuotedFromOk(f: Fns, q: QuoteConfig, asset: string, rX: real, half: real, tick: real, bSide: real,
                     bids: seq<Order>, asks: seq<Order>)
    requires Laws(f) && tick != 0.0 && half >= 0.0
    requires QuotedFrom(f, q, asset, rX, half, tick, bSide, bids, asks)
    ensures QuoteOk(bids, asks, asset, q, tick)
  {
    var a := QuoteLadderArgs(q, rX, half, tick, bSide);
    var lb :| IsDedupe(lb, BidsFrom(f, a, 0, Iterations(BidCount(f, a))), true)
              && bids == CleanFrom(lb, Buy, asset, q.minOrderSize, q.maxOrderNotionalSide, 0.0);
    var la :| IsDedupe(la, AsksFrom(f, a, 0, Iterations(AskCount(f, a))), false)
              && asks == CleanFrom(la, Sell, asset, q.minOrderSize, q.maxOrderNotionalSide, 0.0);
    QuoteSidesOk(f, a, Ladder(lb, la), bids, asks, asset, q.minOrderSize, q.maxOrderNotionalSide);
  }

  /** The ladder and order-size part of `compute`: build the ladder around
      the reservation price with the same half-spread on both sides, then
      clean each side. */
  method QuoteOrders(f: Fns, q: QuoteConfig, asset: string, rX: real, half: real, tick: real, bSide: real)
    returns (bids: seq<Order>, asks: seq<Order>)
    requires Laws(f) && tick != 0.0 && half >= 0.0
    ensures QuotedFrom(f, q, asset, rX, half, tick, bSide, bids, asks)
    ensures QuoteOk(bids, asks, asset, q, tick)
  {
    var args := QuoteLadderArgs(q, rX, half, tick, bSide);
    var ladder := BuildV1Ladder(f, args);
    bids := CleanOrders(ladder.bids, Buy, asset, q.minOrderSize, q.maxOrderNotionalSide);
    asks := CleanOrders(ladder.asks, Sell, asset, q.minOrderSize, q.maxOrderNotionalSide);
    QuotedFromOk(f, q, asset, rX, half, tick, bSide, bids, asks);
  }

  /** What the ladder guarantees about one of its sides: prices strictly
      ordered, inside (0, 1) for a positive tick, and at most max_levels
      entries. */
  ghost predicate LadderSideOk(levels: seq<Level>, tick: real, maxLevels: int, descending: bool) {
    && StrictlyOrdered(levels, descending)
    && (tick > 0.0 ==> forall l :: l in levels ==> 0.0 < l.price < 1.0)
    && (|levels| <= maxLevels || levels == [])
  }

  /** The cleaned sides inherit the ladder's guarantees. */
  lemma QuoteSidesOk(f: Fns, a: LadderArgs, ladder: Ladder, bids: seq<Order>, asks: seq<Order>,
                     asset: string, minSize: real, cap: real)
    requires Laws(f) && a.tick != 0.0
    requires a.halfB >= 0.0 && a.halfA >= 0.0
    requires IsDedupe(ladder.bids, BidsFrom(f, a, 0, Iterations(BidCount(f, a))), true)
    requires IsDedupe(ladder.asks, AsksFrom(f, a, 0, Iterations(AskCount(f, a))), false)
    requires bids == CleanFrom(ladder.bids, Buy, asset, minSize, cap, 0.0)
    requires asks == CleanFrom(ladder.asks, Sell, asset, minSize, cap, 0.0)
    ensures SideOk(bids, Buy, asset, minSize, cap, ladder.bids) && LadderSideOk(ladder.bids, a.tick, a.maxLevels, true)
    ensures SideOk(asks, Sell, asset, minSize, cap, ladder.asks) && LadderSideOk(ladder.asks, a.tick, a.maxLevels, false)
    ensures a.tick > 0.0 ==> forall i, j :: 0 <= i < |bids| && 0 <= j < |asks| ==> bids[i].price <= asks[j].price
  {
    CleanedSideOk(ladder.bids, Buy, asset, minSize, cap);
    CleanedSideOk(ladder.asks, Sell, asset, minSize, cap);
    LadderCount(f, a, ladder);
    if a.tick > 0.0 {
      LadderInRange(f, a, ladder);
      LadderNotCrossed(f, a, ladder);
      forall i, j | 0 <= i < |bids| && 0 <= j < |asks|
        ensures bids[i].price <= asks[j].price
      {
        assert ladder.bids[i] in ladder.bids && ladder.asks[j] in ladder.asks;
      }
    }
  }
}
