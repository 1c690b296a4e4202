/** The pure risk multipliers of `Indicators` (pm4/trading.py): the EMA step,
    the time-to-resolution factor, Kelly sizing, the inventory-driven spread
    scale gamma and the regime factor lambda. Each reads only the immutable
    configuration, so each is a function of its configuration record. */
module Risk {
  import opened RealMath
  import opened Utils
  import opened Config

  /** Python's `max` on two ints. */
  function IntMax(a: int, b: int): int { if a >= b then a else b }

  // ---------------------------------------------------------------------
  // Exponential moving average

  /** `_ema(prev, x, tau_s, dt_s)`: one step of a time-constant EMA with weight
      a = 1 - exp(-dt/tau); a non-positive tau means "no smoothing". */
  function Ema(f: Fns, prev: real, x: real, tauS: real, dtS: real): (r: real)
    requires Laws(f)
    ensures tauS <= 0.0 ==> r == x
    ensures tauS > 0.0 && dtS >= 0.0 ==> Min(prev, x) <= r <= Max(prev, x)
    ensures x == prev ==> r == prev
  {
    if tauS <= 0.0 then x
    else
      var a := 1.0 - f.exp(-dtS / tauS);
      EmaWeight(f, dtS, tauS);
      Interpolate(prev, x, a);
      prev + a * (x - prev)
  }

  /** The EMA weight lies in [0, 1) for a positive time constant and a
      non-negative step. */
  lemma EmaWeight(f: Fns, dtS: real, tauS: real)
    requires Laws(f)
    requires tauS > 0.0
    ensures dtS >= 0.0 ==> 0.0 <= 1.0 - f.exp(-dtS / tauS) < 1.0
  {
    if dtS >= 0.0 {
      var y := dtS / tauS;
      NegDiv(dtS, tauS);
      ExpNonPosBound(f, y);
    }
  }

  /** prev + a (x - prev) lies between prev and x for a in [0, 1]. */
  lemma Interpolate(prev: real, x: real, a: real)
    ensures 0.0 <= a <= 1.0 ==> Min(prev, x) <= prev + a * (x - prev) <= Max(prev, x)
  {
    if 0.0 <= a <= 1.0 {
      if prev <= x {
        MulNonNeg(a, x - prev);
        MulNonNeg(1.0 - a, x - prev);
      } else {
        MulNonNeg(a, prev - x);
        MulNonNeg(1.0 - a, prev - x);
      }
    }
  }

  /** With a positive step the EMA moves strictly toward a different target. */
  lemma {:induction false} EmaMovesToward(f: Fns, prev: real, x: real, tauS: real, dtS: real)
    requires Laws(f)
    requires tauS > 0.0 && dtS > 0.0 && prev != x
    ensures Ema(f, prev, x, tauS, dtS) != prev
  {
    var y := dtS / tauS;
    NegDiv(dtS, tauS);
    ExpNonPosBound(f, y);
    var a := 1.0 - f.exp(-dtS / tauS);
    assert Ema(f, prev, x, tauS, dtS) == prev + a * (x - prev);
    StepMoves(prev, x, a);
  }

  lemma StepMoves(prev: real, x: real, a: real)
    requires a > 0.0 && prev != x
    ensures prev + a * (x - prev) != prev
  {
    if x > prev { MulNonNeg(a, x - prev); assert a * (x - prev) != 0.0; }
    else { MulNonNeg(a, prev - x); assert a * (prev - x) != 0.0; }
  }

  // ---------------------------------------------------------------------
  // Time factor and Kelly sizing

  /** Total market duration T and remaining time tau, in seconds. */
  function Duration(m: MarketConfig): (t: real)
    ensures t >= 0.001
  {
    IntMax(m.resolveTsMs - m.startTsMs, 1) as real / 1000.0
  }

  function Remaining(m: MarketConfig, tMs: int): (t: real)
    ensures t >= 0.0
  {
    IntMax(m.resolveTsMs - tMs, 0) as real / 1000.0
  }

  /** tau / T: the fraction of the market's life still to run. */
  function TimeFraction(m: MarketConfig, tMs: int): (x: real)
    ensures x >= 0.0
    ensures tMs >= m.startTsMs ==> x <= 1.0
    ensures tMs == m.startTsMs && m.resolveTsMs > m.startTsMs ==> x == 1.0
  {
    var T, tau := Duration(m), Remaining(m, tMs);
    FractionBounds(tau, T);
    tau / T
  }

  lemma FractionBounds(a: real, b: real)
    requires a >= 0.0 && b > 0.0
    ensures a / b >= 0.0
    ensures a <= b ==> a / b <= 1.0
    ensures a == b ==> a / b == 1.0
  {
    if a <= b { DivideMonotone(a, b, b); }
  }

  lemma TimeFractionMonotone(m: MarketConfig, t1: int, t2: int)
    requires t1 <= t2
    ensures TimeFraction(m, t2) <= TimeFraction(m, t1)
  {
    DivideMonotone(Remaining(m, t2), Remaining(m, t1), Duration(m));
  }

  /** `time_factor(t_ms) = (tau / T) ** eta_time`. */
  function TimeFactor(f: Fns, m: MarketConfig, etaTime: real, tMs: int): (r: real)
    requires Laws(f)
    ensures r >= 0.0
  {
    if Duration(m) > 0.0 then f.pow(TimeFraction(m, tMs), etaTime) else 1.0
  }

  /** After the start of the market the factor is at most 1. */
  lemma TimeFactorAtMostOne(f: Fns, m: MarketConfig, etaTime: real, tMs: int)
    requires Laws(f)
    requires tMs >= m.startTsMs && etaTime >= 0.0
    ensures TimeFactor(f, m, etaTime, tMs) <= 1.0
  {
    PowAtMostOne(f, TimeFraction(m, tMs), etaTime);
  }

  /** At the start of a market that resolves later the factor is exactly 1. */
  lemma TimeFactorAtStart(f: Fns, m: MarketConfig, etaTime: real)
    requires Laws(f)
    requires m.resolveTsMs > m.startTsMs
    ensures TimeFactor(f, m, etaTime, m.startTsMs) == 1.0
  {
    assert TimeFraction(m, m.startTsMs) == 1.0;
  }

  /** The factor never grows as time passes (for eta_time >= 0). */
  lemma TimeFactorNonIncreasing(f: Fns, m: MarketConfig, etaTime: real, t1: int, t2: int)
    requires Laws(f)
    requires t1 <= t2 && etaTime >= 0.0
    ensures TimeFactor(f, m, etaTime, t2) <= TimeFactor(f, m, etaTime, t1)
  {
    TimeFractionMonotone(m, t1, t2);
    PowMonotone(f, TimeFraction(m, t2), TimeFraction(m, t1), etaTime);
  }

  /** `B_side()`: the bankroll split evenly over max(n_plays, 1) markets and
      over the two sides of each. */
  function BSide(risk: RiskConfig): (r: real)
    ensures r * 2.0 * IntMax(risk.nPlays, 1) as real == risk.bankrollB
    ensures risk.bankrollB >= 0.0 ==> 0.0 <= r <= risk.bankrollB / 2.0
  {
    var n := IntMax(risk.nPlays, 1) as real;
    assert n >= 1.0;
    0.5 * risk.bankrollB * (1.0 / n)
  }

  /** The denominator of `q_max`: the price of the opposite outcome, with the
      slippage buffer, floored at 1e-9. */
  function KellyDenominator(risk: RiskConfig, p: real, q: real): (d: real)
    ensures d >= 0.000000001
  {
    var pOpp := if q >= 0.0 then 1.0 - p else p;
    Max(pOpp * (1.0 + risk.slippageBuffer), 0.000000001)
  }

  /** Kelly sizing: the per-side bankroll scaled by the time factor, over the
      denominator. */
  function KellyCap(b: real, tf: real, d: real): (r: real)
    requires d > 0.0
    ensures b >= 0.0 && tf >= 0.0 ==> r >= 0.0
  {
    ProductQuotientNonNeg(b, tf, d);
    b * tf / d
  }

  lemma ProductQuotientNonNeg(b: real, tf: real, d: real)
    requires d > 0.0
    ensures b >= 0.0 && tf >= 0.0 ==> b * tf / d >= 0.0
  {
    if b >= 0.0 && tf >= 0.0 {
      MulNonNeg(b, tf);
      DivideMonotone(0.0, b * tf, d);
    }
  }

  lemma KellyCapMonotone(b: real, x: real, y: real, d: real)
    requires b >= 0.0 && x <= y && d > 0.0
    ensures KellyCap(b, x, d) <= KellyCap(b, y, d)
  {
    MulMonotone(b, x, y);
    DivideMonotone(b * x, b * y, d);
  }

  /** `q_max(p, q, t_ms)`: the Kelly-style position cap. */
  function QMax(f: Fns, cfg: BotConfig, p: real, q: real, tMs: int): (r: real)
    requires Laws(f)
    ensures cfg.risk.bankrollB >= 0.0 ==> r >= 0.0
  {
    KellyCap(BSide(cfg.risk), TimeFactor(f, cfg.market, cfg.risk.etaTime, tMs),
             KellyDenominator(cfg.risk, p, q))
  }

  /** The cap shrinks as resolution approaches. */
  lemma QMaxNonIncreasing(f: Fns, cfg: BotConfig, p: real, q: real, t1: int, t2: int)
    requires Laws(f)
    requires t1 <= t2 && cfg.risk.etaTime >= 0.0 && cfg.risk.bankrollB >= 0.0
    ensures QMax(f, cfg, p, q, t2) <= QMax(f, cfg, p, q, t1)
  {
    TimeFactorNonIncreasing(f, cfg.market, cfg.risk.etaTime, t1, t2);
    KellyCapMonotone(BSide(cfg.risk), TimeFactor(f, cfg.market, cfg.risk.etaTime, t2),
                     TimeFactor(f, cfg.market, cfg.risk.etaTime, t1), KellyDenominator(cfg.risk, p, q));
  }

  /** `q_hat(q, p, t_ms)`: the inventory normalised by the cap, clipped to
      [-1, 1]; zero when the cap is not positive. */
  function QHat(f: Fns, cfg: BotConfig, q: real, p: real, tMs: int): (r: real)
    requires Laws(f)
    ensures -1.0 <= r <= 1.0
    ensures QMax(f, cfg, p, q, tMs) <= 0.0 ==> r == 0.0
    ensures r > 0.0 ==> q > 0.0
    ensures r < 0.0 ==> q < 0.0
    ensures q != 0.0 && QMax(f, cfg, p, q, tMs) > 0.0 ==> r != 0.0
    ensures QMax(f, cfg, p, q, tMs) > 0.0 && -QMax(f, cfg, p, q, tMs) <= q <= QMax(f, cfg, p, q, tMs)
            ==> r * QMax(f, cfg, p, q, tMs) == q
    ensures QMax(f, cfg, p, q, tMs) > 0.0 && q >= QMax(f, cfg, p, q, tMs) ==> r == 1.0
    ensures QMax(f, cfg, p, q, tMs) > 0.0 && q <= -QMax(f, cfg, p, q, tMs) ==> r == -1.0
  {
    var qm := QMax(f, cfg, p, q, tMs);
    if qm > 0.0 then
      QuotientBracket(q, qm);
      Clip(q / qm, -1.0, 1.0)
    else 0.0
  }

  lemma QuotientBracket(q: real, qm: real)
    requires qm > 0.0
    ensures q > 0.0 <==> q / qm > 0.0
    ensures q < 0.0 <==> q / qm < 0.0
    ensures -qm <= q <= qm ==> -1.0 <= q / qm <= 1.0
    ensures (q / qm) * qm == q
    ensures q >= qm ==> q / qm >= 1.0
    ensures q <= -qm ==> q / qm <= -1.0
  {
    if -qm <= q <= qm {
      DivideMonotone(-qm, q, qm);
      DivideMonotone(q, qm, qm);
    }
    if q >= qm {
      DivideMonotone(qm, q, qm);
    }
    if q <= -qm {
      DivideMonotone(q, -qm, qm);
    }
  }

  // ---------------------------------------------------------------------
  // Spread scale

  /** The bound `gamma` puts on |q_hat| before dividing by (1 - |q_hat|). */
  const GammaUMax: real := 0.999999

  function Abs(x: real): (r: real)
    ensures r >= 0.0 && (r == x || r == -x)
  {
    if x >= 0.0 then x else -x
  }

  /** 1 - u with u = clip(|qhat|, 0, 0.999999): never zero. */
  function GammaBase(qhat: real): (b: real)
    ensures 1.0 - GammaUMax <= b <= 1.0
  {
    1.0 - Clip(Abs(qhat), 0.0, GammaUMax)
  }

  /** `gamma(qhat) = clip(1 / (1 - u) ** gamma_a, 1, gamma_max)`, so the
      divisor is a power of a positive number and never zero. */
  function Gamma(f: Fns, risk: RiskConfig, qhat: real): (r: real)
    requires Laws(f)
    ensures 1.0 <= r <= Max(1.0, risk.gammaMax)
  {
    Clip(1.0 / f.pow(GammaBase(qhat), risk.gammaA), 1.0, risk.gammaMax)
  }

  /** A flat book gets the minimal spread scale. */
  lemma GammaAtZero(f: Fns, risk: RiskConfig)
    requires Laws(f)
    requires risk.gammaMax >= 1.0
    ensures Gamma(f, risk, 0.0) == 1.0
  {
    assert GammaBase(0.0) == 1.0;
  }

  /** The spread scale grows with the size of the inventory, on either side. */
  lemma GammaMonotone(f: Fns, risk: RiskConfig, q1: real, q2: real)
    requires Laws(f)
    requires risk.gammaA >= 0.0
    requires Abs(q1) <= Abs(q2)
    ensures Gamma(f, risk, q1) <= Gamma(f, risk, q2)
  {
    var b1, b2 := GammaBase(q1), GammaBase(q2);
    assert b2 <= b1;
    PowMonotone(f, b2, b1, risk.gammaA);
    ClipRecipMonotone(f.pow(b1, risk.gammaA), f.pow(b2, risk.gammaA), risk.gammaMax);
  }

  lemma ClipRecipMonotone(d1: real, d2: real, hi: real)
    requires 0.0 < d2 <= d1
    ensures Clip(1.0 / d1, 1.0, hi) <= Clip(1.0 / d2, 1.0, hi)
  {
    RecipAntitone(d2, d1);
  }

  // ---------------------------------------------------------------------
  // Regime factor

  const ProbEps: real := 0.000001

  /** The Bernoulli variance of the clipped probability, normalised by its
      maximum 0.25. */
  function Uncertainty(p: real): (u: real)
    ensures 0.0 < u <= 1.0
  {
    NormalisedVariance(Clip(p, ProbEps, 1.0 - ProbEps))
  }

  function NormalisedVariance(c: real): (u: real)
    requires 0.0 < c < 1.0
    ensures 0.0 < u <= 1.0
    ensures c == 0.5 ==> u == 1.0
  {
    BernoulliVariance(c);
    (c * (1.0 - c)) / 0.25
  }

  /** `A_p(p) = (p (1 - p) / 0.25) ** beta_p` on p clipped to [1e-6, 1 - 1e-6]. */
  function Ap(f: Fns, betaP: real, p: real): (r: real)
    requires Laws(f)
    ensures r > 0.0
    ensures betaP >= 0.0 ==> r <= 1.0
  {
    var u := Uncertainty(p);
    PowAtMostOne(f, u, betaP);
    f.pow(u, betaP)
  }

  /** c (1 - c) lies in (0, 1/4] for c in (0, 1). */
  lemma BernoulliVariance(c: real)
    requires 0.0 < c < 1.0
    ensures 0.0 < c * (1.0 - c) <= 0.25
  {
    MulNonNeg(c, 1.0 - c);
    assert c * (1.0 - c) != 0.0;
    if c >= 0.5 { MulNonNeg(c - 0.5, c - 0.5); } else { MulNonNeg(0.5 - c, 0.5 - c); }
  }
  lemma ApAtHalf(f: Fns, betaP: real)
    requires Laws(f)
    ensures Ap(f, betaP, 0.5) == 1.0
  {
    assert Uncertainty(0.5) == 1.0;
  }

  /** The weighting treats an outcome and its complement alike. */
  lemma ApSymmetric(f: Fns, betaP: real, p: real)
    requires Laws(f)
    ensures Ap(f, betaP, 1.0 - p) == Ap(f, betaP, p)
  {
    var c := Clip(p, ProbEps, 1.0 - ProbEps);
    assert Clip(1.0 - p, ProbEps, 1.0 - ProbEps) == 1.0 - c;
    VarianceSymmetric(c);
  }

  lemma VarianceSymmetric(c: real)
    requires 0.0 < c < 1.0
    ensures NormalisedVariance(1.0 - c) == NormalisedVariance(c)
  {
    assert (1.0 - c) * (1.0 - (1.0 - c)) == c * (1.0 - c);
  }

  function URef(risk: RiskConfig): (r: real)
    ensures r >= 0.000000001
  {
    Max(risk.uRef, 0.000000001)
  }

  /** Uref / (U + Uref), the base of `L_U`. */
  function LiquidityBase(risk: RiskConfig, u: real): (b: real)
    requires u + URef(risk) != 0.0
    ensures u >= 0.0 ==> 0.0 < b <= 1.0
    ensures u == 0.0 ==> b == 1.0
  {
    var ur := URef(risk);
    RatioBelowOne(ur, u);
    ur / (u + ur)
  }

  lemma RatioBelowOne(ur: real, u: real)
    requires ur > 0.0
    requires u + ur != 0.0
    ensures u >= 0.0 ==> 0.0 < ur / (u + ur) <= 1.0
  {
    if u >= 0.0 {
      FractionBounds(ur, u + ur);
      assert ur / (u + ur) != 0.0;
    }
  }

  lemma LiquidityBaseDecreasing(risk: RiskConfig, u1: real, u2: real)
    requires 0.0 <= u1 < u2
    ensures LiquidityBase(risk, u2) < LiquidityBase(risk, u1)
  {
    var ur := URef(risk);
    RecipStrict(u1 + ur, u2 + ur, ur);
  }

  /** `L_U(U) = (Uref / (U + Uref)) ** alpha_U`; U = -Uref is a division by
      zero in the source. */
  function LU(f: Fns, risk: RiskConfig, u: real): (r: real)
    requires Laws(f)
    requires u + URef(risk) != 0.0
    ensures u >= 0.0 ==> r > 0.0
    ensures u >= 0.0 && risk.alphaU >= 0.0 ==> r <= 1.0
  {
    var b := LiquidityBase(risk, u);
    PowAtMostOne(f, b, risk.alphaU);
    f.pow(b, risk.alphaU)
  }

  lemma LUAtZero(f: Fns, risk: RiskConfig)
    requires Laws(f)
    ensures LU(f, risk, 0.0) == 1.0
  {
  }

  /** More trading activity always lowers the liquidity factor. */
  lemma LUDecreasing(f: Fns, risk: RiskConfig, u1: real, u2: real)
    requires Laws(f)
    requires 0.0 <= u1 < u2 && risk.alphaU > 0.0
    ensures LU(f, risk, u2) < LU(f, risk, u1)
  {
    LiquidityBaseDecreasing(risk, u1, u2);
    assert PowIncreasing(f, LiquidityBase(risk, u2), LiquidityBase(risk, u1), risk.alphaU);
  }

  /** The combined signal w_A (A - 1) + w_L (L - 1), normalised by
      max(s_scale, 1e-9) and clipped to [-1, 1]. */
  function Signal(wA: real, a: real, wL: real, l: real, sScale: real): (g: real)
    ensures -1.0 <= g <= 1.0
    ensures a == 1.0 && l == 1.0 ==> g == 0.0
  {
    Clip((wA * (a - 1.0) + wL * (l - 1.0)) / Max(sScale, 0.000000001), -1.0, 1.0)
  }

  lemma SignalNonPositive(wA: real, a: real, wL: real, l: real, sScale: real)
    requires wA >= 0.0 && wL >= 0.0 && a <= 1.0 && l <= 1.0
    ensures Signal(wA, a, wL, l, sScale) <= 0.0
  {
    MulNonNeg(wA, 1.0 - a);
    MulNonNeg(wL, 1.0 - l);
    var s := wA * (a - 1.0) + wL * (l - 1.0);
    assert s <= 0.0;
    DivideMonotone(s, 0.0, Max(sScale, 0.000000001));
  }

  /** The piecewise-linear map of the signal onto [lambda_min, lambda_max]. */
  function Regime(g: real, lamMin: real, lamMax: real): (r: real)
    ensures lamMin <= lamMax ==> lamMin <= r <= lamMax
    ensures lamMax < lamMin ==> r == lamMin
    ensures g == 0.0 ==> r == Clip(1.0, lamMin, lamMax)
  {
    var lam := if g > 0.0 then 1.0 + (lamMax - 1.0) * g else 1.0 + (1.0 - lamMin) * g;
    Clip(lam, lamMin, lamMax)
  }

  lemma RegimeAtMostOne(g: real, lamMin: real, lamMax: real)
    requires g <= 0.0 && lamMin <= 1.0
    ensures Regime(g, lamMin, lamMax) <= 1.0
  {
    MulNonNeg(1.0 - lamMin, -g);
  }

  /** The normalised regime signal g in [-1, 1]. */
  function RegimeSignal(f: Fns, risk: RiskConfig, p: real, u: real): (g: real)
    requires Laws(f)
    requires u + URef(risk) != 0.0
    ensures -1.0 <= g <= 1.0
  {
    Signal(risk.wA, Ap(f, risk.betaP, p), risk.wL, LU(f, risk, u), risk.sScale)
  }

  /** `lambda_struct(p, U)`: 1 + (lambda_max - 1) g for g > 0, else
      1 + (1 - lambda_min) g, clipped to [lambda_min, lambda_max]. */
  function LambdaStruct(f: Fns, risk: RiskConfig, p: real, u: real): (r: real)
    requires Laws(f)
    requires u + URef(risk) != 0.0
    ensures risk.lambdaMin <= risk.lambdaMax ==> risk.lambdaMin <= r <= risk.lambdaMax
    ensures risk.lambdaMax < risk.lambdaMin ==> r == risk.lambdaMin
  {
    Regime(RegimeSignal(f, risk, p, u), risk.lambdaMin, risk.lambdaMax)
  }

  /** At the neutral point (p = 1/2, no activity) the regime factor is 1. */
  lemma LambdaNeutral(f: Fns, risk: RiskConfig)
    requires Laws(f)
    requires risk.lambdaMin <= 1.0 <= risk.lambdaMax
    ensures LambdaStruct(f, risk, 0.5, 0.0) == 1.0
  {
    ApAtHalf(f, risk.betaP);
    LUAtZero(f, risk);
  }

  /** With non-negative weights and exponents both A(p) and L(U) are at most 1,
      so the regime signal is never positive and lambda never exceeds 1:
      the lambda_max branch is unreachable. */
  lemma LambdaAtMostOne(f: Fns, risk: RiskConfig, p: real, u: real)
    requires Laws(f)
    requires u >= 0.0
    requires risk.wA >= 0.0 && risk.wL >= 0.0 && risk.betaP >= 0.0 && risk.alphaU >= 0.0
    requires risk.lambdaMin <= 1.0
    ensures RegimeSignal(f, risk, p, u) <= 0.0
    ensures LambdaStruct(f, risk, p, u) <= 1.0
  {
    SignalNonPositive(risk.wA, Ap(f, risk.betaP, p), risk.wL, LU(f, risk, u), risk.sScale);
    RegimeAtMostOne(RegimeSignal(f, risk, p, u), risk.lambdaMin, risk.lambdaMax);
  }
}
