/** The stateful half of `Indicators` (pm4/trading.py): the sampled log-odds
    returns, the multi-horizon EMAs behind the volatility multiplier sigma, the
    markout bookkeeping over pending fills that feeds the toxicity EMAs, and
    the warm-up readiness test and snapshot. */
module Estimator {
  import opened Wrappers
  import opened RealMath
  import opened Utils
  import opened Deques
  import opened Config
  import opened Risk
  import opened Sorting

  /** `_returns` is a deque of at most 5000 returns, `_fills_pending` one of at
      most 2000 fills. */
  const ReturnsCap: nat := 5000
  const FillsCap: nat := 2000

  /** The floor the source puts under every denominator. */
  const Tiny: real := 0.000000001

  /** The factor that turns a median absolute deviation into a standard
      deviation under normality. */
  const MadToSigma: real := 1.4826

  // ---------------------------------------------------------------------
  // Volatility estimate

  /** The five EMAs of the returns and the smoothed volatility multiplier. */
  datatype Estimates = Estimates(
    fastAbs: real, slowAbs: real, fastR: real, fastAbsR: real, slowAbsR: real, sigma: real)

  /** The bounds every update keeps: sigma in [1, max(1, sigma_max)] and the
      EMAs of absolute values non-negative. */
  ghost predicate Bounded(e: Estimates, sigmaMax: real) {
    && 1.0 <= e.sigma <= Max(1.0, sigmaMax)
    && e.fastAbs >= 0.0 && e.slowAbs >= 0.0 && e.fastAbsR >= 0.0 && e.slowAbsR >= 0.0
  }

  /** The stress S = S_sigma + c_tox Z_tox of `on_time_sample`, from the
      already-updated EMAs. */
  function Stress(f: Fns, cfg: BotConfig, rate: real, e: Estimates, tox1: real, tox2: real): real {
    var intensity := Clip(rate / Max(cfg.quote.rateRefPerS, Tiny), 1.0, cfg.risk.iMax);
    var j := e.fastAbs / Max(e.slowAbs, Tiny);
    var d := Abs(e.fastR) / Max(e.fastAbsR, Tiny);
    var sSigma := Max(f.ln(Max(j, 1.0)), 0.0) * Clip(d, 0.0, 1.0) * intensity;
    var t := cfg.warmup.markoutW1 * tox1 + cfg.warmup.markoutW2 * tox2;
    var zTox := t / Max(e.slowAbsR, Tiny);
    sSigma + cfg.risk.cTox * zTox
  }

  /** With non-negative toxicity weights and EMAs the stress is never negative,
      so `S ** nu_sigma` never sees a negative base. */
  lemma StressNonNegative(f: Fns, cfg: BotConfig, rate: real, e: Estimates, tox1: real, tox2: real)
    requires cfg.warmup.markoutW1 >= 0.0 && cfg.warmup.markoutW2 >= 0.0 && cfg.risk.cTox >= 0.0
    requires tox1 >= 0.0 && tox2 >= 0.0
    ensures Stress(f, cfg, rate, e, tox1, tox2) >= 0.0
  {
    var intensity := Clip(rate / Max(cfg.quote.rateRefPerS, Tiny), 1.0, cfg.risk.iMax);
    var d := Abs(e.fastR) / Max(e.fastAbsR, Tiny);
    var j := e.fastAbs / Max(e.slowAbs, Tiny);
    var l := Max(f.ln(Max(j, 1.0)), 0.0);
    var c := Clip(d, 0.0, 1.0);
    ProductOfThreeNonNeg(l, c, intensity);
    MulNonNeg(cfg.warmup.markoutW1, tox1);
    MulNonNeg(cfg.warmup.markoutW2, tox2);
    var t := cfg.warmup.markoutW1 * tox1 + cfg.warmup.markoutW2 * tox2;
    DivideMonotone(0.0, t, Max(e.slowAbsR, Tiny));
    MulNonNeg(cfg.risk.cTox, t / Max(e.slowAbsR, Tiny));
  }

  lemma ProductOfThreeNonNeg(a: real, b: real, c: real)
    requires a >= 0.0 && b >= 0.0 && c >= 0.0
    ensures a * b * c >= 0.0
  {
    MulNonNeg(a, b);
    MulNonNeg(a * b, c);
  }

  /** `sigma_raw = clip(1 + c_sigma S ** nu_sigma, 1, sigma_max)`. */
  function SigmaRaw(f: Fns, cfg: BotConfig, rate: real, e: Estimates, tox1: real, tox2: real): (r: real)
    ensures 1.0 <= r <= Max(1.0, cfg.risk.sigmaMax)
  {
    var s := Stress(f, cfg, rate, e, tox1, tox2);
    Clip(1.0 + cfg.risk.cSigma * f.pow(s, cfg.risk.nuSigma), 1.0, cfg.risk.sigmaMax)
  }

  /** One accepted sample with return r: the five EMAs step toward |r| or r,
      then sigma steps toward sigma_raw with the up or down time constant. */
  function SampleUpdate(f: Fns, cfg: BotConfig, e: Estimates, r: real, rate: real, tox1: real, tox2: real): (n: Estimates)
    requires Laws(f)
    ensures cfg.warmup.dtSampleS >= 0.0 && Bounded(e, cfg.risk.sigmaMax) ==> Bounded(n, cfg.risk.sigmaMax)
  {
    var w := cfg.warmup;
    var dt := w.dtSampleS;
    var a := Abs(r);
    var e1 := Estimates(
      Ema(f, e.fastAbs, a, w.tauFastS, dt),
      Ema(f, e.slowAbs, a, w.tauSlowS, dt),
      Ema(f, e.fastR, r, w.tauFastS, dt),
      Ema(f, e.fastAbsR, a, w.tauFastS, dt),
      Ema(f, e.slowAbsR, a, w.tauSlowS, dt),
      e.sigma);
    var raw := SigmaRaw(f, cfg, rate, e1, tox1, tox2);
    var tau := if raw > e.sigma then cfg.risk.sigmaTauUpS else cfg.risk.sigmaTauDownS;
    e1.(sigma := Ema(f, e.sigma, raw, tau, dt))
  }

  /** A sample arriving sooner than int(dt_s * 1000) - 10 ms after the last
      accepted one is ignored. */
  predicate Gated(w: WarmupConfig, last: int, tMs: int) {
    tMs - last < Trunc(w.dtSampleS * 1000.0) - 10
  }

  /** The log-odds return that `on_time_sample` appends for a sample at tMs
      with mid pMid, or None when the sample only seeds the state (there is
      no earlier sample) or is gated. */
  function SampleReturn(f: Fns, w: WarmupConfig, lastTsMs: Option<int>, lastX: Option<real>,
                        tMs: int, pMid: real): Option<real>
  {
    if lastTsMs.None? || lastX.None? || Gated(w, lastTsMs.value, tMs) then None
    else Some(Logit(f, pMid) - lastX.value)
  }

  // ---------------------------------------------------------------------
  // Markouts

  /** A fill as the exchange reports it; a side other than BUY counts as a
      sell. */
  datatype Fill = Fill(tsMs: int, price: real, isBuy: bool)

  /** A fill awaiting its markouts: the cached logit of its price and the two
      per-horizon flags. */
  datatype PendingFill = PendingFill(fill: Fill, xFill: Option<real>, h1Done: bool, h2Done: bool)

  datatype Horizon = Short | Long

  function DoneAt(pf: PendingFill, h: Horizon): bool {
    match h
    case Short => pf.h1Done
    case Long => pf.h2Done
  }

  predicate Finished(pf: PendingFill) {
    pf.h1Done && pf.h2Done
  }

  /** `int(markout_h*_s * 1000)`. */
  function HorizonMs(w: WarmupConfig, h: Horizon): int {
    match h
    case Short => Trunc(w.markoutH1S * 1000.0)
    case Long => Trunc(w.markoutH2S * 1000.0)
  }

  /** The horizon has elapsed and its markout has not been taken yet. */
  predicate Due(w: WarmupConfig, tMs: int, pf: PendingFill, h: Horizon) {
    tMs - pf.fill.tsMs >= HorizonMs(w, h) && !DoneAt(pf, h)
  }

  /** The fill's price in log-odds, computed on first use. */
  function FillLogit(f: Fns, pf: PendingFill): real {
    match pf.xFill
    case Some(x) => x
    case None => Logit(f, pf.fill.price)
  }

  /** max(0, s (x_now - x_fill)) with s = +1 for a buy and -1 otherwise. */
  function PositiveMarkout(f: Fns, xNow: real, pf: PendingFill): (pos: real)
    ensures pos >= 0.0
  {
    var s := if pf.fill.isBuy then 1.0 else -1.0;
    Max(0.0, s * (xNow - FillLogit(f, pf)))
  }

  /** The fill after one pass: its logit cached and each flag set once its
      horizon has elapsed. */
  function Marked(f: Fns, w: WarmupConfig, tMs: int, pf: PendingFill): (m: PendingFill)
    ensures m.fill == pf.fill && m.xFill == Some(FillLogit(f, pf))
    ensures forall h :: DoneAt(m, h) <==> DoneAt(pf, h) || tMs - pf.fill.tsMs >= HorizonMs(w, h)
  {
    PendingFill(pf.fill, Some(FillLogit(f, pf)),
                pf.h1Done || Due(w, tMs, pf, Short), pf.h2Done || Due(w, tMs, pf, Long))
  }

  /** The pending fills kept by one pass, in order: the marked fills that do
      not yet have both markouts. */
  function Survivors(f: Fns, w: WarmupConfig, tMs: int, fills: seq<PendingFill>): (r: seq<PendingFill>)
    ensures |r| <= |fills|
    ensures forall m :: m in r ==> !Finished(m)
  {
    if |fills| == 0 then []
    else
      var m := Marked(f, w, tMs, fills[|fills| - 1]);
      Survivors(f, w, tMs, fills[..|fills| - 1]) + (if Finished(m) then [] else [m])
  }

  /** The toxicity EMA of one horizon after one pass over the fills, in order. */
  function Toxicity(f: Fns, w: WarmupConfig, xNow: real, tMs: int, h: Horizon, tox: real,
                    fills: seq<PendingFill>): real
    requires Laws(f)
  {
    if |fills| == 0 then tox
    else
      var prev := Toxicity(f, w, xNow, tMs, h, tox, fills[..|fills| - 1]);
      var pf := fills[|fills| - 1];
      if Due(w, tMs, pf, h) then Ema(f, prev, PositiveMarkout(f, xNow, pf), w.tauFastS, w.dtSampleS)
      else prev
  }

  /** A fill leaves the pending list exactly when both of its markouts have
      been taken; every survivor is the marked form of an input fill. */
  lemma {:induction false} SurvivorsExactly(f: Fns, w: WarmupConfig, tMs: int, fills: seq<PendingFill>)
    ensures forall i :: 0 <= i < |fills| && !Finished(Marked(f, w, tMs, fills[i]))
              ==> Marked(f, w, tMs, fills[i]) in Survivors(f, w, tMs, fills)
    ensures forall m :: m in Survivors(f, w, tMs, fills)
              ==> exists i :: 0 <= i < |fills| && m == Marked(f, w, tMs, fills[i])
  {
    if |fills| > 0 {
      var init := fills[..|fills| - 1];
      SurvivorsExactly(f, w, tMs, init);
      forall m | m in Survivors(f, w, tMs, fills)
        ensures exists i :: 0 <= i < |fills| && m == Marked(f, w, tMs, fills[i])
      {
        if m in Survivors(f, w, tMs, init) {
          var i :| 0 <= i < |init| && m == Marked(f, w, tMs, init[i]);
          assert fills[i] == init[i];
        } else {
          assert m == Marked(f, w, tMs, fills[|fills| - 1]);
        }
      }
      forall i | 0 <= i < |fills| && !Finished(Marked(f, w, tMs, fills[i]))
        ensures Marked(f, w, tMs, fills[i]) in Survivors(f, w, tMs, fills)
      {
        if i < |init| {
          assert init[i] == fills[i];
        }
      }
    }
  }

  /** Marking twice at the same time changes nothing. */
  lemma MarkedIdempotent(f: Fns, w: WarmupConfig, tMs: int, pf: PendingFill)
    ensures Marked(f, w, tMs, Marked(f, w, tMs, pf)) == Marked(f, w, tMs, pf)
  {
    var m := Marked(f, w, tMs, pf);
    assert DoneAt(m, Short) == m.h1Done && DoneAt(m, Long) == m.h2Done;
  }

  lemma {:induction false} SurvivorsAppend(f: Fns, w: WarmupConfig, tMs: int, a: seq<PendingFill>, b: seq<PendingFill>)
    ensures Survivors(f, w, tMs, a + b) == Survivors(f, w, tMs, a) + Survivors(f, w, tMs, b)
    decreases |b|
  {
    if |b| == 0 {
      assert a + b == a;
    } else {
      var ab := a + b;
      assert ab[..|ab| - 1] == a + b[..|b| - 1];
      assert ab[|ab| - 1] == b[|b| - 1];
      SurvivorsAppend(f, w, tMs, a, b[..|b| - 1]);
    }
  }

  /** A second pass at the same time keeps the same fills. */
  lemma {:induction false} SurvivorsIdempotent(f: Fns, w: WarmupConfig, tMs: int, fills: seq<PendingFill>)
    ensures Survivors(f, w, tMs, Survivors(f, w, tMs, fills)) == Survivors(f, w, tMs, fills)
  {
    if |fills| > 0 {
      var init := fills[..|fills| - 1];
      var m := Marked(f, w, tMs, fills[|fills| - 1]);
      var tail := if Finished(m) then [] else [m];
      SurvivorsIdempotent(f, w, tMs, init);
      SurvivorsAppend(f, w, tMs, Survivors(f, w, tMs, init), tail);
      if !Finished(m) {
        MarkedIdempotent(f, w, tMs, fills[|fills| - 1]);
        assert [m][..0] == [];
        assert Survivors(f, w, tMs, tail) == [m];
      }
    }
  }

  /** A pass over fills none of which is due leaves the EMA unchanged. */
  lemma {:induction false} ToxicityNoneDue(f: Fns, w: WarmupConfig, xNow: real, tMs: int, h: Horizon, tox: real,
                                           fills: seq<PendingFill>)
    requires Laws(f)
    requires forall i :: 0 <= i < |fills| ==> !Due(w, tMs, fills[i], h)
    ensures Toxicity(f, w, xNow, tMs, h, tox, fills) == tox
  {
    if |fills| > 0 {
      ToxicityNoneDue(f, w, xNow, tMs, h, tox, fills[..|fills| - 1]);
    }
  }

  /** Each markout is applied at most once: a second pass at the same time,
      over the fills the first pass kept, moves neither toxicity EMA. */
  lemma MarkoutsAppliedOnce(f: Fns, w: WarmupConfig, xNow: real, tMs: int, h: Horizon, tox: real,
                            fills: seq<PendingFill>)
    requires Laws(f)
    ensures Toxicity(f, w, xNow, tMs, h, tox, Survivors(f, w, tMs, fills)) == tox
  {
    var s := Survivors(f, w, tMs, fills);
    SurvivorsExactly(f, w, tMs, fills);
    forall i | 0 <= i < |s|
      ensures !Due(w, tMs, s[i], h)
    {
      assert s[i] in s;
      var j :| 0 <= j < |fills| && s[i] == Marked(f, w, tMs, fills[j]);
    }
    ToxicityNoneDue(f, w, xNow, tMs, h, tox, s);
  }

  /** The toxicity EMAs stay non-negative, since they only ever average in
      positive parts of markouts. */
  lemma {:induction false} ToxicityNonNegative(f: Fns, w: WarmupConfig, xNow: real, tMs: int, h: Horizon,
                                               tox: real, fills: seq<PendingFill>)
    requires Laws(f)
    requires tox >= 0.0 && w.dtSampleS >= 0.0
    ensures Toxicity(f, w, xNow, tMs, h, tox, fills) >= 0.0
  {
    if |fills| > 0 {
      ToxicityNonNegative(f, w, xNow, tMs, h, tox, fills[..|fills| - 1]);
    }
  }

  // ---------------------------------------------------------------------
  // Warm-up

  /** `[abs(x - c) for x in xs]`. */
  function AbsDeviations(xs: seq<real>, c: real): (d: seq<real>)
    ensures |d| == |xs|
    ensures forall i :: 0 <= i < |d| ==> d[i] >= 0.0
  {
    seq(|xs|, i requires 0 <= i < |xs| => Abs(xs[i] - c))
  }

  /** The median absolute deviation about the upper median. */
  function Mad(xs: seq<real>): (m: real)
    requires |xs| > 0
    ensures m >= 0.0
  {
    var d := AbsDeviations(xs, UpperMedian(xs));
    UpperMedianNonNeg(d);
    UpperMedian(d)
  }

  /** Constant returns carry no dispersion. */
  lemma MadOfConstant(xs: seq<real>, c: real)
    requires |xs| > 0
    requires forall i :: 0 <= i < |xs| ==> xs[i] == c
    ensures Mad(xs) == 0.0
  {
    UpperMedianOfConstant(xs, c);
    UpperMedianOfConstant(AbsDeviations(xs, c), 0.0);
  }

  /** `warm_snapshot()`: only the count when there are no returns. */
  datatype Snapshot =
    | NoReturns
    | Stats(nReturns: nat, dtSampleS: real, sigmaBase: real, emaFastAbs: real, emaSlowAbs: real)

  // ---------------------------------------------------------------------
  // The indicator state

  class Indicators {
    const cfg: BotConfig
    const fns: Fns
    var est: Estimates
    var logReturns: seq<real>
    var lastSampleTsMs: Option<int>
    var lastX: Option<real>
    var fillsPending: seq<PendingFill>
    var toxEmaPosH1: real
    var toxEmaPosH2: real

    /** The class invariant: the buffers respect their bounds, the last
        sample and its logit are set together, no finished fill is pending,
        and (for a non-negative sampling step) sigma and the EMAs of
        non-negative quantities keep their ranges. */
    ghost predicate Valid()
      reads this
    {
      && Laws(fns)
      && |logReturns| <= ReturnsCap
      && |fillsPending| <= FillsCap
      && lastSampleTsMs.Some? == lastX.Some?
      && (forall pf :: pf in fillsPending ==> !Finished(pf))
      && (cfg.warmup.dtSampleS >= 0.0 ==>
            Bounded(est, cfg.risk.sigmaMax) && toxEmaPosH1 >= 0.0 && toxEmaPosH2 >= 0.0)
    }

    constructor (cfg: BotConfig, fns: Fns)
      requires Laws(fns)
      ensures Valid()
      ensures this.cfg == cfg && this.fns == fns
      ensures est == Estimates(0.0, 0.0, 0.0, 0.0, 0.0, 1.0)
      ensures logReturns == [] && lastSampleTsMs == None && lastX == None
      ensures fillsPending == [] && toxEmaPosH1 == 0.0 && toxEmaPosH2 == 0.0
    {
      this.cfg := cfg;
      this.fns := fns;
      est := Estimates(0.0, 0.0, 0.0, 0.0, 0.0, 1.0);
      logReturns := [];
      lastSampleTsMs, lastX := None, None;
      fillsPending := [];
      toxEmaPosH1, toxEmaPosH2 := 0.0, 0.0;
    }

    /** `warm_ready()`. */
    function WarmReady(): (ready: bool)
      reads this
      requires Valid()
      ensures ready ==> cfg.warmup.minReturnSamples <= ReturnsCap
    {
      |logReturns| >= cfg.warmup.minReturnSamples
    }

    /** `warm_snapshot()`: the count, the scaled MAD of the returns and the
        two volatility EMAs. */
    function WarmSnapshot(): (s: Snapshot)
      reads this
      ensures s.NoReturns? <==> |logReturns| == 0
      ensures s.Stats? ==> s.nReturns == |logReturns| && s.sigmaBase >= 0.0
      ensures s.Stats? ==> s.emaFastAbs == est.fastAbs && s.emaSlowAbs == est.slowAbs
    {
      if |logReturns| == 0 then NoReturns
      else
        MulNonNeg(MadToSigma, Mad(logReturns));
        Stats(|logReturns|, cfg.warmup.dtSampleS, MadToSigma * Mad(logReturns), est.fastAbs, est.slowAbs)
    }

    /** `on_time_sample(t_ms, p_mid, trade_rate_per_s)`: the first sample
        only records its time and logit; a gated one changes nothing; any
        other appends its log-odds return and moves the estimates. */
    method OnTimeSample(tMs: int, pMid: real, tradeRatePerS: real)
      requires Valid()
      modifies this`lastSampleTsMs, this`lastX, this`logReturns, this`est
      ensures Valid()
      ensures var acc := SampleReturn(fns, cfg.warmup, old(lastSampleTsMs), old(lastX), tMs, pMid);
        && (old(lastSampleTsMs).None? || acc.Some? ==> lastSampleTsMs == Some(tMs) && lastX == Some(Logit(fns, pMid)))
        && (old(lastSampleTsMs).Some? && acc.None? ==> lastSampleTsMs == old(lastSampleTsMs) && lastX == old(lastX))
        && logReturns == (if acc.Some? then BoundedAppend(old(logReturns), acc.value, ReturnsCap) else old(logReturns))
        && est == (if acc.Some? then SampleUpdate(fns, cfg, old(est), acc.value, tradeRatePerS, toxEmaPosH1, toxEmaPosH2)
                   else old(est))
      ensures old(WarmReady()) ==> WarmReady()
    {
      var x := Logit(fns, pMid);
      if lastSampleTsMs.None? {
        lastSampleTsMs := Some(tMs);
        lastX := Some(x);
        return;
      }
      var accepted := SampleReturn(fns, cfg.warmup, lastSampleTsMs, lastX, tMs, pMid);
      if accepted.None? {
        return;
      }
      AcceptReturn(accepted.value, tMs, x, tradeRatePerS);
    }

    /** The accepted-return branch of `on_time_sample`: the return joins the
        bounded list, the sample becomes the last one, the estimates move. */
    method AcceptReturn(r: real, tMs: int, x: real, tradeRatePerS: real)
      requires Valid()
      modifies this`lastSampleTsMs, this`lastX, this`logReturns, this`est
      ensures Valid()
      ensures lastSampleTsMs == Some(tMs) && lastX == Some(x)
      ensures logReturns == BoundedAppend(old(logReturns), r, ReturnsCap)
      ensures est == SampleUpdate(fns, cfg, old(est), r, tradeRatePerS, toxEmaPosH1, toxEmaPosH2)
    {
      var next := SampleUpdate(fns, cfg, est, r, tradeRatePerS, toxEmaPosH1, toxEmaPosH2);
      logReturns := BoundedAppend(logReturns, r, ReturnsCap);
      lastSampleTsMs := Some(tMs);
      lastX := Some(x);
      est := next;
    }

    /** `record_fill(fill)`: the fill joins the bounded pending list with no
        markout taken. */
    method RecordFill(fill: Fill)
      requires Valid()
      modifies this`fillsPending
      ensures Valid()
      ensures fillsPending == BoundedAppend(old(fillsPending), PendingFill(fill, None, false, false), FillsCap)
    {
      var pf := PendingFill(fill, None, false, false);
      var next := BoundedAppend(fillsPending, pf, FillsCap);
      forall q | q in next
        ensures !Finished(q)
      {
        BoundedAppendMembers(fillsPending, pf, FillsCap, q);
      }
      fillsPending := next;
    }

    /** `update_markouts(t_ms, p_mid)`: one pass over the pending fills, in
        order, taking each due markout once and dropping finished fills. */
    method UpdateMarkouts(tMs: int, pMid: real)
      requires Valid()
      modifies this`fillsPending, this`toxEmaPosH1, this`toxEmaPosH2
      ensures Valid()
      ensures fillsPending == Survivors(fns, cfg.warmup, tMs, old(fillsPending))
      ensures toxEmaPosH1 == Toxicity(fns, cfg.warmup, Logit(fns, pMid), tMs, Short, old(toxEmaPosH1), old(fillsPending))
      ensures toxEmaPosH2 == Toxicity(fns, cfg.warmup, Logit(fns, pMid), tMs, Long, old(toxEmaPosH2), old(fillsPending))
    {
      var w := cfg.warmup;
      var xNow := Logit(fns, pMid);
      var h1Ms, h2Ms := HorizonMs(w, Short), HorizonMs(w, Long);
      var fills := fillsPending;
      var tox1, tox2 := toxEmaPosH1, toxEmaPosH2;
      var keep: seq<PendingFill> := [];
      for i := 0 to |fills|
        invariant keep == Survivors(fns, w, tMs, fills[..i])
        invariant tox1 == Toxicity(fns, w, xNow, tMs, Short, toxEmaPosH1, fills[..i])
        invariant tox2 == Toxicity(fns, w, xNow, tMs, Long, toxEmaPosH2, fills[..i])
      {
        assert fills[..i + 1][..i] == fills[..i];
        var pf := fills[i];
        var xFill := FillLogit(fns, pf);
        var h1, h2 := pf.h1Done, pf.h2Done;
        if tMs - pf.fill.tsMs >= h1Ms && !h1 {
          var pos := PositiveMarkout(fns, xNow, pf);
          tox1 := Ema(fns, tox1, pos, w.tauFastS, w.dtSampleS);
          h1 := true;
        }
        if tMs - pf.fill.tsMs >= h2Ms && !h2 {
          var pos := PositiveMarkout(fns, xNow, pf);
          tox2 := Ema(fns, tox2, pos, w.tauFastS, w.dtSampleS);
          h2 := true;
        }
        var marked := PendingFill(pf.fill, Some(xFill), h1, h2);
        assert marked == Marked(fns, w, tMs, pf);
        if !(h1 && h2) {
          keep := keep + [marked];
        }
      }
      assert fills[..|fills|] == fills;
      if w.dtSampleS >= 0.0 {
        ToxicityNonNegative(fns, w, xNow, tMs, Short, toxEmaPosH1, fills);
        ToxicityNonNegative(fns, w, xNow, tMs, Long, toxEmaPosH2, fills);
      }
      fillsPending := keep;
      toxEmaPosH1, toxEmaPosH2 := tox1, tox2;
    }
  }
}
