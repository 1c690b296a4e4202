# PM4 market maker — a Dafny model of its quoting core

PM4 quotes both sides of a binary prediction market: YES tokens with prices in (0, 1).
This project models the parts of PM4 that decide what to quote and prove properties of
those decisions.

- **Helpers** (`pm4/utils.py`): `clip`, `logit`, `sigmoid` and the tick rounding.
  They live in `utils.dfy`.
- **Market-data feed** (`pm4/market_data.py`):
  - the `BookState` record;
  - the `MarketData` handlers for the `book`, `price_change`, `tick_size_change` and `last_trade_price` messages;
  - the trade-rate estimate.

  They live in `market_data.dfy`, with the bounded deque in `deques.dfy`.
- **Trading module** (`pm4/trading.py`):
  - the `Indicators` risk estimates. The formulas are in `risk.dfy`; the state and its updates are in `estimator.dfy`, with the median in `sorting.dfy`.
  - `build_v1_ladder` and its `dedupe`, in `ladder.dfy`.
  - `Quoter.estimate_U_proxy` and `Quoter.compute` with `clean_orders`, in `quoter.dfy`.
  - the action-planning part of `_reconcile`, in `reconcile.dfy`.
- **Market screening**:
  - the `extract_market_slug` of `pm4/market_analyzer.py` and of `pm4/market_config_helper.py`, with their shared regular expressions in `slugs.dfy`;
  - the five-tier score of `analyze_market` and `is_recommended`.

  They live in `market_analyzer.dfy` and `market_config_helper.dfy`.

The configuration dataclasses of `pm4/types.py` are plain datatypes in `config.dfy`.

## How the model is built

- **Floats** are modelled as `real`.
- **Transcendental functions.** `exp`, `ln`, `pow` and `sqrt` are the fields of a record `RealMath.Fns`. A predicate `Laws(f)` states the laws the proofs use:
  - `exp` is positive and strictly increasing, and exp(x) exp(-x) = 1;
  - `ln` is a right inverse of `exp` on the positive reals: exp(ln y) = y for y > 0;
  - `pow(b, e)` is positive for a positive base and non-negative for a non-negative one;
  - pow(1, e) = 1 and pow(b, 0) = 1;
  - `pow(b, e)` is strictly increasing in a non-negative base b for e > 0;
  - `sqrt` is non-negative on non-negative arguments.

  Every member that evaluates them requires `Laws(f)`. Facts such as `ln(1/y) = -ln y` are proved from those laws in `real_math.dfy`.
- **Integer conversions.** Python's `int()` truncates toward zero; it is `Utils.Trunc`. `math.floor` is `.Floor`, and `math.ceil` is `Utils.Ceil`.
- **Bounded deques.** A `deque(maxlen=n)` is a `seq` with `Deques.BoundedAppend`, which drops the oldest element.
- **Objects.**
  - `BookState`, `MarketData`, `Indicators` and `Quoter` are classes. Their methods state the new value of every field they may modify.
  - `MarketData` and `Indicators` each keep a `Valid()` invariant.
    - `MarketData.Valid` also covers the `BookState` it owns: the mid lies strictly inside (0, 1), and the trade history respects its bound.
    - `Indicators.Valid` covers the buffer bounds, the pending fills, and the ranges of sigma and of the EMAs.
    - `BookState` and `Quoter` have no invariant of their own.
  - Loops are `while`/`for` loops. Each is proved against a recursive specification function.
- **Parameters for the outside world.** The clock (`now_ms()`) is a parameter. So are:
  - the open-order listing of `_reconcile`;
  - the fetched market record of `analyze_market`.

  `_reconcile` returns the list of exchange calls it would make, instead of making them.

Four properties of the code are worth knowing. Each is proved:

- **`A_p`** (`pm4/trading.py:307-330`). Its docstring (`pm4/trading.py:316-321`) says it is above 1 away from p = 0.5. The code computes `(p (1 - p) / 0.25) ** beta_p`. The base is at most 1, so for `beta_p >= 0` the result is at most 1 everywhere (`Risk.Ap`). It is 1 at p = 0.5 (`Risk.ApAtHalf`); for `beta_p = 0` it is 1 for every p.
- **`L_U`** (`pm4/trading.py:332-353`). Its docstring (`pm4/trading.py:342-345`) says it is above 1 for high liquidity and 1 at the reference level. The code's base `Uref / (U + Uref)` lies in (0, 1] for U >= 0. So for `alpha_U >= 0` the factor is at most 1, and it is 1 at U = 0 (`Risk.LU`, `Risk.LUAtZero`). For `alpha_U > 0` it strictly decreases in U, so it is below 1 at U = Uref rather than equal to 1 there (`Risk.LUDecreasing`).
- **`lambda_struct`** (`pm4/trading.py:355-393`). Its docstring (`pm4/trading.py:366-370`) describes values above 1 for favourable conditions. With non-negative weights `w_A` and `w_L` and non-negative exponents `beta_p` and `alpha_U`, both factors above are at most 1 and the signal is never positive. So, for `lambda_min <= 1`, lambda never exceeds 1, and the `g > 0` branch toward `lambda_max` is never taken (`Risk.LambdaAtMostOne`). At p = 0.5 with no trades, lambda is 1 when `lambda_min <= 1 <= lambda_max` (`Risk.LambdaNeutral`).
- **`q_hat`** (`pm4/trading.py:258-277`). It lies in [-1, 1] as documented. For q_max > 0 it reaches ±1 whenever |q| >= q_max; for q_max <= 0 it is 0 (`Risk.QHat`, following `pm4/trading.py:277`). `gamma` therefore clips |q_hat| to 0.999999 before dividing (`pm4/trading.py:299`), which keeps its denominator positive (`Risk.GammaBase`).

## Model

| member | source | states |
|---|---|---|
| Utils.Trunc | pm4/market_data.py:378 | `int()` truncates toward zero: the result is within one of x, on the side of zero |
| Utils.Ceil | pm4/utils.py:42 | `math.ceil`: the least integer not below y |
| Utils.Clip | pm4/utils.py:15-17 | the result lies in [lo, hi] and is x inside it, lo below, hi above; an empty range gives lo |
| Utils.LogitArg | pm4/utils.py:20-22 | the clipped probability lies in [1e-6, 1 - 1e-6], so the odds are positive |
| Utils.Logit | pm4/utils.py:20-23 | logit of the clipped probability, always defined; its properties are stated by `Utils.LogitAtHalf`, `Utils.LogitAntisymmetric` and `Utils.SigmoidLogitRoundTrip` |
| Utils.Sigmoid | pm4/utils.py:26-32 | both branches give a value strictly inside (0, 1) |
| Utils.SigmoidBranchesAgree | pm4/utils.py:26-32 | the two branches compute the same function: 1/(1+e^-x) = e^x/(1+e^x) for every x |
| Utils.SigmoidAtZero | pm4/utils.py:28-30 | sigmoid(0) = 0.5 |
| Utils.LogitAtHalf | pm4/utils.py:20-23 | logit(0.5) = 0 |
| Utils.LogitAntisymmetric | pm4/utils.py:20-23 | logit(1 - p) = -logit(p) for every p, clipping included |
| Utils.SigmoidLogitRoundTrip | pm4/utils.py:20-32 | sigmoid(logit(p)) = p for every p inside the clipping range |
| Utils.SigmoidMonotone | pm4/utils.py:26-32 | sigmoid is non-decreasing |
| Utils.FloorToTick | pm4/utils.py:35-37 | for a positive tick: r <= p < r + tick, and r is a whole number of ticks |
| Utils.CeilToTick | pm4/utils.py:40-42 | for a positive tick: r - tick < p <= r, and r is a whole number of ticks |
| Utils.TickRoundingBracket | pm4/utils.py:35-42 | floor_to_tick(p) <= p <= ceil_to_tick(p), and they differ by zero or one tick |
| Deques.BoundedAppend | pm4/market_data.py:329 | appending to a `deque(maxlen=cap)`: length min(n+1, cap), x last, the result is the tail of s + [x] |
| Deques.BoundedAppendMembers | pm4/market_data.py:329 | every element after the append is x or was already there |
| Sorting.Insert | pm4/trading.py:619 | insertion into a sorted list keeps it sorted and adds exactly x to the multiset |
| Sorting.Sort | pm4/trading.py:619 | `sorted(rs)` is sorted and a permutation of rs |
| Sorting.UpperMedian | pm4/trading.py:619 | `sorted(rs)[len(rs)//2]` is an element of rs |
| Sorting.UpperMedianOfConstant | pm4/trading.py:619 | the median of a constant list is that constant |
| Sorting.UpperMedianNonNeg | pm4/trading.py:621 | the median of non-negative values is non-negative |
| Risk.Ema | pm4/trading.py:171-191 | tau <= 0 returns x; for tau > 0 and dt >= 0 the result lies between prev and x; x = prev is a fixed point |
| Risk.EmaMovesToward | pm4/trading.py:186-191 | with tau, dt > 0 and x != prev the EMA moves |
| Risk.Duration | pm4/trading.py:210 | T >= 0.001 s, so the `T > 0` branch is always the one taken |
| Risk.Remaining | pm4/trading.py:212 | the remaining time tau is never negative |
| Risk.TimeFraction | pm4/trading.py:210-216 | tau/T is non-negative, at most 1 from the start on, and exactly 1 at the start |
| Risk.TimeFractionMonotone | pm4/trading.py:210-216 | the fraction never grows with time |
| Risk.TimeFactor | pm4/trading.py:193-216 | the time factor is non-negative |
| Risk.TimeFactorAtMostOne | pm4/trading.py:216 | from the start on, with eta_time >= 0, the factor is at most 1 |
| Risk.TimeFactorAtStart | pm4/trading.py:216 | the factor is 1 at the start of a market with positive duration |
| Risk.TimeFactorNonIncreasing | pm4/trading.py:216 | the factor never grows as resolution approaches |
| Risk.BSide | pm4/trading.py:218-230 | B_side * 2 * max(n_plays, 1) = bankroll_B, so B_side lies in [0, B/2] for a non-negative bankroll |
| Risk.KellyDenominator | pm4/trading.py:251-254 | the Kelly denominator is at least 1e-9 |
| Risk.KellyCap | pm4/trading.py:257 | the cap is non-negative for a non-negative budget and time factor |
| Risk.KellyCapMonotone | pm4/trading.py:257 | the cap is monotone in the time factor |
| Risk.QMax | pm4/trading.py:232-257 | q_max is non-negative for a non-negative bankroll |
| Risk.QMaxNonIncreasing | pm4/trading.py:232-257 | q_max never grows as resolution approaches |
| Risk.QHat | pm4/trading.py:259-278 | q_hat lies in [-1, 1]; it is 0 when q_max <= 0; it has the sign of q; it is non-zero for non-zero q; it is q/q_max inside the range and exactly ±1 when abs(q) >= q_max |
| Risk.Abs | pm4/trading.py:299 | abs(x) is non-negative and is x or -x |
| Risk.GammaBase | pm4/trading.py:299-302 | 1 - u lies in [1e-6, 1] |
| Risk.Gamma | pm4/trading.py:280-305 | gamma lies in [1, max(1, gamma_max)] |
| Risk.GammaAtZero | pm4/trading.py:299-305 | a flat position gives gamma = 1 |
| Risk.GammaMonotone | pm4/trading.py:299-305 | a larger abs(q_hat) never lowers gamma (gamma_a >= 0) |
| Risk.Uncertainty | pm4/trading.py:327-329 | the normalised Bernoulli variance of the clipped p lies in (0, 1] |
| Risk.NormalisedVariance | pm4/trading.py:329 | p(1-p)/0.25 lies in (0, 1] and is 1 at p = 0.5 |
| Risk.Ap | pm4/trading.py:307-330 | A_p is positive, and at most 1 for beta_p >= 0 |
| Risk.ApAtHalf | pm4/trading.py:327-330 | A_p(0.5) = 1 |
| Risk.ApSymmetric | pm4/trading.py:327-330 | A_p(1 - p) = A_p(p) |
| Risk.URef | pm4/trading.py:351 | the reference liquidity is at least 1e-9 |
| Risk.LiquidityBase | pm4/trading.py:353 | Uref/(U+Uref) lies in (0, 1] for U >= 0 and is 1 at U = 0 |
| Risk.LiquidityBaseDecreasing | pm4/trading.py:353 | the base strictly decreases as U grows |
| Risk.LU | pm4/trading.py:332-353 | L_U is positive, and at most 1 for alpha_U >= 0 |
| Risk.LUAtZero | pm4/trading.py:351-353 | L_U(0) = 1 |
| Risk.LUDecreasing | pm4/trading.py:351-353 | L_U strictly decreases in U for alpha_U > 0 |
| Risk.Signal | pm4/trading.py:381-384 | the clipped signal lies in [-1, 1] and is 0 when A = L = 1 |
| Risk.SignalNonPositive | pm4/trading.py:381-384 | with non-negative weights and A, L <= 1 the signal is never positive |
| Risk.Regime | pm4/trading.py:387-393 | the result lies in [lambda_min, lambda_max] (lambda_min when they cross); g = 0 gives clip(1) |
| Risk.RegimeAtMostOne | pm4/trading.py:388-393 | a non-positive signal with lambda_min <= 1 gives at most 1 |
| Risk.RegimeSignal | pm4/trading.py:377-384 | the signal computed from A_p and L_U lies in [-1, 1] |
| Risk.LambdaStruct | pm4/trading.py:355-393 | lambda lies in [lambda_min, lambda_max] |
| Risk.LambdaNeutral | pm4/trading.py:355-393 | p = 0.5 with no trades gives lambda = 1 |
| Risk.LambdaAtMostOne | pm4/trading.py:355-393 | with non-negative weights and exponents the signal is never positive and lambda never exceeds 1, so the lambda_max branch is never taken |
| Estimator.StressNonNegative | pm4/trading.py:536-558 | the stress S is non-negative for non-negative markout weights, c_tox and toxicity EMAs |
| Estimator.SigmaRaw | pm4/trading.py:561-562 | sigma_raw lies in [1, max(1, sigma_max)] |
| Estimator.SampleUpdate | pm4/trading.py:523-568 | an accepted return keeps sigma in its range and the EMAs of absolute values non-negative |
| Estimator.PositiveMarkout | pm4/trading.py:442-451 | the positive part of the signed markout is non-negative |
| Estimator.Marked | pm4/trading.py:438-472 | the fill is kept, its logit is cached, and a horizon is done iff it was done or has elapsed |
| Estimator.Survivors | pm4/trading.py:476-479 | the kept list is no longer than the pending one and holds no finished fill |
| Estimator.SurvivorsExactly | pm4/trading.py:434-479 | the kept fills are exactly the marked pending fills that are not finished |
| Estimator.MarkedIdempotent | pm4/trading.py:438-472 | marking twice at the same time is marking once |
| Estimator.SurvivorsAppend | pm4/trading.py:434-479 | the pass treats each fill on its own: it distributes over concatenation |
| Estimator.SurvivorsIdempotent | pm4/trading.py:434-479 | a second pass at the same time keeps the same fills |
| Estimator.ToxicityNoneDue | pm4/trading.py:446-473 | with no markout due, the toxicity EMA is unchanged |
| Estimator.Toxicity | pm4/trading.py:446-473 | the toxicity EMA after a pass: each due markout, in list order, steps the EMA toward its positive part; its properties are stated by `Estimator.ToxicityNoneDue`, `Estimator.ToxicityNonNegative` and `Estimator.MarkoutsAppliedOnce` |
| Estimator.MarkoutsAppliedOnce | pm4/trading.py:446-479 | each markout is taken once: a second pass over the kept fills at the same time leaves the EMA unchanged |
| Estimator.ToxicityNonNegative | pm4/trading.py:446-473 | the toxicity EMAs stay non-negative |
| Estimator.AbsDeviations | pm4/trading.py:620 | one non-negative deviation per return |
| Estimator.Mad | pm4/trading.py:619-621 | the median absolute deviation is non-negative |
| Estimator.MadOfConstant | pm4/trading.py:619-624 | constant returns have MAD 0, hence sigma_base 0 |
| Estimator.Indicators.constructor | pm4/trading.py:154-168 | sigma starts at 1, EMAs and toxicity at 0, no samples, returns or fills; the invariant holds |
| Estimator.Indicators.WarmReady | pm4/trading.py:590-599 | warm-up is reachable only if min_return_samples fits the 5000-return buffer |
| Estimator.Indicators.WarmSnapshot | pm4/trading.py:601-632 | only the count for no returns; otherwise the count, a non-negative sigma_base and the two volatility EMAs |
| Estimator.Indicators.OnTimeSample | pm4/trading.py:481-568 | the first sample only records time and logit; a gated sample changes nothing; an accepted one appends its return to the bounded list and applies the sigma and EMA update; the invariant is kept and warm-up is never lost |
| Estimator.Indicators.AcceptReturn | pm4/trading.py:519-568 | the accepted return joins the list, becomes the last sample and moves the estimates; the invariant is kept |
| Estimator.Indicators.RecordFill | pm4/trading.py:395-405 | the fill joins the bounded pending list with no markout taken; no pending fill is finished |
| Estimator.Indicators.UpdateMarkouts | pm4/trading.py:407-479 | the pending list becomes the survivors of one ordered pass; each toxicity EMA is the fold of the due markouts; both stay non-negative |
| Ladder.BaseStep | pm4/trading.py:62 | the step is at least min_step_logit |
| Ladder.LevelCount | pm4/trading.py:72-76 | at most max_levels (or 0); 0 for a step at or below 1e-9; non-negative otherwise |
| Ladder.Power | pm4/trading.py:95 | decay ** i is non-negative for a non-negative decay |
| Ladder.LevelRisk | pm4/trading.py:79-95 | the level risk is non-negative for a non-negative budget and decay |
| Ladder.LevelRiskDecays | pm4/trading.py:95 | with decay in [0, 1] each level risks no more than the one before it |
| Ladder.BidLogit | pm4/trading.py:84 | every bid logit is at or below x_b0 |
| Ladder.AskLogit | pm4/trading.py:102 | every ask logit is at or above x_a0 |
| Ladder.BidTarget | pm4/trading.py:84-86 | the bid's target probability lies in (0, 1) |
| Ladder.AskTarget | pm4/trading.py:102-104 | the ask's target probability lies in (0, 1) |
| Ladder.BidSize | pm4/trading.py:95-96 | the bid size is non-negative for a non-negative budget and decay |
| Ladder.AskSize | pm4/trading.py:113-114 | the ask size is non-negative for a non-negative budget and decay |
| Ladder.BidsFrom | pm4/trading.py:82-97 | the bid loop yields at most n - i levels |
| Ladder.BidAt | pm4/trading.py:82-97 | entry k of the bids is bid level k, priced above 0.001 |
| Ladder.AsksFrom | pm4/trading.py:100-115 | the ask loop yields at most n - i levels |
| Ladder.AskAt | pm4/trading.py:100-115 | entry k of the asks is ask level k, priced below 0.999 |
| Ladder.BidPriceBounds | pm4/trading.py:86-88 | a bid rounds down: less than one tick below its target, on the tick grid |
| Ladder.AskPriceBounds | pm4/trading.py:104-106 | an ask rounds up: less than one tick above its target, on the tick grid |
| Ladder.BidPrice | pm4/trading.py:84-88 | the tick-floored price of bid level i; bounded by `Ladder.BidPriceBounds` |
| Ladder.AskPrice | pm4/trading.py:102-106 | the tick-ceiled price of ask level i; bounded by `Ladder.AskPriceBounds` |
| Ladder.BidsInRange | pm4/trading.py:82-97 | every generated bid lies in (0.001, 1), with level < n and a non-negative size |
| Ladder.AsksInRange | pm4/trading.py:100-115 | every generated ask lies in (0, 0.999), with level < n and a non-negative size |
| Ladder.FindPrice | pm4/trading.py:122 | the index of the entry at px, or -1 when no entry has that price |
| Ladder.SeenAddsNew | pm4/trading.py:122-123 | inserting a new price keeps the dict invariant (distinct, covering, drawn, closest) |
| Ladder.SeenReplaces | pm4/trading.py:126-127 | replacing by a smaller level keeps the dict invariant |
| Ladder.SeenKeeps | pm4/trading.py:124-127 | ignoring a level that is not smaller keeps the dict invariant |
| Ladder.InsertByPrice | pm4/trading.py:129 | insertion keeps strict price order and adds exactly x |
| Ladder.SortByPrice | pm4/trading.py:129 | `sorted` by price gives a strictly ordered permutation |
| Ladder.SortedSeenIsDedupe | pm4/trading.py:117-129 | sorting the dict's values gives the de-duplicated side |
| Ladder.IsDedupe | pm4/trading.py:117-129 | what `dedupe` returns: strictly sorted by price, one entry per input price, each drawn from the input with the smallest level at its price; `Ladder.Dedupe` establishes it |
| Ladder.Dedupe | pm4/trading.py:117-129 | one entry per distinct input price, taken from an input with the smallest level at that price, strictly sorted, no longer than the input |
| Ladder.BidsAccFrom | pm4/trading.py:82-97 | the bid loop appends exactly the bids from level i |
| Ladder.BuildBids | pm4/trading.py:82-97 | the bid loop returns the consecutive levels up to the first priced at or below 0.001 |
| Ladder.AsksAccFrom | pm4/trading.py:100-115 | the ask loop appends exactly the asks from level i |
| Ladder.BuildAsks | pm4/trading.py:100-115 | the ask loop returns the consecutive levels up to the first priced at or above 0.999 |
| Ladder.BuildV1Ladder | pm4/trading.py:20-134 | each side is the de-duplication of its loop over the computed level count |
| Ladder.LadderInRange | pm4/trading.py:82-134 | quoted bids lie in (0.001, 1) and asks in (0, 0.999), with level below max_levels and non-negative sizes |
| Ladder.LadderCount | pm4/trading.py:72-134 | each side has at most max_levels entries, and none for a degenerate step |
| Ladder.BidBelowAsk | pm4/trading.py:57-106 | with non-overlapping half-spreads, bid level i is priced at or below ask level j |
| Ladder.SidesNotCrossed | pm4/trading.py:82-115 | no generated bid is above a generated ask |
| Ladder.LadderNotCrossed | pm4/trading.py:20-134 | the returned ladder never crosses itself |
| Quoting.UProxy | pm4/trading.py:668-690 | U is non-negative, and sqrt(0) with no trades |
| Quoting.Shift | pm4/trading.py:744 | delta = q_hat gamma lambda sigma, the inventory adjustment in logit space; its sign is stated by `Quoting.InventorySkew` |
| Quoting.Reservation | pm4/trading.py:744-750 | r_x = logit(p) - delta; how it leans against the inventory is stated by `Quoting.InventorySkew` |
| Quoting.InventorySkew | pm4/trading.py:742-750 | long inventory moves the reservation price down, short moves it up, flat leaves it at the mid |
| Quoting.Kappa | pm4/trading.py:758-760 | kappa = kappa0 (1 + rate / max(rate_ref, 1e-9)); positive and growing with the rate by `Quoting.KappaMonotone` |
| Quoting.RiskSpread | pm4/trading.py:755 | Delta_risk = c_risk gamma lambda sigma; its effect on the half-spread is stated by `Quoting.HalfSpreadWidensWithSigma` |
| Quoting.LiquiditySpread | pm4/trading.py:763 | Delta_liq is positive for a positive gamma |
| Quoting.HalfSpread | pm4/trading.py:755-766 | the half-spread lies in [0, max_half_spread_logit] |
| Quoting.HalfSpreadWidensWithSigma | pm4/trading.py:755-766 | a larger sigma never narrows the half-spread |
| Quoting.HalfSpreadTightensWithRate | pm4/trading.py:758-766 | a higher trade rate never widens the half-spread |
| Quoting.KappaMonotone | pm4/trading.py:759-760 | kappa is positive and grows with the trade rate |
| Quoting.LiquiditySpreadAntitone | pm4/trading.py:763 | Delta_liq never grows with kappa |
| Quoting.Impact | pm4/trading.py:802 | the notional of one order: price x size for a buy, (1 - price) x size for a sell; the cap on its sum is stated by `Quoting.CleanWithinCap` and `Quoting.CleanStopsAtCap` |
| Quoting.Notional | pm4/trading.py:802-808 | the running `total_notional` of a list of orders, the sum of their impacts; bounded by `Quoting.CleanWithinCap` |
| Quoting.CleanFrom | pm4/trading.py:790-811 | clean_orders keeps no more orders than levels |
| Quoting.CleanKeepsPrefix | pm4/trading.py:795-809 | the kept orders are the leading levels in order, raised to the minimum size |
| Quoting.CleanWithinCap | pm4/trading.py:802-808 | the kept notional never exceeds the per-side cap |
| Quoting.CleanStopsAtCap | pm4/trading.py:805-806 | when levels are dropped, the first dropped one would have crossed the cap |
| Quoting.CleanAccFrom | pm4/trading.py:795-809 | the loop appends exactly what the specification keeps |
| Quoting.CleanOrders | pm4/trading.py:790-811 | the loop with `break` returns the specified prefix |
| Quoting.CleanedSideOk | pm4/trading.py:790-811 | a cleaned side has the right side and asset, at least the minimum size, the ladder's strict order and is within the cap |
| Quoting.QuoteSidesOk | pm4/trading.py:770-814 | both cleaned sides inherit the ladder's order, range and count, and no bid is above an ask |
| Quoting.QuoteLadderArgs | pm4/trading.py:774-784 | the ladder is built around r_x with the same half-spread on both sides, the given tick and budget, and the quote config's ladder settings |
| Quoting.QuotedFromOk | pm4/trading.py:770-814 | any pair of sides that are the cleaned, de-duplicated ladder around r_x with a non-negative half-spread is well formed and uncrossed |
| Quoting.QuoteOrders | pm4/trading.py:770-814 | each side is a `dedupe` (`Ladder.IsDedupe`) of its ladder loop around r_x with the given half-spread, tick and budget, cleaned to the minimum size and the notional cap; hence well formed and uncrossed |
| Quoting.SideBudget | pm4/trading.py:771 | B_side x time_factor is non-negative for a non-negative bankroll, and at most B_side from the start on when eta_time >= 0 |
| Quoting.Quoter.constructor | pm4/trading.py:652-666 | the quoter keeps its config, indicators and market data |
| Quoting.Quoter.EstimateUProxy | pm4/trading.py:668-690 | the backward loop with early exit gives sqrt of the trailing count in the six-hour window |
| Quoting.Quoter.Compute | pm4/trading.py:693-824 | the metrics are the clipped mid, q_hat, gamma, lambda, sigma, delta and r_x; the counts are the side lengths; the bids and asks are the cleaned `dedupe` (`Ladder.IsDedupe`) of the ladder loops built around r_x with the half-spread of gamma, lambda, sigma and the 60-second trade rate, the tick size and B_side x time_factor; the quote is well formed and uncrossed |
| Feed.FirstNonEmpty | pm4/market_data.py:170-171 | the primary list when it is non-empty, otherwise the alternate one, and [] when both keys are missing |
| Feed.LastParsed | pm4/market_data.py:234-255 | the value one side ends with after the batch; characterised by `Feed.LastParsedFound` and `Feed.LastParsedIsLastValid` |
| Feed.MidAfter | pm4/market_data.py:115-133 | a valid book gives a mid strictly between bid and ask; otherwise the mid is kept; the mid stays in (0, 1) |
| Feed.LastParsedFound | pm4/market_data.py:234-255 | a side is updated iff some change in the batch carries a parseable value for it |
| Feed.LastParsedIsLastValid | pm4/market_data.py:234-255 | the value taken is the last parseable one in the batch |
| Feed.RecentCount | pm4/market_data.py:373-386 | the count is the longest trailing run at or after the cutoff |
| Feed.RecentCountOfSorted | pm4/market_data.py:381-386 | for non-decreasing timestamps the early exit counts all trades in the window |
| Feed.Rate | pm4/market_data.py:389 | the rate is non-negative |
| Feed.RecentAccCount | pm4/market_data.py:382-386 | the backward loop adds exactly the trailing count |
| Feed.AppendKeepsOrder | pm4/market_data.py:329 | appending a timestamp no older than the last keeps the buffer sorted |
| Feed.BookState.constructor | pm4/market_data.py:58-64 | the dataclass defaults: bid 0, ask 1, mid 0.5, tick 0.01, no trade, zero timestamps |
| Feed.MarketData.constructor | pm4/market_data.py:93-113 | a default book and an empty trade history |
| Feed.MarketData.UpdateMid | pm4/market_data.py:115-133 | the mid becomes MidAfter of the current bid and ask |
| Feed.MarketData.OnBook | pm4/market_data.py:135-182 | `bids` or else `buys` (and `asks` or `sells`) set the best prices when non-empty; the timestamp and mid are updated; nothing else changes |
| Feed.MarketData.OnPriceChange | pm4/market_data.py:192-259 | the last parseable bid and ask of the batch are applied; the timestamp and mid are updated; nothing else changes |
| Feed.MarketData.OnTickSizeChange | pm4/market_data.py:269-290 | the tick size is replaced |
| Feed.MarketData.OnLastTradePrice | pm4/market_data.py:293-329 | the last trade is recorded and its timestamp appended to the bounded history; an in-order trade keeps the history sorted; the book is unchanged |
| Feed.MarketData.TradeRatePerS | pm4/market_data.py:337-389 | 0 with no trades; otherwise the trailing count over max(window, 1e-9); never negative |
| Analyzer.ExtractMarketSlug | pm4/market_analyzer.py:18-38 | a bare slug is returned as it is; a URL's slug is non-empty and holds no '/' or '?' |
| Analyzer.ExtractFailsOnlyOnUnmatchedUrl | pm4/market_analyzer.py:23-38 | the error is raised iff the input is a URL and no pattern matches it |
| Analyzer.ErrorAnalysis | pm4/market_analyzer.py:94-106 | a failed fetch gives the ERROR analysis of the slug, not recommended, with the single failure line and price 0.5 |
| Analyzer.CurrentPrice | pm4/market_analyzer.py:113-119 | the first outcome price when the first two both parse; otherwise 0.5 |
| Analyzer.HoursSinceTrade | pm4/market_analyzer.py:135-139 | 24 without a non-zero timestamp; otherwise the elapsed milliseconds in hours, non-negative for a past trade |
| Analyzer.DaysToResolution | pm4/market_analyzer.py:122-132 | days to resolution are non-negative, and 365 when unknown |
| Analyzer.PriceRange | pm4/market_analyzer.py:142 | the range is price ± 0.1 kept inside [0.01, 0.99] |
| Analyzer.CheckVolume | pm4/market_analyzer.py:148-156 | adds the volume tier's points and its line |
| Analyzer.CheckTraders | pm4/market_analyzer.py:158-166 | adds the trader tier's points and its line |
| Analyzer.CheckActivity | pm4/market_analyzer.py:168-176 | adds the activity tier's points and its line |
| Analyzer.CheckHorizon | pm4/market_analyzer.py:177-184 | adds the horizon tier's points and its line |
| Analyzer.CheckPrice | pm4/market_analyzer.py:186-191 | adds the price tier's points and its line |
| Analyzer.AnalyzeMarket | pm4/market_analyzer.py:90-211 | a failed fetch gives the ERROR analysis; otherwise the fields, the five report lines and the recommendation for the total score |
| Analyzer.Score | pm4/market_analyzer.py:145-191 | the sum of the five tiers' points; bounded by `Analyzer.ScoreBounds` and monotone by `Analyzer.ScoreMonotone` |
| Analyzer.ReasonsAddUp | pm4/market_analyzer.py:145-191 | the report has five lines, and their points sum to the score |
| Analyzer.ScoreBounds | pm4/market_analyzer.py:145-191 | the score lies in [0, 8] |
| Analyzer.ScoreMonotone | pm4/market_analyzer.py:148-184 | more volume, more traders, a more recent trade or a longer horizon never lower the score |
| Analyzer.Classify | pm4/market_analyzer.py:193-198 | the recommendation tier of a score; its thresholds are stated by `Analyzer.ClassifyThresholds` |
| Analyzer.MarketAnalysis.IsRecommended | pm4/market_analyzer.py:56-57 | true exactly for a RECOMMENDED analysis, that is a score of 5 or more (`Analyzer.ClassifyThresholds`) |
| Analyzer.ClassifyThresholds | pm4/market_analyzer.py:193-198 | RECOMMENDED iff the score is 5 or more (exactly when `is_recommended` holds); CONDITIONAL iff 3-4; NOT_RECOMMENDED iff at most 2 |
| Slugs.SlugEnd | pm4/market_analyzer.py:28 | `[^/?]+` takes the longest run of characters other than '/' and '?' |
| Slugs.HostEnd | pm4/market_analyzer.py:30 | `[^/]+` takes the longest run of characters other than '/' |
| Slugs.SlugGroup | pm4/market_analyzer.py:28 | a captured group is non-empty and holds no '/' or '?' |
| Slugs.SchemeEnd | pm4/market_analyzer.py:30 | `https?://` ends inside the string |
| Slugs.MatchAt | pm4/market_analyzer.py:27-31 | a pattern matched at a position yields a well-formed slug |
| Slugs.FirstMatch | pm4/market_analyzer.py:34 | `re.search` finds the leftmost position where the pattern matches, and none if no position does |
| Slugs.Search | pm4/market_analyzer.py:34-36 | `match.group(1)` is a well-formed slug |
| Slugs.FirstPattern | pm4/market_analyzer.py:33-36 | the first pattern in list order that matches, and none earlier does |
| Slugs.SearchPatterns | pm4/market_analyzer.py:33-36 | the loop over the patterns returns a well-formed slug |
| Slugs.FirstPatternWins | pm4/market_analyzer.py:33-36 | when the first pattern matches, its group is returned |
| Slugs.GammaPatternShadowed | pm4/market_analyzer.py:28-29 | every string the `gamma.` pattern matches is matched by the first pattern |
| Slugs.MarketPathFound | pm4/market_analyzer.py:28 | a string containing `polymarket.com/market/` followed by a slug character yields the slug after its leftmost occurrence |
| Slugs.NoSlashNoSlug | pm4/market_analyzer.py:27-31 | a string without '/' matches no pattern |
| ConfigHelper.ExtractMarketSlug | pm4/market_config_helper.py:18-32 | the slug of the first matching pattern is well formed; no match is an error |
| ConfigHelper.BareSlugRefused | pm4/market_config_helper.py:21-32 | a bare slug (no '/') is an error here, unlike in the analyzer |
| ConfigHelper.MarketUrlAccepted | pm4/market_config_helper.py:22-30 | any `polymarket.com/market/<slug>` string is accepted with its slug |
| ConfigHelper.AgreesWithAnalyzer | pm4/market_config_helper.py:18-32 | on a URL both extractors succeed together and return the same slug |
| Reconcile.Lookup | pm4/trading.py:1009 | an existing order is found iff its price is a key of the side's dict |
| Reconcile.Put | pm4/trading.py:995-997 | a dict write maps p to o, leaves other keys alone and keeps keys distinct |
| Reconcile.Book | pm4/trading.py:986-997 | each side's dict has distinct price keys |
| Reconcile.BookIsLastWrite | pm4/trading.py:989-997 | the dict holds, for each price, the last listed order of the asset and side at that price |
| Reconcile.LastAtListed | pm4/trading.py:989-997 | a price has an entry iff some listed order of the asset and side is at it |
| Reconcile.BookKeys | pm4/trading.py:989-997 | the dict's keys are exactly the prices of the listed orders of the asset and side |
| Reconcile.OfAsset | pm4/trading.py:990-991 | filtering keeps only orders of the asset |
| Reconcile.BookIgnoresOtherAssets | pm4/trading.py:990-991 | orders of other assets do not affect the dicts |
| Reconcile.FirstClose | pm4/trading.py:1004-1007 | the first existing price within 1e-9 of the wanted one, in dict order |
| Reconcile.FindClose | pm4/trading.py:1003-1007 | the search loop with `break` finds that price |
| Reconcile.LookupFirst | pm4/trading.py:1009 | the entry found by the search is the dict's value at that price |
| Reconcile.CurrentSize | pm4/trading.py:1010 | `size_remaining`, else `size`, else 0 |
| Reconcile.SizeDiff | pm4/trading.py:1011 | the relative size difference is non-negative, and 0 exactly when the sizes are equal |
| Reconcile.WantPlan | pm4/trading.py:1000-1034 | the calls for one wanted order; characterised by `Reconcile.PlacedIffNeeded` and `Reconcile.WantCancelsExisting` |
| Reconcile.Prune | pm4/trading.py:1035-1039 | the cancels of unclaimed existing orders; characterised by `Reconcile.PruneExactlyUnclaimed` and `Reconcile.NoPrune` |
| Reconcile.SideActions | pm4/trading.py:998-1045 | one side's calls: the want plans, then the prune; `Reconcile.ReconcileSide` computes it and `Reconcile.SideActionsGrounded` bounds it |
| Reconcile.ReconcileSide | pm4/trading.py:998-1045 | the side's calls are the place/resize plan of every wanted order, then cancels of the unclaimed existing orders |
| Reconcile.PlacedIffNeeded | pm4/trading.py:1000-1034 | an order is placed iff it is wanted and either has no close price or its size is more than 25% off |
| Reconcile.WantCancelsExisting | pm4/trading.py:1012-1014 | a resize cancels an existing order |
| Reconcile.PruneExactlyUnclaimed | pm4/trading.py:1035-1039 | the prune pass cancels exactly the existing orders at unclaimed prices |
| Reconcile.ClaimedAreExisting | pm4/trading.py:1024 | every claimed price is an existing price close to a wanted one |
| Reconcile.SideActionsGrounded | pm4/trading.py:998-1045 | every placement is a wanted order and every cancel names an existing order |
| Reconcile.SteadyState | pm4/trading.py:998-1045 | when every wanted order is matched at the right size and every existing price is claimed, no call is made |
| Reconcile.NoWantActions | pm4/trading.py:1000-1034 | no wanted order in need of placement means no place or resize calls |
| Reconcile.NoPrune | pm4/trading.py:1035-1039 | when every price is claimed nothing is pruned |
| Reconcile.BuildBooks | pm4/trading.py:986-997 | the indexing loop builds both sides' dicts |
| Reconcile.Reconcile | pm4/trading.py:977-1047 | a failed listing makes no calls; otherwise the bid side's calls, then the ask side's |
| Reconcile.Plan | pm4/trading.py:977-1047 | the whole plan: nothing for a failed listing, else the bid side's calls then the ask side's; `Reconcile.Reconcile` computes it |
| Reconcile.OtherAssetsIgnored | pm4/trading.py:989-991 | open orders of other assets change nothing in the plan |

## Left out

- **Floating point.** Floats are reals: no rounding, overflow, NaN or infinity. Tick rounding is exact, so a price that is a whole number of ticks in real arithmetic may differ from the float result.
- **Transcendental functions.** exp, ln, pow and sqrt are uninterpreted, constrained only by `Laws`. A real `pow` of a negative base (which Python rejects or makes complex) is not modelled.
- Risk.TimeFactor: at resolution (tau = 0) with a negative `eta_time`, Python's `0.0 ** eta_time` raises `ZeroDivisionError`. The model instead yields the unconstrained value `pow(0, eta_time)`, which `Laws` only makes non-negative. The exception path is not modelled.
- Feed.MarketData.OnBook: it takes the book's levels already decoded into prices. In the source, `float(bids[0]["price"])` raises on a level without a parseable price. If the asks side raises, `best_bid` has already been written, but the timestamp and mid are not refreshed. That partial update is not modelled. Neither is the exception an unparseable `timestamp` field raises in `int()`.
- **Clock.** `now_ms()` is a parameter of every operation that reads the clock.
- **I/O.** Logging, `print`, the `_last_print` throttle and the report formatting are not modelled. Neither are the network and the HTTP fetch of `get_market_data`.
- **Exchange and WebSocket.** `adapters.py` and the WebSocket plumbing are not part of this model.
- **Reconcile.Reconcile: exchange failures.** It returns the planned calls in order. Exchange failures are not modelled: in the source a failed resize cancel skips the following place, and a failed call is logged and skipped.
- **Reconcile.Reconcile: listing.** `list_open_orders` is an input; `None` stands for the exception path.
- **Reconcile.Reconcile: message fields.** Orders whose `price` does not parse as a float are not modelled. Neither is a `size_remaining` key that is present but null, or a null `size` when `size_remaining` is absent: `float(None)` raises `TypeError` at `pm4/trading.py:1010`, outside any `try` block, while the model's `Option` treats a null field as an absent one (`Reconcile.CurrentSize`).
- **Analyzer.AnalyzeMarket: parsed input.** It takes the fetched record already parsed:
  - a missing or empty record (Python's falsy dict) is `None`;
  - `outcomePrices` entries are parsed numbers, or none for one that does not parse;
  - the end date is a whole number of days (`daysToEnd`), none when missing or unparseable;
  - datetime parsing and time-zone handling are not modelled.
- **Analyzer.AnalyzeMarket: report text.** The report lines are a datatype: the text and number formatting of the reasons is not modelled.
- **Extract errors.** The `ValueError` of both `extract_market_slug` functions is an `Err` result carrying the message.
- **Regular expressions.** Only the three fixed patterns are modelled, as a small matcher with `re.search` semantics, not a general regex engine.
- **Quoting.Quoter.Compute: zero tick.** It requires a non-zero tick size, because the source divides by it (`math.floor(p / tick)`). The exception a zero tick raises is not modelled.
- **Ladder.BuildV1Ladder: zero tick.** It requires a non-zero tick for the same reason.
- Utils.FloorToTick: it requires a non-zero tick, because `p / tick` raises `ZeroDivisionError` for a zero tick (`pm4/utils.py:37`). That exception is not modelled.
- Utils.CeilToTick: it requires a non-zero tick for the same reason (`pm4/utils.py:42`); the `ZeroDivisionError` is not modelled.
- **Quoting.Quoter.Compute: return record.** It returns a record instead of nested dicts.
- **Estimator.Indicators.RecordFill: fill dict.** A fill is a record of timestamp, price and side. A fill dict that already carries `x_fill`, `h1_done` or `h2_done` keys when it is recorded is not modelled.
- **Estimator.Indicators.RecordFill: in-place update.** The in-place update of the fill dicts by `update_markouts` is modelled as replacing the pending list by new records, since nothing else holds those dicts.
- **Config loading.** JSON parsing of the configuration files (`config.py`, `MetaWarmupParams`) and the `LoggingConfig` record are not part of this model.
- **`Indicators.sigma()`.** It is the field `est.sigma`.
- **Callers.** The rest of `MarketMakerBot` (the quote loop, fill polling, warm-up orchestration, `format_config_for_market` and the CLI) is not part of this model.
