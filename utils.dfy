/** Clipping, the clipped logit, the sign-split sigmoid and tick rounding
    (pm4/utils.py), together with the two Python built-ins the rest of the
    model leans on: `max`/`min` on floats and the truncating `int()`. */
module Utils {
  import opened RealMath

  /** Python's `max(a, b)` and `min(a, b)` on floats. */
  function Max(a: real, b: real): real { if a >= b then a else b }
  function Min(a: real, b: real): real { if a <= b then a else b }

  /** Python's `int(x)` on a float: truncation toward zero. */
  function Trunc(x: real): (n: int)
    ensures x >= 0.0 ==> 0 <= n && n as real <= x < n as real + 1.0
    ensures x < 0.0 ==> n <= 0 && n as real - 1.0 < x <= n as real
  {
    if x >= 0.0 then x.Floor else -((-x).Floor)
  }

  /** `math.ceil` on a float. */
  function Ceil(y: real): (n: int)
    ensures n as real - 1.0 < y <= n as real
  {
    -((-y).Floor)
  }

  /** `clip(x, lo, hi) = max(lo, min(hi, x))`. */
  function Clip(x: real, lo: real, hi: real): (r: real)
    ensures lo <= hi ==> lo <= r <= hi
    ensures lo <= x <= hi ==> r == x
    ensures x <= lo ==> r == lo
    ensures lo <= hi <= x ==> r == hi
    ensures hi < lo ==> r == lo
  {
    Max(lo, Min(hi, x))
  }

  /** The default clipping bound of `logit`; every caller in the core uses it. */
  const LogitEps: real := 0.000001

  /** The probability that `logit` actually transforms. */
  function LogitArg(p: real): (q: real)
    ensures LogitEps <= q <= 1.0 - LogitEps
    ensures q / (1.0 - q) > 0.0
  {
    Clip(p, LogitEps, 1.0 - LogitEps)
  }

  /** `logit(p)`: p is clipped to [eps, 1 - eps] first, so the argument of
      the logarithm is always positive and the function is total. */
  function Logit(f: Fns, p: real): real {
    var q := LogitArg(p);
    f.ln(q / (1.0 - q))
  }

  /** `sigmoid(x)`, with the branch on the sign of x that keeps `exp` from
      overflowing. */
  function Sigmoid(f: Fns, x: real): (r: real)
    requires Laws(f)
    ensures 0.0 < r < 1.0
  {
    if x >= 0.0 then
      var z := f.exp(-x);
      1.0 / (1.0 + z)
    else
      var z := f.exp(x);
      z / (1.0 + z)
  }

  /** `floor_to_tick(p, tick)`. A zero tick is a division error in the source. */
  function FloorToTick(p: real, tick: real): (r: real)
    requires tick != 0.0
    ensures tick > 0.0 ==> r <= p < r + tick
    ensures (r / tick).Floor as real == r / tick
  {
    var k := (p / tick).Floor;
    assert (k as real * tick) / tick == k as real;
    ScaleBracket(p, tick, k as real, k as real + 1.0);
    k as real * tick
  }

  /** `ceil_to_tick(p, tick)`. */
  function CeilToTick(p: real, tick: real): (r: real)
    requires tick != 0.0
    ensures tick > 0.0 ==> r - tick < p <= r
    ensures (r / tick).Floor as real == r / tick
  {
    var k := Ceil(p / tick);
    assert (k as real * tick) / tick == k as real;
    ScaleBracket(p, tick, k as real - 1.0, k as real);
    k as real * tick
  }

  /** Scaling lo <= p/t < hi (or lo < p/t <= hi) by a positive t. */
  lemma ScaleBracket(p: real, t: real, lo: real, hi: real)
    requires t != 0.0
    ensures t > 0.0 && lo <= p / t < hi ==> lo * t <= p < hi * t
    ensures t > 0.0 && lo < p / t <= hi ==> lo * t < p <= hi * t
  {
    if t > 0.0 {
      var y := p / t;
      assert y * t == p;
      if lo <= y { assert lo * t <= y * t; }
      if lo < y { assert lo * t < y * t; }
      if y < hi { assert y * t < hi * t; }
      if y <= hi { assert y * t <= hi * t; }
    }
  }

  // ---------------------------------------------------------------------
  // Properties of the transforms

  /** Both branches of `sigmoid` compute the same function. */
  lemma SigmoidBranchesAgree(f: Fns, x: real)
    requires Laws(f)
    ensures Sigmoid(f, x) == 1.0 / (1.0 + f.exp(-x))
    ensures Sigmoid(f, x) == f.exp(x) / (1.0 + f.exp(x))
  {
    var e, n := f.exp(x), f.exp(-x);
    ExpNeg(f, x);
    assert n == 1.0 / e;
    assert e > 0.0;
    calc {
      1.0 / (1.0 + n);
      1.0 / (1.0 + 1.0 / e);
      { assert 1.0 + 1.0 / e == (e + 1.0) / e; }
      e / (1.0 + e);
    }
  }

  lemma SigmoidAtZero(f: Fns)
    requires Laws(f)
    ensures Sigmoid(f, 0.0) == 0.5
  {
    ExpZero(f);
    assert f.exp(-0.0) == f.exp(0.0);
  }

  lemma LogitAtHalf(f: Fns)
    requires Laws(f)
    ensures Logit(f, 0.5) == 0.0
  {
    assert LogitArg(0.5) == 0.5;
    assert 0.5 / (1.0 - 0.5) == 1.0;
    LnOne(f);
  }

  /** logit(1 - p) = -logit(p) for every p, the clipping included. */
  lemma LogitAntisymmetric(f: Fns, p: real)
    requires Laws(f)
    ensures Logit(f, 1.0 - p) == -Logit(f, p)
  {
    var q := LogitArg(p);
    assert LogitArg(1.0 - p) == 1.0 - q;
    var y := q / (1.0 - q);
    assert (1.0 - q) / (1.0 - (1.0 - q)) == 1.0 / y;
    LnRecip(f, y);
  }

  /** Round trip: sigmoid(logit(p)) = p on the clipping range. */
  lemma {:induction false} SigmoidLogitRoundTrip(f: Fns, p: real)
    requires Laws(f)
    requires LogitEps <= p <= 1.0 - LogitEps
    ensures Sigmoid(f, Logit(f, p)) == p
  {
    assert LogitArg(p) == p;
    var y := p / (1.0 - p);
    var x := Logit(f, p);
    assert x == f.ln(y);
    assert f.exp(x) == y;
    SigmoidBranchesAgree(f, x);
    assert Sigmoid(f, x) == y / (1.0 + y);
    assert 1.0 + y == 1.0 / (1.0 - p);
    assert y / (1.0 + y) == p;
  }

  /** sigmoid is non-decreasing. */
  lemma SigmoidMonotone(f: Fns, x: real, y: real)
    requires Laws(f)
    requires x <= y
    ensures Sigmoid(f, x) <= Sigmoid(f, y)
  {
    SigmoidBranchesAgree(f, x);
    SigmoidBranchesAgree(f, y);
    var ex, ey := f.exp(-x), f.exp(-y);
    if x < y {
      assert ExpIncreasing(f, -y, -x);
    }
    assert 0.0 < ey <= ex;
    RecipAntitone(1.0 + ey, 1.0 + ex);
  }

  /** For a positive tick the two roundings are equal or one tick apart. */
  lemma TickRoundingBracket(p: real, tick: real)
    requires tick > 0.0
    ensures FloorToTick(p, tick) <= p <= CeilToTick(p, tick)
    ensures CeilToTick(p, tick) - FloorToTick(p, tick) == 0.0
         || CeilToTick(p, tick) - FloorToTick(p, tick) == tick
  {
    var y := p / tick;
    var lo, hi := y.Floor, Ceil(y);
    assert hi == lo || hi == lo + 1;
    assert CeilToTick(p, tick) - FloorToTick(p, tick) == (hi - lo) as real * tick;
  }
}
