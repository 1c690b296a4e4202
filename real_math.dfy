/** The transcendental functions of Python's `math` module (exp, log, pow, sqrt)
    as opaque function values. Nothing about them is assumed except the laws
    collected in `Laws`, which every member that depends on them requires. */
module RealMath {

  /** The functions `math.exp`, `math.log`, the `**` operator on floats and
      `math.sqrt`, taken as parameters of the model. */
  datatype Fns = Fns(exp: real -> real, ln: real -> real, pow: (real, real) -> real, sqrt: real -> real)

  /** exp(x) exp(-x) = 1. */
  ghost predicate ExpInverse(f: Fns, x: real) {
    f.exp(x) * f.exp(-x) == 1.0
  }

  /** exp is strictly increasing. */
  ghost predicate ExpIncreasing(f: Fns, x: real, y: real) {
    x < y ==> f.exp(x) < f.exp(y)
  }

  /** b ** e is strictly increasing in b >= 0 for e > 0. */
  ghost predicate PowIncreasing(f: Fns, b: real, c: real, e: real) {
    0.0 <= b < c && e > 0.0 ==> f.pow(b, e) < f.pow(c, e)
  }

  /** The algebraic facts the proofs rely on. The laws relating two values of
      a function are stated through the predicates above, so they are only
      brought into a proof where a lemma names the pair of points. */
  ghost predicate Laws(f: Fns) {
    && (forall x :: f.exp(x) > 0.0)
    && (forall x :: ExpInverse(f, x))
    && (forall x, y :: ExpIncreasing(f, x, y))
    && (forall y :: y > 0.0 ==> f.exp(f.ln(y)) == y)
    && (forall b, e :: b > 0.0 ==> f.pow(b, e) > 0.0)
    && (forall b, e :: b >= 0.0 ==> f.pow(b, e) >= 0.0)
    && (forall e :: f.pow(1.0, e) == 1.0)
    && (forall b :: f.pow(b, 0.0) == 1.0)
    && (forall b, c, e :: PowIncreasing(f, b, c, e))
    && (forall n :: n >= 0.0 ==> f.sqrt(n) >= 0.0)
  }

  lemma ExpZero(f: Fns)
    requires Laws(f)
    ensures f.exp(0.0) == 1.0
  {
    var z := f.exp(0.0);
    assert ExpInverse(f, 0.0);
    assert z * z == 1.0 && z > 0.0;
    PositiveSquareRootOfOne(z);
  }

  lemma PositiveSquareRootOfOne(z: real)
    requires z > 0.0 && z * z == 1.0
    ensures z == 1.0
  {
  }

  lemma ExpNeg(f: Fns, x: real)
    requires Laws(f)
    ensures f.exp(-x) == 1.0 / f.exp(x)
  {
    assert ExpInverse(f, x);
    InverseOf(f.exp(x), f.exp(-x));
  }

  lemma InverseOf(a: real, b: real)
    requires a * b == 1.0
    ensures b == 1.0 / a
  {
  }

  /** exp(-y) lies in (0,1] for y >= 0, and in (0,1) for y > 0. */
  lemma ExpNonPosBound(f: Fns, y: real)
    requires Laws(f)
    requires y >= 0.0
    ensures 0.0 < f.exp(-y) <= 1.0
    ensures y > 0.0 ==> f.exp(-y) < 1.0
  {
    ExpZero(f);
    assert ExpIncreasing(f, -y, 0.0);
  }

  lemma ExpInjective(f: Fns, x: real, y: real)
    requires Laws(f)
    requires f.exp(x) == f.exp(y)
    ensures x == y
  {
    assert ExpIncreasing(f, x, y) && ExpIncreasing(f, y, x);
  }

  /** ln(1/y) = -ln(y): derived from exp(ln y) = y and exp(-x) = 1/exp(x). */
  lemma {:induction false} LnRecip(f: Fns, y: real)
    requires Laws(f)
    requires y > 0.0
    ensures f.ln(1.0 / y) == -f.ln(y)
  {
    var l := f.ln(y);
    assert f.exp(l) == y;
    ExpNeg(f, l);
    assert f.exp(-l) == 1.0 / y;
    assert f.exp(f.ln(1.0 / y)) == 1.0 / y;
    ExpInjective(f, f.ln(1.0 / y), -l);
  }

  lemma LnOne(f: Fns)
    requires Laws(f)
    ensures f.ln(1.0) == 0.0
  {
    LnRecip(f, 1.0);
  }

  /** ln is non-decreasing on the positive reals, strictly increasing there. */
  lemma LnMonotone(f: Fns, a: real, b: real)
    requires Laws(f)
    requires 0.0 < a <= b
    ensures f.ln(a) <= f.ln(b)
    ensures a < b ==> f.ln(a) < f.ln(b)
  {
    assert f.exp(f.ln(a)) == a && f.exp(f.ln(b)) == b;
    assert ExpIncreasing(f, f.ln(b), f.ln(a));
    if a < b {
      assert f.ln(a) != f.ln(b);
    }
  }

  /** ln(y) > 0 for y > 1. */
  lemma LnPositive(f: Fns, y: real)
    requires Laws(f)
    requires y > 1.0
    ensures f.ln(y) > 0.0
  {
    LnOne(f);
    LnMonotone(f, 1.0, y);
  }

  /** pow(b, e) <= 1 for 0 <= b <= 1 and e >= 0. */
  lemma PowAtMostOne(f: Fns, b: real, e: real)
    requires Laws(f)
    ensures 0.0 <= b <= 1.0 && e >= 0.0 ==> f.pow(b, e) <= 1.0
  {
    if 0.0 <= b <= 1.0 && e >= 0.0 {
      assert f.pow(1.0, e) == 1.0 && f.pow(b, 0.0) == 1.0;
      assert PowIncreasing(f, b, 1.0, e);
    }
  }

  /** pow is non-decreasing in its base for e >= 0. */
  lemma PowMonotone(f: Fns, b: real, c: real, e: real)
    requires Laws(f)
    requires 0.0 <= b <= c && e >= 0.0
    ensures f.pow(b, e) <= f.pow(c, e)
  {
    assert f.pow(b, 0.0) == 1.0 && f.pow(c, 0.0) == 1.0;
    assert PowIncreasing(f, b, c, e);
  }

  // ---------------------------------------------------------------------
  // Ordered-field facts the solver does not find unaided

  lemma MulNonNeg(a: real, b: real)
    requires a >= 0.0 && b >= 0.0
    ensures a * b >= 0.0
  {
  }

  lemma MulMonotone(c: real, x: real, y: real)
    requires 0.0 <= c && x <= y
    ensures c * x <= c * y
  {
    MulNonNeg(c, y - x);
  }

  lemma DivideMonotone(a: real, b: real, d: real)
    requires a <= b && d > 0.0
    ensures a / d <= b / d
  {
    assert b / d - a / d == (b - a) / d;
  }

  lemma NegDiv(a: real, d: real)
    requires d != 0.0
    ensures (-a) / d == -(a / d)
  {
  }

  lemma RecipAntitone(a: real, b: real)
    requires 0.0 < a <= b
    ensures 1.0 / b <= 1.0 / a
  {
    assert 1.0 / a - 1.0 / b == (b - a) / (a * b);
  }

  lemma RecipStrict(a: real, b: real, k: real)
    requires 0.0 < a < b && k > 0.0
    ensures k / b < k / a
  {
    assert k / a - k / b == k * (b - a) / (a * b);
    assert k * (b - a) > 0.0;
  }
}
