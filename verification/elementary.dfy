/**
 * The transcendental functions the simulator takes from numpy (np.log, np.sqrt,
 * np.cos, np.sin and the real power `**`), as uninterpreted values.
 *
 * Nothing is known about them except the law each property needs, and each
 * law is a separate predicate so that every member requires only what it uses.
 */
module Elementary {

  datatype Funcs = Funcs(
    ln: real -> real,
    sqrt: real -> real,
    cos: real -> real,
    sin: real -> real,
    pow: (real, real) -> real)

  /** ln(1 + x) >= 0 for x >= 0, written as ln(y) >= 0 for y >= 1. */
  ghost predicate LnLaw(f: Funcs) {
    forall y :: 1.0 <= y ==> 0.0 <= f.ln(y)
  }

  /** sqrt(x) is the non-negative square root of a non-negative x. */
  ghost predicate SqrtLaw(f: Funcs) {
    forall x :: 0.0 <= x ==> 0.0 <= f.sqrt(x) && f.sqrt(x) * f.sqrt(x) == x
  }

  /** cos(t)^2 + sin(t)^2 = 1. */
  ghost predicate TrigLaw(f: Funcs) {
    forall t :: f.cos(t) * f.cos(t) + f.sin(t) * f.sin(t) == 1.0
  }

  /** d^a > 0 for d > 0. */
  ghost predicate PowLaw(f: Funcs) {
    forall d, a :: 0.0 < d ==> 0.0 < f.pow(d, a)
  }

  lemma SqrtPositive(f: Funcs, x: real)
    requires SqrtLaw(f) && 0.0 < x
    ensures 0.0 < f.sqrt(x)
  {
    assert f.sqrt(x) * f.sqrt(x) == x;
  }

  lemma MulPositive(a: real, b: real)
    requires 0.0 < a && 0.0 < b
    ensures 0.0 < a * b
  {
  }

  lemma DifferenceOfSquares(a: real, b: real)
    ensures (a - b) * (a + b) == a * a - b * b
  {
  }

  /** A non-negative square root of a value below one is below one. */
  lemma SqrtBelowOne(f: Funcs, u: real)
    requires SqrtLaw(f) && 0.0 <= u <= 1.0
    ensures 0.0 <= f.sqrt(u) <= 1.0
  {
    var r := f.sqrt(u);
    assert r * r == u;
    if r > 1.0 {
      MulPositive(r - 1.0, r);
    }
  }

  /** A non-negative number whose square dominates another's square dominates it. */
  lemma RootDominates(r: real, a: real)
    requires 0.0 <= r && 0.0 <= a && a * a <= r * r
    ensures a <= r
  {
    if r < a {
      MulPositive(a - r, a + r);
      DifferenceOfSquares(a, r);
    }
  }

  /** sqrt(x) >= |z| whenever x >= z^2. */
  lemma SqrtAtLeast(f: Funcs, x: real, z: real)
    requires SqrtLaw(f) && z * z <= x
    ensures f.sqrt(x) * f.sqrt(x) == x
    ensures z <= f.sqrt(x) && -z <= f.sqrt(x)
  {
    var r := f.sqrt(x);
    assert 0.0 <= z * z;
    assert 0.0 <= r && r * r == x;
    if 0.0 <= z {
      RootDominates(r, z);
    } else {
      assert (-z) * (-z) == z * z;
      RootDominates(r, -z);
    }
  }

  lemma MulNonNegative(a: real, b: real)
    requires 0.0 <= a && 0.0 <= b
    ensures 0.0 <= a * b
  {
  }

  /** Comparing two quotients with positive denominators by cross-multiplying. */
  lemma CrossMultiply(p: real, q: real, d1: real, d2: real)
    requires 0.0 < d1 && 0.0 < d2
    requires p * d2 <= q * d1
    ensures p / d1 <= q / d2
  {
    var u := p / d1;
    var v := q / d2;
    assert p == u * d1;
    assert q == v * d2;
    if u > v {
      MulPositive(u - v, d1 * d2);
      MulPositive(d1, d2);
    }
  }

  /**
   * The shape a*x / (b*x + 1) shared by every SINR expression of the
   * simulator, with x the linear SNR: it lies between 0 and a*x.
   */
  lemma SaturatingBounds(a: real, b: real, x: real)
    requires 0.0 <= a && 0.0 <= b && 0.0 <= x
    ensures 1.0 <= b * x + 1.0
    ensures 0.0 <= a * x / (b * x + 1.0) <= a * x
  {
    MulNonNegative(b, x);
    MulNonNegative(a, x);
    MulNonNegative(a * x, b * x);
    assert (a * x) * 1.0 - (a * x) * (b * x + 1.0) == - (a * x) * (b * x);
    CrossMultiply(a * x, a * x, b * x + 1.0, 1.0);
  }

  /** a*x / (b*x + 1) is non-decreasing in x. */
  lemma SaturatingMonotone(a: real, b: real, x1: real, x2: real)
    requires 0.0 <= a && 0.0 <= b && 0.0 <= x1 <= x2
    ensures a * x1 / (b * x1 + 1.0) <= a * x2 / (b * x2 + 1.0)
  {
    MulNonNegative(b, x1);
    MulNonNegative(b, x2);
    MulNonNegative(a, x2 - x1);
    assert (a * x1) * (b * x2 + 1.0) - (a * x2) * (b * x1 + 1.0) == - a * (x2 - x1);
    CrossMultiply(a * x1, a * x2, b * x1 + 1.0, b * x2 + 1.0);
  }

  /** With interference (b > 0), a*x / (b*x + 1) never reaches a / b, however large x is. */
  lemma SaturatingCeiling(a: real, b: real, x: real)
    requires 0.0 <= a && 0.0 < b && 0.0 <= x
    ensures a * x / (b * x + 1.0) <= a / b
  {
    MulNonNegative(b, x);
    assert (a * x) * b - a * (b * x + 1.0) == - a;
    CrossMultiply(a * x, a, b * x + 1.0, b);
  }
}
