/**
 The floating-point operations the rating engine uses. `f64` values are
 modelled as reals; `powi(2)` and `powi(3)` are exact powers; `exp` and `sqrt`
 are not definable in Dafny, so the engine is parameterised by a pair of
 functions that have the properties the proofs rely on, and every theorem
 holds for every such pair.
 */
module Numerics {

  /** `x.powi(2)`. */
  function Sq(x: real): real
  {
    x * x
  }

  /** `x.powi(3)`. */
  function Cube(x: real): real
  {
    Sq(x) * x
  }

  /** Stand-ins for `f64::exp` and `f64::sqrt`. */
  datatype Libm = Libm(exp: real -> real, sqrt: real -> real)
  {
    /** What is assumed of the two functions: exp is positive and strictly increasing;
        sqrt of a non-negative number is its non-negative square root. Monotonicity is
            instantiated only where a proof names a pair of arguments with `Below`, and the law of
        sqrt only where one names its argument with `Radicand`. */
    ghost predicate Lawful()
    {
      && (forall x :: exp(x) > 0.0)
      && (forall x, y {:trigger Below(x, y)} :: Below(x, y) ==> exp(x) < exp(y))
      && (forall x {:trigger Radicand(x)} :: Radicand(x) ==> sqrt(x) >= 0.0 && Sq(sqrt(x)) == x)
    }
  }

  /** x >= 0, as a named fact that lets a proof use the law of sqrt on x (lemma SqrtLaw). */
  ghost predicate Radicand(x: real)
  {
    x >= 0.0
  }

  /** The square root of a non-negative number is non-negative and squares back to it. */
  lemma SqrtLaw(m: Libm, x: real)
    requires m.Lawful() && x >= 0.0
    ensures m.sqrt(x) >= 0.0 && Sq(m.sqrt(x)) == x
  {
    assert Radicand(x);
  }

  /** x < y, as a named fact that lets a proof use the monotonicity of exp on x and y. */
  ghost predicate Below(x: real, y: real)
  {
    x < y
  }

  /** `f64::max` on non-NaN operands. */
  function Max(a: real, b: real): (r: real)
    ensures r >= a && r >= b && (r == a || r == b)
  {
    if a >= b then a else b
  }

  /** A square is never negative, and positive for a non-zero base. */
  lemma SqSign(x: real)
    ensures Sq(x) >= 0.0
    ensures x != 0.0 ==> Sq(x) > 0.0
  {
    if x > 0.0 {
      ProductPositive(x, x, Sq(x));
    } else if x < 0.0 {
      ProductPositive(-x, -x, Sq(x));
    }
  }

  /** Squaring is strictly increasing on the non-negative reals. */
  lemma SqStrictlyMonotone(a: real, b: real)
    requires 0.0 <= a < b
    ensures Sq(a) < Sq(b)
  {
    ProductPositive(b - a, b + a, Sq(b) - Sq(a));
  }

  lemma SqrtPositive(m: Libm, x: real)
    requires m.Lawful() && x > 0.0
    ensures m.sqrt(x) > 0.0
  {
    SqrtLaw(m, x);
    assert Sq(0.0) == 0.0;
  }

  /** The square root of a square is the base, for a non-negative base. */
  lemma SqrtOfSq(m: Libm, s: real)
    requires m.Lawful() && s >= 0.0
    ensures m.sqrt(Sq(s)) == s
  {
    SqSign(s);
    SqrtLaw(m, Sq(s));
    var t := m.sqrt(Sq(s));
    if t < s {
      SqStrictlyMonotone(t, s);
    } else if t > s {
      SqStrictlyMonotone(s, t);
    }
  }

  /** The square root of a number no larger than s^2 is at most s. */
  lemma SqrtAtMost(m: Libm, x: real, s: real)
    requires m.Lawful() && 0.0 <= x <= Sq(s) && s >= 0.0
    ensures m.sqrt(x) <= s
  {
    SqrtLaw(m, x);
    var t := m.sqrt(x);
    if t > s {
      SqStrictlyMonotone(s, t);
    }
  }

  /** A non-negative number whose square is at most s^2 is at most s, for s >= 0. */
  lemma SqAtMost(x: real, s: real)
    ensures x >= 0.0 && s >= 0.0 && Sq(x) <= Sq(s) ==> x <= s
  {
    if x >= 0.0 && s >= 0.0 && x > s {
      SqStrictlyMonotone(s, x);
    }
  }

  /** exp preserves the order of its arguments, in both directions. */
  lemma ExpOrder(m: Libm, a: real, b: real)
    requires m.Lawful()
    ensures a < b <==> m.exp(a) < m.exp(b)
    ensures a == b <==> m.exp(a) == m.exp(b)
  {
    if a < b {
      assert Below(a, b);
    } else if b < a {
      assert Below(b, a);
    }
  }

  /** The share x/(x+y) of two positive quantities: a probability, complementary to
      y/(x+y), one half exactly when they are equal and above one half exactly when x is
      the larger. */
  lemma Fraction(x: real, y: real)
    requires x > 0.0 && y > 0.0
    ensures 0.0 < x / (x + y) < 1.0
    ensures x / (x + y) + y / (x + y) == 1.0
    ensures x == y <==> x / (x + y) == 0.5
    ensures x > y <==> x / (x + y) > 0.5
    ensures x < y <==> x / (x + y) < 0.5
  {
    var s := x + y;
    var p := x / s;
    DivPositive(x, s);
    DivPositive(y, s);
    assert x / s + y / s == 1.0;
    var q := (x - y) / (2.0 * s);
    assert p * s == x;
    assert q * (2.0 * s) == x - y;
    assert (p - 0.5) * (2.0 * s) == 2.0 * (p * s) - s;
    MulCancel(p - 0.5, q, 2.0 * s);
    if x > y {
      DivPositive(x - y, 2.0 * s);
    } else if x < y {
      DivNegative(x - y, 2.0 * s);
    }
  }

  /** A larger second quantity lowers the share of the first. */
  lemma FractionDecreasing(e: real, f1: real, f2: real)
    requires e > 0.0 && 0.0 < f1 < f2
    ensures e / (e + f1) > e / (e + f2)
  {
    var q1, q2 := e / (e + f1), e / (e + f2);
    DivPositive(e, e + f2);
    assert q1 * (e + f1) == e && q2 * (e + f2) == e;
    MulStrictRight(q2, e + f1, e + f2);
    MulLtCancel(q2, q1, e + f1);
  }

  lemma DivMonotone(a: real, b: real, c: real)
    requires c > 0.0 && a < b
    ensures a / c < b / c
  {
    var d := b / c - a / c;
    assert d * c == b - a;
    assert (b - a) / c * c == b - a;
    MulCancel(d, (b - a) / c, c);
    DivPositive(b - a, c);
  }

  lemma DivPositive(x: real, y: real)
    requires x > 0.0 && y > 0.0
    ensures x / y > 0.0
  {
  }

  lemma DivNegative(x: real, y: real)
    requires x < 0.0 && y > 0.0
    ensures x / y < 0.0
  {
    DivPositive(-x, y);
    assert -x / y == -(x / y);
  }

  lemma DivNonNegative(x: real, y: real)
    requires x >= 0.0 && y > 0.0
    ensures x / y >= 0.0
  {
    if x > 0.0 {
      DivPositive(x, y);
    }
  }

  lemma MulCancel(a: real, b: real, k: real)
    requires k != 0.0 && a * k == b * k
    ensures a == b
  {
    assert (a - b) * k == 0.0;
  }

  lemma MulStrictRight(q: real, a: real, b: real)
    requires q > 0.0 && a < b
    ensures q * a < q * b
  {
    MulPositive(q, b - a);
    assert q * b - q * a == q * (b - a);
  }

  lemma MulLtCancel(a: real, b: real, k: real)
    requires k > 0.0 && a * k < b * k
    ensures a < b
  {
    var q := (b * k - a * k) / k;
    assert (b - a) * k == b * k - a * k;
    assert q * k == b * k - a * k;
    MulCancel(b - a, q, k);
    DivPositive(b * k - a * k, k);
  }

  /** `iter().sum()` of a sequence of reals, summed from the front. */
  function Sum(s: seq<real>): real
  {
    if s == [] then 0.0 else Sum(s[..|s| - 1]) + s[|s| - 1]
  }

  /** A sum of non-negative terms is non-negative; a sum of positive terms is positive
      unless it is empty. */
  lemma {:induction false} SumSign(s: seq<real>)
    ensures (forall i :: 0 <= i < |s| ==> s[i] >= 0.0) ==> Sum(s) >= 0.0
    ensures (forall i :: 0 <= i < |s| ==> s[i] > 0.0) && s != [] ==> Sum(s) > 0.0
  {
    if s != [] {
      var init := s[..|s| - 1];
      assert forall i :: 0 <= i < |init| ==> init[i] == s[i];
      SumSign(init);
    }
  }

  /** Every element divided by k, as `*x /= k` over a vector does it. */
  function DivideAll(s: seq<real>, k: real): (r: seq<real>)
    requires s != [] ==> k != 0.0
    ensures |r| == |s|
    ensures forall i :: 0 <= i < |s| ==> r[i] == s[i] / k
  {
    if s == [] then [] else DivideAll(s[..|s| - 1], k) + [s[|s| - 1] / k]
  }

  /** Dividing every term by k divides the sum by k. */
  lemma {:induction false} SumDivideAll(s: seq<real>, k: real)
    requires k != 0.0
    ensures Sum(DivideAll(s, k)) == Sum(s) / k
  {
    if s != [] {
      var init := s[..|s| - 1];
      var r := DivideAll(s, k);
      assert r[..|r| - 1] == DivideAll(init, k);
      SumDivideAll(init, k);
      DivAdd(Sum(init), s[|s| - 1], k);
    }
  }

  /** A non-zero number divided by itself is 1. */
  lemma DivSelf(k: real)
    requires k != 0.0
    ensures k / k == 1.0
  {
    assert k / k * k == 1.0 * k;
    MulCancel(k / k, 1.0, k);
  }

  /** Division by k distributes over a sum. */
  lemma DivAdd(a: real, b: real, k: real)
    requires k != 0.0
    ensures a / k + b / k == (a + b) / k
  {
    assert (a / k + b / k) * k == a / k * k + b / k * k == a + b;
    MulCancel(a / k + b / k, (a + b) / k, k);
  }

  /** The sign of a product x * y of two positive factors, named r. */
  lemma ProductPositive(x: real, y: real, r: real)
    requires x > 0.0 && y > 0.0 && r == x * y
    ensures r > 0.0
  {
  }

  lemma MulPositive(x: real, y: real)
    requires x > 0.0 && y > 0.0
    ensures x * y > 0.0
  {
  }

  lemma MulNonNegative(x: real, y: real)
    requires x >= 0.0 && y >= 0.0
    ensures x * y >= 0.0
  {
  }
}
