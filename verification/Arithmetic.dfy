/** Products of ideal reals. Times names the product so that proofs can treat it as one
    term and unfold it only where the algebra matters. */
module Arithmetic {

  function Times(x: real, y: real): real {
    x * y
  }

  lemma {:induction false} TimesCommutes(x: real, y: real)
    ensures Times(x, y) == Times(y, x)
  {
  }

  lemma {:induction false} PositiveTimes(x: real, y: real)
    requires x > 0.0 && y > 0.0
    ensures Times(x, y) > 0.0
  {
  }

  lemma {:induction false} TimesMonotone(x: real, y: real, p: real, q: real)
    requires 0.0 <= x <= p && 0.0 <= y <= q
    ensures 0.0 <= Times(x, y) <= Times(p, q)
  {
    assert x * y <= p * y;
    assert p * y <= p * q;
  }

  lemma {:induction false} ZeroSquare(c: real)
    requires c * c <= 0.0
    ensures c == 0.0
  {
    if c > 0.0 {
      SignOfFactor(c, -c);
    } else if c < 0.0 {
      SignOfFactor(-c, c);
    }
  }

  lemma {:induction false} CauchyCross(A: real, B: real, C: real, x: real, y: real)
    requires A >= 0.0 && B >= 0.0 && C * C <= A * B
    ensures A * (y * y) + B * (x * x) - 2.0 * (C * (x * y)) >= 0.0
  {
    var cross := A * (y * y) + B * (x * x) - 2.0 * (C * (x * y));
    if A == 0.0 {
      assert A * B == 0.0;
      ZeroSquare(C);
      assert C * (x * y) == 0.0;
      assert B * (x * x) >= 0.0;
    } else {
      var d := A * y - C * x;
      Expand(A, B, C, x, y);
      assert d * d >= 0.0;
      assert (A * B - C * C) * (x * x) >= 0.0;
      SignOfFactor(A, cross);
    }
  }

  lemma {:induction false} SignOfFactor(a: real, b: real)
    requires a > 0.0 && a * b >= 0.0
    ensures b >= 0.0
  {
  }

  lemma {:induction false} Expand(A: real, B: real, C: real, x: real, y: real)
    ensures A * (A * (y * y) + B * (x * x) - 2.0 * (C * (x * y))) ==
            (A * y - C * x) * (A * y - C * x) + (A * B - C * C) * (x * x)
  {
    assert (A * y - C * x) * (A * y - C * x) == (A * y) * (A * y) - 2.0 * ((A * y) * (C * x)) + (C * x) * (C * x);
    assert (A * y) * (A * y) == A * (A * (y * y));
    assert (A * y) * (C * x) == A * (C * (x * y));
    assert (C * x) * (C * x) == (C * C) * (x * x);
    assert (A * B - C * C) * (x * x) == A * (B * (x * x)) - (C * C) * (x * x);
    assert A * (A * (y * y) + B * (x * x) - 2.0 * (C * (x * y))) ==
           A * (A * (y * y)) + A * (B * (x * x)) - 2.0 * (A * (C * (x * y)));
  }

  /** One step of the Cauchy-Schwarz induction. */
  lemma {:induction false} CauchyStep(A: real, B: real, C: real, x: real, y: real)
    requires A >= 0.0 && B >= 0.0 && Times(C, C) <= Times(A, B)
    ensures Times(C + Times(x, y), C + Times(x, y)) <= Times(A + Times(x, x), B + Times(y, y))
  {
    CauchyCross(A, B, C, x, y);
    var p, u, v := x * y, x * x, y * y;
    assert (C + p) * (C + p) == C * C + 2.0 * (C * p) + p * p;
    assert (A + u) * (B + v) == A * B + A * v + B * u + u * v;
    assert p * p == u * v;
  }

  lemma {:induction false} RootBound(dot: real, d: real, bound: real)
    requires dot > 0.0 && d > 0.0 && Times(d, d) == bound && Times(dot, dot) <= bound
    ensures 0.0 < dot / d <= 1.0
  {
    assert dot <= d by {
      assert d * d - dot * dot == (d - dot) * (d + dot);
      SignOfFactor(d + dot, d - dot);
    }
  }

  // ----- multiples and roots -------------------------------------------------------------------

  /** x added n times. */
  function Scaled(n: nat, x: real): real {
    n as real * x
  }

  lemma {:induction false} NothingScaled(x: real)
    ensures Scaled(0, x) == 0.0 && Scaled(1, x) == x
  {
  }

  lemma {:induction false} CountsScaled(m: nat, n: nat, x: real)
    ensures Scaled(m + n, x) == Scaled(m, x) + Scaled(n, x)
  {
  }

  lemma {:induction false} PositiveScale(n: nat, x: real)
    requires n > 0 && x > 0.0
    ensures Scaled(n, x) > 0.0
  {
    NothingScaled(x);
    if n > 1 {
      PositiveScale(n - 1, x);
      CountsScaled(n - 1, 1, x);
    }
  }

  lemma {:induction false} QuotientAboveOne(a: real, d: real)
    requires a > d > 0.0
    ensures a / d > 1.0
  {
  }

  lemma {:induction false} RatioAtLeastOne(n: nat, k: nat, x: real)
    requires n >= k > 0 && x > 0.0
    ensures Scaled(k, x) > 0.0 && Scaled(n, x) / Scaled(k, x) >= 1.0
    ensures n > k ==> Scaled(n, x) / Scaled(k, x) > 1.0
  {
    PositiveScale(k, x);
    if n > k {
      PositiveScale(n - k, x);
      CountsScaled(k, n - k, x);
      QuotientAboveOne(Scaled(n, x), Scaled(k, x));
    }
  }

  /** A square root on the reals that have one. */
  ghost predicate IsRoot(sqrt: real -> real) {
    forall x :: x >= 0.0 ==> sqrt(x) >= 0.0 && Times(sqrt(x), sqrt(x)) == x
  }

  lemma {:induction false} SameSquare(d: real, y: real)
    requires d >= 0.0 && y > 0.0 && Times(d, d) == Times(y, y)
    ensures d == y
  {
    assert (d + y) * (d - y) == d * d - y * y;
    assert (d + y) * (y - d) == y * y - d * d;
    SignOfFactor(d + y, d - y);
    SignOfFactor(d + y, y - d);
  }
}
