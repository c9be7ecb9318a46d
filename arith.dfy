/**
 * Real-number facts used by the physics proofs. Products and quotients are
 * named by Mul and Div so that the solver treats equal arguments as equal
 * terms; each fact is stated once here and applied by the other modules.
 */
module Arith {

  function Mul(a: real, b: real): real { a * b }

  function Div(a: real, b: real): real
    requires b != 0.0
  {
    a / b
  }

  lemma MulPositive(a: real, b: real)
    requires a > 0.0 && b > 0.0
    ensures Mul(a, b) > 0.0
  {
  }

  lemma MulNonNegative(a: real, b: real)
    requires a >= 0.0 && b >= 0.0
    ensures Mul(a, b) >= 0.0
  {
  }

  lemma SquarePositive(a: real)
    requires a != 0.0
    ensures Mul(a, a) > 0.0
  {
    if a > 0.0 {
      MulPositive(a, a);
    } else {
      MulPositive(-a, -a);
      assert (-a) * (-a) == a * a;
    }
  }

  /** Multiplying by a positive number keeps the order. */
  lemma MulKeepsOrder(a: real, b: real, c: real)
    requires a < b && c > 0.0
    ensures Mul(a, c) < Mul(b, c)
  {
    assert b * c - a * c == (b - a) * c;
    MulPositive(b - a, c);
  }

  lemma DivPositive(a: real, b: real)
    requires a > 0.0 && b > 0.0
    ensures Div(a, b) > 0.0
  {
  }

  lemma DivNonNegative(a: real, b: real)
    requires a >= 0.0 && b > 0.0
    ensures Div(a, b) >= 0.0
  {
  }

  /** Dividing by a positive number keeps the order. */
  lemma DivKeepsOrder(a: real, b: real, c: real)
    requires a < b && c > 0.0
    ensures Div(a, c) < Div(b, c)
  {
    assert (b / c - a / c) * c == b - a;
  }

  /** A positive amount divided by a larger positive number is smaller. */
  lemma DivByLarger(k: real, c1: real, c2: real)
    requires k > 0.0 && 0.0 < c1 < c2
    ensures Div(k, c2) < Div(k, c1)
  {
    assert (k / c1) * c1 == k;
    assert (k / c2) * c2 == k;
    DivPositive(k, c2);
    MulKeepsOrder(c1, c2, k / c2);
    assert Mul(k / c2, c1) < k;
    if k / c1 <= k / c2 {
      assert Mul(k / c1, c1) <= Mul(k / c2, c1);
    }
  }

  /** A product with a positive factor has the sign of the other factor. */
  lemma MulSign(a: real, b: real)
    requires a > 0.0
    ensures Mul(a, b) > 0.0 <==> b > 0.0
    ensures Mul(a, b) == 0.0 <==> b == 0.0
  {
    if b > 0.0 {
      MulPositive(a, b);
    } else if b < 0.0 {
      MulPositive(a, -b);
      assert a * (-b) == -(a * b);
    }
  }

  /** Scaling a unit vector (c, s) by r gives a vector of squared length r * r. */
  lemma ScaledUnitLength(r: real, c: real, s: real)
    requires Mul(c, c) + Mul(s, s) == 1.0
    ensures Mul(Mul(r, c), Mul(r, c)) + Mul(Mul(r, s), Mul(r, s)) == Mul(r, r)
  {
    assert (r * c) * (r * c) == (r * r) * (c * c);
    assert (r * s) * (r * s) == (r * r) * (s * s);
    assert (r * r) * (c * c) + (r * r) * (s * s) == (r * r) * (c * c + s * s);
  }
}
