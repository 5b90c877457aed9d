/** Facts about products and quotients of reals that the solver needs spelled out. */
module RealArith {

  lemma MulNonNegative(x: real, y: real)
    requires x >= 0.0 && y >= 0.0
    ensures x * y >= 0.0
  {
  }

  lemma MulPositive(x: real, y: real)
    requires x > 0.0 && y > 0.0
    ensures x * y > 0.0
  {
  }

  /** Multiplying by a factor in [0, 1] does not increase a non-negative value. */
  lemma MulAtMostOne(x: real, rate: real)
    requires x >= 0.0 && 0.0 <= rate <= 1.0
    ensures 0.0 <= rate * x <= x
  {
    MulNonNegative(rate, x);
    MulNonNegative(1.0 - rate, x);
    assert (1.0 - rate) * x == x - rate * x;
  }

  /** For a positive divisor, a / b is at least one exactly when a is at least b, and keeps a's sign. */
  lemma QuotientAgainstOne(a: real, b: real)
    requires b > 0.0
    ensures a / b >= 1.0 <==> a >= b
    ensures a >= 0.0 ==> a / b >= 0.0
  {
    var q := a / b;
    assert q * b == a;
    assert (q - 1.0) * b == a - b;
    if q >= 1.0 {
      MulNonNegative(q - 1.0, b);
    } else {
      MulPositive(1.0 - q, b);
    }
    if q < 0.0 {
      MulPositive(0.0 - q, b);
    }
  }
}
