/** Small facts of ordered-field arithmetic that the solver needs spelled out when both
    factors of a product are variables. */
module RealArith {
  /** A quotient of a part by a positive whole lies in 0..1, and below 1 for a proper part. */
  lemma Fraction(part: real, whole: real)
    requires 0.0 <= part <= whole && whole > 0.0
    ensures 0.0 <= part / whole <= 1.0
    ensures part < whole ==> part / whole < 1.0
    ensures part > 0.0 ==> part / whole > 0.0
  {
    var q := part / whole;
    assert q * whole == part;
    if q > 1.0 {
      MulLess(1.0, q, whole);
    }
    if part < whole && q >= 1.0 {
      MulAtMost(1.0, q, whole);
    }
    if q < 0.0 {
      MulLess(q, 0.0, whole);
    }
  }

  /** Multiplying by a positive factor keeps a strict order. */
  lemma MulLess(a: real, b: real, c: real)
    requires a < b && c > 0.0
    ensures a * c < b * c
  {
    assert (b - a) * c > 0.0;
  }

  /** Multiplying by a non-negative factor keeps a weak order. */
  lemma MulAtMost(a: real, b: real, c: real)
    requires a <= b && c >= 0.0
    ensures a * c <= b * c
  {
    assert (b - a) * c >= 0.0;
  }

  /** A quotient by a positive divisor is bounded by c when the dividend is bounded by
      c times the divisor. */
  lemma DivAtMost(a: real, b: real, c: real)
    requires b > 0.0 && a <= b * c
    ensures a / b <= c
  {
    var v := a / b;
    assert v * b == a;
    if v > c {
      MulLess(c, v, b);
    }
  }

  /** Dividing by a positive divisor keeps a weak order. */
  lemma DivMonotone(a: real, b: real, r: real)
    requires a <= b && r > 0.0
    ensures a / r <= b / r
  {
    var va, vb := a / r, b / r;
    assert va * r == a && vb * r == b;
    if va > vb {
      MulLess(vb, va, r);
    }
  }

  /** Multiplying and then dividing by the same positive number gives the number back. */
  lemma DivCancel(c: real, r: real)
    requires r > 0.0
    ensures (c * r) / r == c
  {
    var v := (c * r) / r;
    assert v * r == c * r;
    if v < c {
      MulLess(v, c, r);
    } else if v > c {
      MulLess(c, v, r);
    }
  }
}
