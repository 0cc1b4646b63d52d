/** Products and quotients of reals, one step at a time. */
module RealArithmetic {
  lemma ProductMonotone(x: real, y: real, d: real)
    requires d >= 0.0 && x <= y
    ensures x * d <= y * d
  {
  }

  lemma ProductStrict(x: real, y: real, d: real)
    requires d > 0.0 && x < y
    ensures x * d < y * d
  {
  }

  lemma QuotientTimes(x: real, d: real)
    requires d != 0.0
    ensures x / d * d == x
  {
  }

  /** Comparing with a quotient is comparing the product. */
  lemma QuotientCompare(x: real, d: real, y: real)
    requires d > 0.0
    ensures y <= x / d <==> y * d <= x
    ensures y < x / d <==> y * d < x
  {
    var q := x / d;
    QuotientTimes(x, d);
    if y <= q {
      ProductMonotone(y, q, d);
    } else {
      ProductStrict(q, y, d);
    }
    if y < q {
      ProductStrict(y, q, d);
    } else {
      ProductMonotone(q, y, d);
    }
  }

  lemma QuotientMonotone(x: real, y: real, d: real)
    requires d > 0.0 && x <= y
    ensures x / d <= y / d
  {
    QuotientTimes(x, d);
    QuotientCompare(y, d, x / d);
  }

  lemma QuotientBelow(x: real, d: real, y: real)
    requires d > 0.0
    ensures x / d < y <==> x < y * d
  {
    QuotientCompare(x, d, y);
  }
}
