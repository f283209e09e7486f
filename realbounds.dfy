/** Sign and size of a move scaled by a factor in [0,1] and divided by a step count. */
module RealBounds {
  lemma ScaledStepBound(m: real, factor: real, n: real, q: real)
    requires n >= 1.0 && 0.0 <= factor <= 1.0 && q == m * factor / n
    ensures m >= 0.0 ==> 0.0 <= q <= m
    ensures m <= 0.0 ==> m <= q <= 0.0
  {
    var p := m * factor;
    if m <= 0.0 {
      NegativeProductBounds(m, factor, p);
      NegativeQuotientBounds(m, p, n, q);
    } else {
      ProductBounds(m, factor, p);
      QuotientBounds(m, p, n, q);
    }
  }

  lemma ScaleBound(m: real, factor: real, p: real)
    requires 0.0 <= factor <= 1.0 && p == m * factor
    ensures m >= 0.0 ==> 0.0 <= p <= m
    ensures m <= 0.0 ==> m <= p <= 0.0
  {
    if m <= 0.0 {
      NegativeProductBounds(m, factor, p);
    } else {
      ProductBounds(m, factor, p);
    }
  }

  lemma NegativeProductBounds(m: real, f: real, p: real)
    requires m <= 0.0 && 0.0 <= f <= 1.0 && p == m * f
    ensures m <= p <= 0.0
  {
    assert p - m == (-m) * (1.0 - f);
    assert (-m) * f >= 0.0;
  }

  lemma ProductBounds(m: real, f: real, p: real)
    requires m >= 0.0 && 0.0 <= f <= 1.0 && p == m * f
    ensures 0.0 <= p <= m
  {
    assert m - p == m * (1.0 - f);
  }

  lemma NegativeQuotientBounds(m: real, p: real, n: real, q: real)
    requires m <= p <= 0.0 && n >= 1.0 && q == p / n
    ensures m <= q <= 0.0
  {
    assert q * n == p;
  }

  lemma QuotientBounds(m: real, p: real, n: real, q: real)
    requires 0.0 <= p <= m && n >= 1.0 && q == p / n
    ensures 0.0 <= q <= m
  {
    assert q * n == p;
  }
}
