/** Division of natural numbers, for proofs that meet it with unknown divisors. */
module Numbers {
  lemma NoMultipleWithin(d: int, p: int)
    requires p > 0
    ensures d * p <= -p || (d == 0 && d * p == 0) || d * p >= p
  {
    if d >= 1 {
      assert (d - 1) * p >= 0;
    } else if d <= -1 {
      assert (-d - 1) * p >= 0;
    }
  }

  /** Quotient and remainder are unique. */
  lemma DivisionIs(n: int, q: int, r: int, p: int)
    requires p > 0 && n == q * p + r && 0 <= r < p
    ensures n / p == q && n % p == r
  {
    var d, s := n / p - q, n % p;
    assert n == (n / p) * p + s;
    assert d * p == r - s;
    NoMultipleWithin(d, p);
  }
}
