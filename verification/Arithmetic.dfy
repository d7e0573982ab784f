// Products and quotients.

module Arithmetic {

  lemma Multiple(a: int, k: nat)
    ensures a > 0 ==> a * k >= k
    ensures a < 0 ==> a * k + k <= 0
  {
  }

  /** The quotient of a multiple. */
  lemma QuotientIs(x: int, k: nat, n: int, q: int)
    requires k > 0 && x == n * k && q * k <= x < q * k + k
    ensures q == n
  {
    Multiple(n - q, k);
    assert (n - q) * k == n * k - q * k;
  }

  lemma Quotient(n: int, e: nat)
    requires e > 0
    ensures n == n / e * e + n % e && 0 <= n % e < e
  {
  }

  lemma QuotientBound(x: int, e: nat, high: int)
    requires e > 0 && 0 <= x <= high * e
    ensures 0 <= x / e <= high
  {
    Quotient(x, e);
    Multiple(x / e - high, e);
    assert (x / e - high) * e == x / e * e - high * e;
  }

  lemma MultipleOf(t: int, e: nat)
    requires e > 0
    ensures t * e / e == t && t * e % e == 0
  {
    Quotient(t * e, e);
    QuotientIs(t * e, e, t, t * e / e);
  }
}
