/** Facts about products, quotients and remainders of naturals.

    Each is stated on plain numbers, so that the layout arithmetic of the models
    can use them as rewriting steps. */
module Arithmetic {
  lemma {:induction false} MulAtLeast(k: nat, d: nat)
    requires k > 0
    ensures k * d >= d
  {
    if k > 1 {
      MulAtLeast(k - 1, d);
      assert k * d == (k - 1) * d + d;
    }
  }

  lemma MulLess(a: nat, b: nat, d: nat)
    requires a < b
    ensures a * d + d <= b * d
  {
    var k := b - a;
    MulAtLeast(k, d);
    assert (a + k) * d == a * d + k * d;
  }

  lemma MulOrder(a: nat, b: nat, d: nat)
    requires a <= b
    ensures a * d <= b * d
  {
    if a < b {
      MulLess(a, b, d);
    }
  }

  /** Division undone: quotient and remainder are unique. */
  lemma DivModUnique(q: nat, r: nat, d: nat)
    requires r < d
    ensures (q * d + r) / d == q && (q * d + r) % d == r
  {
    var x := q * d + r;
    var q' := x / d;
    assert x == q' * d + x % d;
    if q < q' {
      MulLess(q, q', d);
    } else if q' < q {
      MulLess(q', q, d);
    }
  }

  lemma DivModLaws(x: nat, d: nat)
    requires d > 0
    ensures x == x / d * d + x % d && x % d < d
  {
  }

  lemma QuotientBelow(x: nat, n: nat, d: nat)
    requires d > 0 && x < n * d
    ensures x / d < n
  {
    DivModLaws(x, d);
    if n <= x / d {
      MulOrder(n, x / d, d);
    }
  }
}
