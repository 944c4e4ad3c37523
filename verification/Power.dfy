/** Python's `x ** e` for `x >= 0` and `e >= 0`, as a parameter.

    Only the laws below are used (products, monotonicity, base one, exponents zero
    and one), so every theorem that takes a power function holds for each real
    exponent. */
module Power {
  type Pow = (real, real) -> real

  ghost predicate MultipliesAt(pow: Pow, x: real, y: real, e: real) {
    pow(x * y, e) == pow(x, e) * pow(y, e)
  }

  ghost predicate MonotoneAt(pow: Pow, x: real, y: real, e: real) {
    pow(x, e) <= pow(y, e)
  }

  ghost predicate PowerLaws(pow: Pow) {
    && (forall x, e :: 0.0 <= x && 0.0 <= e ==> 0.0 <= pow(x, e))
    && (forall e :: 0.0 <= e ==> pow(1.0, e) == 1.0)
    && (forall x :: 0.0 <= x ==> pow(x, 0.0) == 1.0)
    && (forall x :: 0.0 <= x ==> pow(x, 1.0) == x)
    && (forall x, y, e :: 0.0 <= x && 0.0 <= y && 0.0 <= e ==> MultipliesAt(pow, x, y, e))
    && (forall x, y, e :: 0.0 <= x <= y && 0.0 <= e ==> MonotoneAt(pow, x, y, e))
  }

  /** A positive base has a positive power: its reciprocal's power undoes it. */
  lemma PowPositive(pow: Pow, x: real, e: real)
    requires PowerLaws(pow) && x > 0.0 && 0.0 <= e
    ensures pow(x, e) > 0.0
  {
    var y := Reciprocal(x);
    assert MultipliesAt(pow, x, y, e);
    assert pow(x * y, e) == pow(1.0, e) == 1.0;
    FactorOfOne(pow(x, e), pow(y, e));
  }

  lemma Reciprocal(x: real) returns (y: real)
    requires x > 0.0
    ensures y > 0.0 && x * y == 1.0
  {
    y := 1.0 / x;
  }

  lemma FactorOfOne(a: real, b: real)
    requires a * b == 1.0
    ensures a != 0.0
  {
    ZeroProduct(a, b);
  }

  lemma ZeroProduct(a: real, b: real)
    ensures a == 0.0 ==> a * b == 0.0
  {
  }

  lemma PowGrows(pow: Pow, x: real, y: real, e: real)
    requires PowerLaws(pow) && 0.0 <= x <= y && 0.0 <= e
    ensures pow(x, e) <= pow(y, e)
    ensures y == 1.0 ==> pow(y, e) == 1.0
  {
    assert MonotoneAt(pow, x, y, e);
  }

  /** Powers of a base in [0, 1] stay in [0, 1]. */
  lemma PowAtMostOne(pow: Pow, x: real, e: real)
    requires PowerLaws(pow) && 0.0 <= x <= 1.0 && 0.0 <= e
    ensures 0.0 <= pow(x, e) <= 1.0
  {
    assert MonotoneAt(pow, x, 1.0, e);
  }
}
