/** The numeric conversions of the analytics endpoint: `Math.round` of a quotient and
    `parseFloat(x.toFixed(2))`, computed exactly on integers. */
module JsMath {

  /** `Math.round(a / b)` for a non-negative quotient: the integer nearest to
      `a / b`, halves rounded up. */
  function RoundDiv(a: nat, b: nat): nat
    requires b > 0
  {
    (2 * a + b) / (2 * b)
  }

  /** `RoundDiv(a, b)` is within one half of `a / b`, halves going up. */
  lemma RoundDivNearest(a: nat, b: nat)
    requires b > 0
    ensures 2 * b * RoundDiv(a, b) <= 2 * a + b < 2 * b * (RoundDiv(a, b) + 1)
  {
    var r := (2 * a + b) / (2 * b);
    assert 2 * a + b == 2 * b * r + (2 * a + b) % (2 * b);
  }

  /** `RoundDiv` keeps the order of numerators. */
  lemma RoundDivMonotone(a: nat, a2: nat, b: nat)
    requires b > 0 && a <= a2
    ensures RoundDiv(a, b) <= RoundDiv(a2, b)
  {
    RoundDivNearest(a, b);
    RoundDivNearest(a2, b);
    LessFromProduct(2 * b, RoundDiv(a, b), RoundDiv(a2, b) + 1);
  }

  lemma LessFromProduct(c: int, x: int, y: int)
    requires c > 0 && c * x < c * y
    ensures x < y
  {
  }

  /** A quotient that is at most `m` rounds to at most `m`. */
  lemma RoundDivAtMost(a: nat, b: nat, m: nat)
    requires b > 0 && a <= m * b
    ensures RoundDiv(a, b) <= m
  {
    RoundDivNearest(a, b);
    LessFromProduct(2 * b, RoundDiv(a, b), m + 1);
  }

  /** A quotient rounds to a positive number exactly when it is at least one half. */
  lemma RoundDivPositive(a: nat, b: nat)
    requires b > 0
    ensures RoundDiv(a, b) > 0 <==> 2 * a >= b
  {
    RoundDivNearest(a, b);
    PositiveFromBounds(a, b, RoundDiv(a, b));
  }

  lemma PositiveFromBounds(a: nat, b: nat, r: nat)
    requires b > 0 && 2 * b * r <= 2 * a + b < 2 * b * (r + 1)
    ensures r > 0 <==> 2 * a >= b
  {
    if r > 0 {
      var q := r - 1;
      assert 2 * b * r == 2 * b * q + 2 * b;
      assert 2 * b * q >= 0;
    }
  }

  /** `parseFloat((num / den).toFixed(2))` as a whole number of hundredths:
      the magnitude is rounded half up and the sign is kept. */
  function Cents(num: int, den: nat): int
    requires den > 0
  {
    if num >= 0 then RoundDiv(100 * num, den)
    else
      var m: int := RoundDiv(100 * -num, den);
      -m
  }

  /** `Cents(num, den)` is within one half of `100 * num / den`, and has the
      sign of `num` unless the magnitude rounds to zero. */
  lemma CentsNearest(num: int, den: nat)
    requires den > 0
    ensures num >= 0 ==> 0 <= Cents(num, den) && 2 * den * Cents(num, den) <= 200 * num + den < 2 * den * (Cents(num, den) + 1)
    ensures num < 0 ==> Cents(num, den) <= 0 && 2 * den * (-Cents(num, den)) <= -200 * num + den < 2 * den * (-Cents(num, den) + 1)
  {
    if num >= 0 {
      RoundDivNearest(100 * num, den);
    } else {
      RoundDivNearest(100 * -num, den);
    }
  }
}
