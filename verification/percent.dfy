/** `Math.round((part / whole) * 100)`, the percentage every report prints,
    computed exactly over the naturals: the nearest integer to
    `100 * part / whole`, halves rounding up. */
module Percent {

  /** The rounded percentage of `part` in `whole`. */
  function RoundPercent(part: nat, whole: nat): (r: nat)
    requires whole > 0
    ensures 2 * r * whole <= 200 * part + whole < 2 * (r + 1) * whole
  {
    var x := 200 * part + whole;
    var m := 2 * whole;
    assert x == (x / m) * m + x % m;
    x / m
  }

  /** A part of the whole rounds to a percentage in 0..100: all of it is 100,
      none of it is 0. */
  lemma RoundPercentRange(part: nat, whole: nat)
    requires whole > 0
    requires part <= whole
    ensures RoundPercent(part, whole) <= 100
    ensures part == whole ==> RoundPercent(part, whole) == 100
    ensures part == 0 ==> RoundPercent(part, whole) == 0
  {
    var r := RoundPercent(part, whole);
    assert 2 * r * whole < 202 * whole by {
      assert 200 * part + whole <= 201 * whole;
    }
    ProductBelow(r, 101, 2 * whole);
    if part == whole {
      assert 2 * 99 * whole < 200 * part + whole;
      ProductBelow(99, r + 1, 2 * whole);
    }
    if part == 0 {
      ProductBelow(r, 1, 2 * whole);
    }
  }

  /** A larger part never rounds to a smaller percentage. */
  lemma RoundPercentMonotone(a: nat, b: nat, whole: nat)
    requires whole > 0
    requires a <= b
    ensures RoundPercent(a, whole) <= RoundPercent(b, whole)
  {
    var ra := RoundPercent(a, whole);
    var rb := RoundPercent(b, whole);
    assert 2 * ra * whole <= 200 * a + whole <= 200 * b + whole < 2 * (rb + 1) * whole;
    ProductBelow(ra, rb + 1, 2 * whole);
  }

  /** Dividing out a positive factor: `a * m < b * m` gives `a < b`. */
  lemma ProductBelow(a: nat, b: nat, m: nat)
    requires m > 0
    requires a * m < b * m
    ensures a < b
  {
    assert a * m - b * m == (a - b) * m;
  }
}
