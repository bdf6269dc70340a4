// Arithmetic shared by the regulatory computations: Python's `x or 0` and truthiness on
// float columns, `min`/`max`, and the percentage clamp several handlers apply.
module Ratios {
  import opened Wrappers

  /** `x or 0` on a nullable float column: NULL and 0.0 both read as 0. */
  function OrZeroR(x: Option<real>): real
  {
    x.GetOr(0.0)
  }

  /** A nullable float is truthy when it is set and non-zero. */
  predicate TruthyR(x: Option<real>)
  {
    x.Some? && x.value != 0.0
  }

  lemma {:induction false} OrZeroOfFalsy(x: Option<real>)
    ensures !TruthyR(x) <==> OrZeroR(x) == 0.0
    ensures TruthyR(x) ==> OrZeroR(x) == x.value
  {
  }

  function Min(a: real, b: real): (r: real)
    ensures r <= a && r <= b && (r == a || r == b)
  {
    if a <= b then a else b
  }

  function Max(a: real, b: real): (r: real)
    ensures r >= a && r >= b && (r == a || r == b)
  {
    if a >= b then a else b
  }

  /** `min(100, max(0, x))`: a percentage clamped into [0, 100]. */
  function Clamp100(x: real): (r: real)
    ensures 0.0 <= r <= 100.0
    ensures 0.0 <= x <= 100.0 ==> r == x
    ensures x < 0.0 ==> r == 0.0
    ensures x > 100.0 ==> r == 100.0
  {
    Min(100.0, Max(0.0, x))
  }

  /** `part / whole * 100`. */
  function Percent(part: real, whole: real): real
    requires whole != 0.0
  {
    part / whole * 100.0
  }

  /** A share of a positive whole is a percentage, and multiplying back recovers the part. */
  lemma {:induction false} PercentOfShare(part: real, whole: real)
    requires whole > 0.0
    ensures 0.0 <= part <= whole ==> 0.0 <= Percent(part, whole) <= 100.0
    ensures Percent(part, whole) * whole / 100.0 == part
    ensures part < 0.0 ==> Percent(part, whole) < 0.0
    ensures part > 0.0 ==> Percent(part, whole) > 0.0
    ensures part > whole ==> Percent(part, whole) > 100.0
  {
    var q := part / whole;
    assert q * whole == part;
    assert Percent(part, whole) == q * 100.0;
    if q < 0.0 {
      assert q * whole < 0.0;
    } else if q > 0.0 {
      assert q * whole > 0.0;
    }
    if q > 1.0 {
      assert (q - 1.0) * whole > 0.0;
    } else if q < 1.0 {
      assert (1.0 - q) * whole > 0.0;
    }
  }

  lemma {:induction false} PercentOfWhole(whole: real)
    requires whole != 0.0
    ensures Percent(whole, whole) == 100.0
  {
  }

  /** The percentages of two parts of the same whole add up to the percentage of their sum. */
  lemma {:induction false} PercentAdditive(a: real, b: real, whole: real)
    requires whole != 0.0
    ensures Percent(a, whole) + Percent(b, whole) == Percent(a + b, whole)
  {
  }
}
