/**
 * Arithmetic helpers shared by the calculators: the JavaScript `Math.max`, `Math.min`,
 * `Math.round`, integer `Math.pow`, the `clamp` helper and the "non-numeric reads as 0" coercion.
 * Every amount is an exact `real`; IEEE rounding is not modelled.
 */
module Numeric {
  import opened Wrappers

  function Max(a: real, b: real): real { if a >= b then a else b }

  function Min(a: real, b: real): real { if a <= b then a else b }

  function IntMax(a: int, b: int): int { if a >= b then a else b }

  function IntMin(a: int, b: int): int { if a <= b then a else b }

  /** `clamp(n, lo, hi) = Math.max(lo, Math.min(hi, n))`. */
  function Clamp(n: real, lo: real, hi: real): (r: real)
    ensures lo <= hi ==> lo <= r <= hi
    ensures lo <= n <= hi ==> r == n
    ensures n <= lo ==> r == lo
    ensures lo <= hi <= n ==> r == hi
  {
    Max(lo, Min(hi, n))
  }

  /** `Math.round`: the nearest integer, halves rounded towards +infinity. */
  function Round(x: real): (r: int)
    ensures x - 0.5 < r as real <= x + 0.5
  {
    (x + 0.5).Floor
  }

  /** `Number.isFinite(v) ? v : 0` and `parseFloat(v) || 0`: a value that did not parse reads as 0. */
  function OrZero(v: Option<real>): (r: real)
    ensures v.None? ==> r == 0.0
    ensures v.Some? ==> r == v.value
  {
    v.GetOr(0.0)
  }

  /** `+v || d` and `parseFloat(v) || d`: a value that did not parse, or zero, reads as `d`. */
  function OrDefault(v: Option<real>, d: real): (r: real)
    ensures v.None? || v.value == 0.0 ==> r == d
    ensures v.Some? && v.value != 0.0 ==> r == v.value
  {
    if v.Some? && v.value != 0.0 then v.value else d
  }

  /** `Math.pow(b, n)` for a whole exponent. */
  function Pow(b: real, n: nat): real
  {
    if n == 0 then 1.0 else b * Pow(b, n - 1)
  }

  /** The sum of a sequence of amounts, first to last. */
  function Sum(ws: seq<real>): real
  {
    if ws == [] then 0.0 else ws[0] + Sum(ws[1..])
  }

  lemma MulLeft(a: real, b: real, k: real)
    requires a <= b && k >= 0.0
    ensures k * a <= k * b
  {
  }

  lemma MulRight(a: real, b: real, k: real)
    requires a <= b && k >= 0.0
    ensures a * k <= b * k
  {
  }

  lemma MulStrictRight(a: real, b: real, k: real)
    requires a < b && k > 0.0
    ensures a * k < b * k
  {
  }

  lemma Distribute(k: real, a: real, b: real)
    ensures k * a + k * b == k * (a + b)
  {
  }

  lemma MulNonNegative(a: real, b: real)
    requires a >= 0.0 && b >= 0.0
    ensures a * b >= 0.0
  {
  }

  /** A share between 0 and 1 of a non-negative amount lies between 0 and the amount. */
  lemma ShareWithin(x: real, share: real)
    requires x >= 0.0 && 0.0 <= share <= 1.0
    ensures 0.0 <= x * share <= x
  {
    MulNonNegative(x, share);
    MulLeft(share, 1.0, x);
  }

  /** A share below 1 of a positive amount is below the amount. */
  lemma ShareBelow(x: real, share: real)
    requires x > 0.0 && share < 1.0
    ensures x * share < x
  {
    MulStrictRight(share, 1.0, x);
  }

  lemma DivMonotone(a: real, b: real, d: real)
    requires a <= b && d > 0.0
    ensures a / d <= b / d
  {
    assert (a / d) * d == a && (b / d) * d == b;
  }

  lemma DivTimes(a: real, d: real)
    requires d != 0.0
    ensures a / d * d == a
  {
  }

  lemma DivAtLeastOne(a: real, d: real)
    requires a >= d && d > 0.0
    ensures a / d >= 1.0
  {
    DivMonotone(d, a, d);
  }

  lemma {:induction false} PowPositive(b: real, n: nat)
    requires b > 0.0
    ensures Pow(b, n) > 0.0
  {
    if n > 0 {
      PowPositive(b, n - 1);
      assert b * Pow(b, n - 1) > 0.0;
    }
  }

  lemma {:induction false} PowAtLeastOne(b: real, n: nat)
    requires b >= 1.0
    ensures Pow(b, n) >= 1.0
  {
    if n > 0 {
      PowAtLeastOne(b, n - 1);
      MulLeft(1.0, Pow(b, n - 1), b);
    }
  }

  /** Growing a non-negative amount at a non-negative rate never shrinks it. */
  lemma GrowthNotBelow(x: real, b: real, n: nat)
    requires x >= 0.0 && b >= 1.0
    ensures x * Pow(b, n) >= x
  {
    PowAtLeastOne(b, n);
    MulLeft(1.0, Pow(b, n), x);
  }
}
