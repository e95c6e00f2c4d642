/** Arithmetic shared by the panels: JavaScript's `Math.round`, the `Math.max(lo, Math.min(hi, x))`
    clamp, `Math.min(...xs)` / `Math.max(...xs)`, and the population statistics of the anomaly scorer.
    All numbers are exact reals; IEEE-754 rounding is not modelled. */
module Numeric {
  import opened Wrappers

  function Abs(x: real): real {
    if x < 0.0 then -x else x
  }

  /** `Math.round(x)`: the nearest integer, halves rounded up. */
  function Round(x: real): (r: int)
    ensures r as real - 0.5 <= x < r as real + 0.5
  {
    (x + 0.5).Floor
  }

  /** `Math.max(lo, Math.min(hi, x))`. */
  function Clamp(lo: real, hi: real, x: real): (r: real)
    requires lo <= hi
    ensures lo <= r <= hi
    ensures lo <= x <= hi ==> r == x
    ensures x < lo ==> r == lo
    ensures hi < x ==> r == hi
  {
    var m := if x < hi then x else hi;
    if lo < m then m else lo
  }

  /** Clamping never moves a value further from a point that is already in range. */
  lemma ClampTowards(lo: real, hi: real, x: real, y: real)
    requires lo <= y <= hi
    ensures Abs(Clamp(lo, hi, x) - y) <= Abs(x - y)
  {
  }

  /** `Math.min(...xs)` on a non-empty list. */
  function MinOf(xs: seq<real>): (r: real)
    requires |xs| > 0
    ensures r in xs
    ensures forall i :: 0 <= i < |xs| ==> r <= xs[i]
  {
    if |xs| == 1 then xs[0]
    else
      var m := MinOf(xs[1..]);
      assert forall i :: 1 <= i < |xs| ==> xs[i] == xs[1..][i - 1];
      if xs[0] <= m then xs[0] else m
  }

  /** `Math.max(...xs)` on a non-empty list. */
  function MaxOf(xs: seq<real>): (r: real)
    requires |xs| > 0
    ensures r in xs
    ensures forall i :: 0 <= i < |xs| ==> xs[i] <= r
  {
    if |xs| == 1 then xs[0]
    else
      var m := MaxOf(xs[1..]);
      assert forall i :: 1 <= i < |xs| ==> xs[i] == xs[1..][i - 1];
      if m <= xs[0] then xs[0] else m
  }

  lemma ProductNonNegative(a: real, b: real)
    requires a >= 0.0 && b >= 0.0
    ensures a * b >= 0.0
  {
  }

  lemma ScaleMonotone(a: real, b: real, c: real)
    requires a < b && c > 0.0
    ensures a * c < b * c
  {
    assert (b - a) * c > 0.0;
    assert (b - a) * c == b * c - a * c;
  }

  /** A fraction in [0, 1] of a non-negative quantity stays between 0 and that quantity. */
  lemma ScaleWithin(f: real, v: real)
    requires 0.0 <= f <= 1.0 && v >= 0.0
    ensures 0.0 <= f * v <= v
  {
    ProductNonNegative(f, v);
    ProductNonNegative(1.0 - f, v);
    assert (1.0 - f) * v == v - f * v;
  }

  /** The quotient of two positive numbers is positive. */
  lemma QuotientPositive(a: real, b: real)
    requires a > 0.0 && b > 0.0
    ensures a / b > 0.0
  {
    assert a / b * b == a;
  }

  lemma FractionWithin(a: real, b: real)
    requires 0.0 <= a <= b && b > 0.0
    ensures 0.0 <= a / b <= 1.0
  {
    assert a / b * b == a;
  }

  function Sum(xs: seq<real>): real {
    if |xs| == 0 then 0.0 else xs[0] + Sum(xs[1..])
  }

  lemma SquareNonNegative(d: real)
    ensures d * d >= 0.0
  {
    if d < 0.0 {
      assert d * d == (-d) * (-d);
    }
  }

  /** Sum of squared deviations from `m`. */
  function SquaredDeviation(xs: seq<real>, m: real): (r: real)
    ensures r >= 0.0
  {
    if |xs| == 0 then 0.0
    else
      SquareNonNegative(xs[0] - m);
      (xs[0] - m) * (xs[0] - m) + SquaredDeviation(xs[1..], m)
  }

  /** The arithmetic mean; `None` (JavaScript's `NaN`) for an empty list. */
  function Mean(xs: seq<real>): Option<real> {
    if |xs| == 0 then None else Some(Sum(xs) / |xs| as real)
  }

  /** Population variance (divides by the count, not by count - 1); `None` for an empty list. */
  function Variance(xs: seq<real>): (r: Option<real>)
    ensures r.Some? <==> |xs| > 0
    ensures r.Some? ==> r.value >= 0.0
  {
    if |xs| == 0 then None
    else Some(SquaredDeviation(xs, Sum(xs) / |xs| as real) / |xs| as real)
  }

  predicate Constant(xs: seq<real>) {
    forall i, j :: 0 <= i < |xs| && 0 <= j < |xs| ==> xs[i] == xs[j]
  }

  lemma {:induction false} SumConstant(xs: seq<real>, c: real)
    requires forall i :: 0 <= i < |xs| ==> xs[i] == c
    ensures Sum(xs) == |xs| as real * c
  {
    if |xs| > 0 {
      SumConstant(xs[1..], c);
    }
  }

  lemma {:induction false} SquaredDeviationAtValue(xs: seq<real>, c: real)
    requires forall i :: 0 <= i < |xs| ==> xs[i] == c
    ensures SquaredDeviation(xs, c) == 0.0
  {
    if |xs| > 0 {
      SquaredDeviationAtValue(xs[1..], c);
    }
  }

  /** A window whose values are all equal has population variance zero. */
  lemma ConstantVarianceZero(xs: seq<real>)
    requires |xs| > 0
    requires Constant(xs)
    ensures Variance(xs) == Some(0.0)
  {
    SumConstant(xs, xs[0]);
    assert Sum(xs) / |xs| as real == xs[0];
    SquaredDeviationAtValue(xs, xs[0]);
  }
}
