/**
 * The arithmetic the reports use on their numbers: JavaScript's `Math.round`,
 * the `Math.round(x * 100) / 100` and `Math.round(x * 10) / 10` idioms, and the
 * guarded ratios `d > 0 ? n / d : 0` that keep every rate free of division by zero.
 */
module Numeric {

  /** JavaScript's `Math.round`: the nearest integer, halves rounded towards +infinity. */
  function Round(x: real): (r: int)
    ensures r as real - 0.5 <= x < r as real + 0.5
  {
    (x + 0.5).Floor
  }

  lemma RoundOfInt(n: int)
    ensures Round(n as real) == n
  {
  }

  lemma RoundMonotone(x: real, y: real)
    requires x <= y
    ensures Round(x) <= Round(y)
  {
  }

  /** `Math.round(x * 100) / 100`: two decimal places. */
  function Round2(x: real): (r: real)
    ensures (r * 100.0).Floor as real == r * 100.0
    ensures x - 0.005 < r <= x + 0.005
  {
    var k := Round(x * 100.0);
    assert k as real / 100.0 == k as real * 0.01;
    assert (k as real / 100.0) * 100.0 == k as real;
    k as real / 100.0
  }

  /** `Math.round(x * 10) / 10`: one decimal place. */
  function Round1(x: real): (r: real)
    ensures (r * 10.0).Floor as real == r * 10.0
    ensures x - 0.05 < r <= x + 0.05
  {
    var k := Round(x * 10.0);
    assert k as real / 10.0 == k as real * 0.1;
    assert (k as real / 10.0) * 10.0 == k as real;
    k as real / 10.0
  }

  /** The two clauses of `Round2`'s contract pin its result: one multiple of 0.01 lies in the window. */
  lemma Round2Unique(x: real, r: real)
    requires (r * 100.0).Floor as real == r * 100.0
    requires x - 0.005 < r <= x + 0.005
    ensures r == Round2(x)
  {
    var s := Round2(x);
    var a := (r * 100.0).Floor;
    var b := (s * 100.0).Floor;
    assert x * 100.0 - 0.5 < a as real <= x * 100.0 + 0.5;
    assert x * 100.0 - 0.5 < b as real <= x * 100.0 + 0.5;
    assert a == b;
  }

  /** The two clauses of `Round1`'s contract pin its result: one multiple of 0.1 lies in the window. */
  lemma Round1Unique(x: real, r: real)
    requires (r * 10.0).Floor as real == r * 10.0
    requires x - 0.05 < r <= x + 0.05
    ensures r == Round1(x)
  {
    var s := Round1(x);
    var a := (r * 10.0).Floor;
    var b := (s * 10.0).Floor;
    assert x * 10.0 - 0.5 < a as real <= x * 10.0 + 0.5;
    assert x * 10.0 - 0.5 < b as real <= x * 10.0 + 0.5;
    assert a == b;
  }

  lemma Round2Zero()
    ensures Round2(0.0) == 0.0
  {
  }

  lemma Round1Zero()
    ensures Round1(0.0) == 0.0
  {
  }

  /** Rounding to two places keeps a percentage inside [0, 100]. */
  lemma Round2Percent(x: real)
    requires 0.0 <= x <= 100.0
    ensures 0.0 <= Round2(x) <= 100.0
  {
    RoundMonotone(0.0, x * 100.0);
    RoundMonotone(x * 100.0, 10000.0);
    RoundOfInt(0);
    RoundOfInt(10000);
  }

  /** Rounding to an integer keeps a percentage inside [0, 100]. */
  lemma RoundPercent(x: real)
    requires 0.0 <= x <= 100.0
    ensures 0 <= Round(x) <= 100
  {
    RoundMonotone(0.0, x);
    RoundMonotone(x, 100.0);
    RoundOfInt(0);
    RoundOfInt(100);
  }

  /** `d > 0 ? n / d : 0` */
  function Ratio(n: int, d: int): (r: real)
    ensures d <= 0 ==> r == 0.0
    ensures d > 0 ==> r * d as real == n as real
  {
    if d > 0 then n as real / d as real else 0.0
  }

  /** `d > 0 ? (n / d) * 100 : 0` */
  function Percent(n: int, d: int): (r: real)
    ensures d <= 0 ==> r == 0.0
    ensures d > 0 ==> r * d as real == 100.0 * n as real
    ensures 0 <= n <= d ==> 0.0 <= r <= 100.0
  {
    if d > 0 then (n as real / d as real) * 100.0 else 0.0
  }

  /** `total > 0 ? Math.round(accepted / total * 100) : 0`: a whole percentage, 0 without a total. */
  function RoundedRate(accepted: int, total: int): (r: int)
    ensures total <= 0 ==> r == 0
    ensures 0 <= accepted <= total ==> 0 <= r <= 100
    ensures total > 0 ==> (r as real - 0.5) * (total as real) <= 100.0 * (accepted as real) < (r as real + 0.5) * (total as real)
  {
    if total > 0 then
      RoundedPercent(accepted, total);
      Round(Percent(accepted, total))
    else 0
  }

  /** `Math.round(n / d * 100)` for a positive `d`: the percentage nearest to n/d, halves rounded up. */
  lemma RoundedPercent(n: int, d: int)
    requires d > 0
    ensures 0 <= n <= d ==> 0 <= Round(Percent(n, d)) <= 100
    ensures (Round(Percent(n, d)) as real - 0.5) * (d as real) <= 100.0 * (n as real)
    ensures 100.0 * (n as real) < (Round(Percent(n, d)) as real + 0.5) * (d as real)
  {
    var x := Percent(n, d);
    var r := Round(x) as real;
    if 0 <= n <= d { RoundPercent(x); }
    assert x * (d as real) == 100.0 * (n as real);
    ScaleWeak(r - 0.5, x, d as real);
    ScaleStrict(x, r + 0.5, d as real);
    assert x * (d as real) < (r + 0.5) * (d as real);
    assert 100.0 * (n as real) < (r + 0.5) * (d as real);
  }

  /** `n > 0 ? Math.round(total / n) : 0`: a rounded average that is 0 for an empty sample. */
  function RoundedMean(total: int, n: int): (r: int)
    ensures n <= 0 ==> r == 0
    ensures n > 0 ==> (r as real - 0.5) * n as real <= total as real < (r as real + 0.5) * n as real
  {
    if n > 0 then
      var q := total as real / n as real;
      var r := Round(q);
      assert q * n as real == total as real;
      ScaleStrict(q, r as real + 0.5, n as real);
      ScaleWeak(r as real - 0.5, q, n as real);
      assert total as real < (r as real + 0.5) * n as real;
      r
    else 0
  }

  lemma ScaleStrict(a: real, b: real, c: real)
    requires a < b && c > 0.0
    ensures a * c < b * c
  {
  }

  lemma ScaleWeak(a: real, b: real, c: real)
    requires a <= b && c > 0.0
    ensures a * c <= b * c
  {
  }
  /** `xs.reduce((a, b) => a + b, 0)` over real samples. */
  function SumReal(xs: seq<real>): real
  {
    if xs == [] then 0.0 else xs[0] + SumReal(xs[1..])
  }

  /** `xs.length > 0 ? sum / xs.length : 0`: the mean of a sample, 0 for an empty one. */
  function Mean(xs: seq<real>): (m: real)
    ensures |xs| == 0 ==> m == 0.0
    ensures |xs| > 0 ==> m * |xs| as real == SumReal(xs)
  {
    if |xs| > 0 then SumReal(xs) / |xs| as real else 0.0
  }

  lemma {:induction false} SumRealNonNegative(xs: seq<real>)
    requires forall i :: 0 <= i < |xs| ==> xs[i] >= 0.0
    ensures SumReal(xs) >= 0.0
  {
    if xs != [] {
      assert forall i :: 0 <= i < |xs[1..]| ==> xs[1..][i] == xs[i + 1];
      SumRealNonNegative(xs[1..]);
    }
  }

  /** The mean of non-negative samples is non-negative. */
  lemma MeanNonNegative(xs: seq<real>)
    requires forall i :: 0 <= i < |xs| ==> xs[i] >= 0.0
    ensures Mean(xs) >= 0.0
  {
    SumRealNonNegative(xs);
  }
}
