/**
 * The report date-range constraint: a range of two given dates may span at
 * most 365 days, counted as the whole-day ceiling of the absolute distance
 * between them. A missing date skips the comparison.
 */
module DateRange {
  import opened Wrappers
  import opened Records

  const MaxRangeDays: int := 365

  function Abs(x: int): nat
  {
    if x < 0 then -x else x
  }

  /** `Math.ceil(x)` */
  function Ceil(x: real): (c: int)
    ensures x <= c as real < x + 1.0
  {
    -((-x).Floor)
  }

  /** `Math.ceil(Math.abs(end - start) / 86400000)` */
  function DiffDays(start: Instant, end: Instant): int
  {
    Ceil(Abs(end - start) as real / MsPerDay as real)
  }

  /**
   * `DateRangeValidator.validate`: with both dates given, the range is valid
   * exactly when the two instants are at most 365 whole days apart, in either order.
   */
  function Validate(startDate: Option<Instant>, endDate: Option<Instant>): (ok: bool)
    ensures startDate.None? || endDate.None? ==> ok
    ensures startDate.Some? && endDate.Some? ==>
      (ok <==> Abs(endDate.value - startDate.value) <= MaxRangeDays * MsPerDay)
  {
    if startDate.None? || endDate.None? then true
    else
      var ok := DiffDays(startDate.value, endDate.value) <= MaxRangeDays;
      CeilAtMost(Abs(endDate.value - startDate.value), MsPerDay, MaxRangeDays);
      ok
  }

  /** A whole-day ceiling is at most `n` exactly when the distance is at most `n` days. */
  lemma CeilAtMost(d: nat, unit: int, n: int)
    requires unit > 0
    ensures Ceil(d as real / unit as real) <= n <==> d <= n * unit
  {
    var x := d as real / unit as real;
    assert x * unit as real == d as real;
    if d <= n * unit {
      assert x <= n as real by {
        assert x * unit as real <= n as real * unit as real;
      }
    } else {
      assert x > n as real by {
        assert x * unit as real > n as real * unit as real;
      }
    }
  }

  /** Swapping the two dates never changes the verdict: a reversed range is not rejected as such. */
  lemma ValidateSymmetric(a: Option<Instant>, b: Option<Instant>)
    ensures Validate(a, b) == Validate(b, a)
  {
  }

  /** Exactly 365 days is accepted; one millisecond more is rejected. */
  lemma ValidateBoundary(start: Instant)
    ensures Validate(Some(start), Some(start + MaxRangeDays * MsPerDay))
    ensures !Validate(Some(start), Some(start + MaxRangeDays * MsPerDay + 1))
  {
  }
}
