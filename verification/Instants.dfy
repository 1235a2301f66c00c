/**
 Instants and durations as Go's time package computes them. An instant is a number of
 nanoseconds since 0001-01-01T00:00:00Z, so 0 is Go's zero time.
 */
module Instants {
  const SECOND := 1_000_000_000
  const HOUR := 3_600_000_000_000
  const TWO_64 := 0x1_0000_0000_0000_0000
  const MAX_INT64 := 0x7FFF_FFFF_FFFF_FFFF
  const MIN_INT64 := -0x8000_0000_0000_0000

  // The largest whole number of hours a Go Duration can hold.
  const MAX_HOURS := 2562047

  type int64 = x: int | MIN_INT64 <= x <= MAX_INT64

  /** Two's-complement wrap-around of int64 arithmetic. */
  function Wrap(x: int): int64 {
    (x - MIN_INT64) % TWO_64 + MIN_INT64
  }

  /** time.Time.Sub: the difference, clamped to what a Duration can hold. */
  function Since(now: int, then_: int): int64 {
    var d := now - then_;
    if d > MAX_INT64 then MAX_INT64 else if d < MIN_INT64 then MIN_INT64 else d
  }

  /** now.Sub(then) > time.Duration(hours) * time.Hour */
  predicate OlderThan(now: int, then_: int, hours: int64) {
    Since(now, then_) > Wrap(hours * HOUR)
  }

  /** The instant with its sub-second part removed, as RFC 3339 text without a fraction shows it. */
  function Truncate(instant: int): int {
    instant / SECOND * SECOND
  }

  lemma FreshnessInRange(now: int, then_: int, hours: int64)
    requires 0 < hours <= MAX_HOURS
    ensures OlderThan(now, then_, hours) <==> now - then_ > hours * HOUR
  {
    assert hours * HOUR <= MAX_HOURS * HOUR;
    var shifted := hours * HOUR - MIN_INT64;
    assert 0 <= shifted < TWO_64;
    assert shifted % TWO_64 == shifted;
  }

  lemma WrapNeverMax(hours: int64)
    ensures Wrap(hours * HOUR) != MAX_INT64
  {
    var q := (hours * HOUR - MIN_INT64) / TWO_64;
    assert Wrap(hours * HOUR) == hours * HOUR - TWO_64 * q;
    assert hours * HOUR - TWO_64 * q == 2 * (hours * 1_800_000_000_000 - 0x8000_0000_0000_0000 * q);
  }

  /** The int64 test agrees with exact arithmetic on every pair of instants precisely when the
      limit itself fits in a Duration. */
  lemma FreshnessExact(hours: int64)
    requires 0 < hours
    ensures (forall now: int, then_: int :: OlderThan(now, then_, hours) <==> now - then_ > hours * HOUR)
            <==> hours <= MAX_HOURS
  {
    if hours <= MAX_HOURS {
      forall now: int, then_: int
        ensures OlderThan(now, then_, hours) <==> now - then_ > hours * HOUR
      {
        FreshnessInRange(now, then_, hours);
      }
    } else {
      WrapNeverMax(hours);
      assert hours * HOUR >= (MAX_HOURS + 1) * HOUR > MAX_INT64;
      assert OlderThan(MAX_INT64, 0, hours);
      assert !(MAX_INT64 - 0 > hours * HOUR);
    }
  }

  lemma TruncateBounds(instant: int)
    ensures Truncate(instant) <= instant < Truncate(instant) + SECOND
  {
  }
}
