/**
 * PHP date-time values as the range classes see them: an absolute instant
 * (whole seconds since the Unix epoch plus a microsecond fraction) tagged
 * with the name of its timezone, and the object that carries it.
 */
module DateTimes {

  /** The microsecond fraction PHP keeps beside the integer timestamp. */
  type Micros = m: int | 0 <= m < 1_000_000

  /** A timezone identifier such as "UTC" or "Europe/Kiev", treated as opaque. */
  type TimezoneName = string

  /** An absolute point in time with the timezone it is displayed in. */
  datatype Instant = Instant(ts: int, micro: Micros, tz: TimezoneName)

  /**
   * A `DateTimeInterface` object: `handle` is its PHP object identity
   * (what `===` compares), `at` is its value.
   */
  datatype DateTimeObject = DateTimeObject(handle: nat, at: Instant)

  /** `getTimestamp()`: the whole seconds, fraction dropped. */
  function Timestamp(a: Instant): int {
    a.ts
  }

  /** `getTimezone()->getName()`. */
  function TimezoneNameOf(a: Instant): TimezoneName {
    a.tz
  }

  /**
   * PHP's `<` on two date-time objects: absolute time, seconds first and
   * then microseconds; the timezones are not consulted.
   */
  predicate Before(a: Instant, b: Instant) {
    a.ts < b.ts || (a.ts == b.ts && a.micro < b.micro)
  }

  /** PHP's `<=` on two date-time objects: the comparison is not "greater". */
  predicate AtOrBefore(a: Instant, b: Instant) {
    !Before(b, a)
  }

  /** Both denote the same absolute moment (possibly in different zones). */
  predicate SameMoment(a: Instant, b: Instant) {
    a.ts == b.ts && a.micro == b.micro
  }

  /**
   * The value of `DateTimeCloner::cloneIntoDateTimeImmutable`: the clone is
   * rebuilt from the 'Y-m-d H:i:s e' text of the original, so it keeps the
   * second and the timezone name and loses the fraction: the clone is the
   * start of the original's second, the same moment only for a whole second.
   */
  function CloneIntoImmutable(a: Instant): (c: Instant)
    ensures Timestamp(c) == Timestamp(a) && TimezoneNameOf(c) == TimezoneNameOf(a)
    ensures AtOrBefore(c, a)
    ensures SameMoment(c, a) <==> a.micro == 0
  {
    Instant(a.ts, 0, a.tz)
  }

  /** `Before` is the strict total order of absolute time. */
  lemma BeforeIsStrictTotalOrder(a: Instant, b: Instant, c: Instant)
    ensures !Before(a, a)
    ensures Before(a, b) ==> !Before(b, a)
    ensures Before(a, b) && Before(b, c) ==> Before(a, c)
    ensures Before(a, b) || Before(b, a) || SameMoment(a, b)
    ensures AtOrBefore(a, b) <==> Before(a, b) || SameMoment(a, b)
  {
  }
}
