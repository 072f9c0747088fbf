/**
 * The library's own test vectors for `DateTimeRange`, restated over
 * concrete UTC instants in the year 2000 and checked against the model.
 */
module DateTimeRangeVectors {
  import opened Results
  import opened DateTimes
  import opened DateTimeRanges

  /** Unix timestamp of 2000-01-01 00:00:00 UTC. */
  const Midnight2000: int := 946_684_800

  /**
   * A whole-minute UTC instant in 2000, `day` counted from 1 January
   * (so 1 February is day 32).
   */
  function Utc2000(day: int, hour: int, minute: int): Instant {
    Instant(Midnight2000 + (day - 1) * 86_400 + hour * 3_600 + minute * 60, 0, "UTC")
  }

  /** Two successive constructions in a fresh program. */
  function ConstructPair(first: Request, second: Request): Result<(DateTimeRange, DateTimeRange), Exception> {
    var a :- Construct(EmptyHeap, first.since, first.till);
    var b :- Construct(a.heap, second.since, second.till);
    Success((a.range, b.range))
  }

  /** Both ranges construct and `first->intersects(second)` is `expected`. */
  predicate IntersectsVector(first: Request, second: Request, expected: bool) {
    var p := ConstructPair(first, second);
    p.Success? && Intersects(p.value.0, p.value.1) == expected
  }

  /** Same-day vectors: containment in either direction. */
  lemma SameDayContainment()
    ensures IntersectsVector(Request(Utc2000(1, 14, 45), Utc2000(1, 15, 15)),
                             Request(Utc2000(1, 14, 30), Utc2000(1, 15, 30)), true)
    ensures IntersectsVector(Request(Utc2000(1, 14, 30), Utc2000(1, 15, 30)),
                             Request(Utc2000(1, 14, 45), Utc2000(1, 15, 15)), true)
  {
  }

  /** Same-day vectors: partial overlap at either end, and equal values. */
  lemma SameDayOverlap()
    ensures IntersectsVector(Request(Utc2000(1, 15, 0), Utc2000(1, 15, 15)),
                             Request(Utc2000(1, 14, 45), Utc2000(1, 15, 5)), true)
    ensures IntersectsVector(Request(Utc2000(1, 14, 45), Utc2000(1, 15, 5)),
                             Request(Utc2000(1, 15, 0), Utc2000(1, 15, 15)), true)
    ensures IntersectsVector(Request(Utc2000(1, 14, 45), Utc2000(1, 15, 5)),
                             Request(Utc2000(1, 14, 45), Utc2000(1, 15, 5)), true)
  {
  }

  /** Same-day vectors: touching end points and a gap, in either order. */
  lemma SameDayDisjoint()
    ensures IntersectsVector(Request(Utc2000(1, 14, 45), Utc2000(1, 15, 0)),
                             Request(Utc2000(1, 15, 0), Utc2000(1, 15, 15)), false)
    ensures IntersectsVector(Request(Utc2000(1, 14, 45), Utc2000(1, 15, 0)),
                             Request(Utc2000(1, 20, 0), Utc2000(1, 20, 15)), false)
    ensures IntersectsVector(Request(Utc2000(1, 15, 0), Utc2000(1, 15, 15)),
                             Request(Utc2000(1, 14, 45), Utc2000(1, 15, 0)), false)
    ensures IntersectsVector(Request(Utc2000(1, 20, 0), Utc2000(1, 20, 15)),
                             Request(Utc2000(1, 14, 45), Utc2000(1, 15, 0)), false)
  {
  }

  /** Vectors spanning several days: containment in either direction. */
  lemma SeveralDaysContainment()
    ensures IntersectsVector(Request(Utc2000(2, 14, 45), Utc2000(2, 15, 15)),
                             Request(Utc2000(1, 14, 30), Utc2000(3, 15, 30)), true)
    ensures IntersectsVector(Request(Utc2000(1, 14, 30), Utc2000(3, 15, 30)),
                             Request(Utc2000(2, 14, 45), Utc2000(2, 15, 15)), true)
  {
  }

  /** Vectors spanning several days: overlap at either end. */
  lemma SeveralDaysOverlap()
    ensures IntersectsVector(Request(Utc2000(2, 15, 0), Utc2000(3, 15, 15)),
                             Request(Utc2000(1, 14, 45), Utc2000(2, 15, 5)), true)
    ensures IntersectsVector(Request(Utc2000(1, 14, 45), Utc2000(2, 15, 5)),
                             Request(Utc2000(2, 15, 0), Utc2000(3, 15, 15)), true)
    ensures IntersectsVector(Request(Utc2000(1, 14, 45), Utc2000(2, 15, 5)),
                             Request(Utc2000(2, 14, 45), Utc2000(3, 15, 5)), true)
  {
  }

  /**
   * Vectors spanning several days: disjoint ranges separated by a gap. The
   * pairs the tests title "without gap" lie a whole day apart in their data.
   */
  lemma SeveralDaysDisjoint()
    ensures IntersectsVector(Request(Utc2000(1, 14, 45), Utc2000(1, 15, 0)),
                             Request(Utc2000(2, 15, 0), Utc2000(2, 15, 15)), false)
    ensures IntersectsVector(Request(Utc2000(1, 14, 45), Utc2000(1, 15, 0)),
                             Request(Utc2000(32, 20, 0), Utc2000(32, 20, 15)), false)
    ensures IntersectsVector(Request(Utc2000(2, 15, 0), Utc2000(2, 15, 15)),
                             Request(Utc2000(1, 14, 45), Utc2000(1, 15, 0)), false)
    ensures IntersectsVector(Request(Utc2000(2, 20, 0), Utc2000(2, 20, 15)),
                             Request(Utc2000(1, 14, 45), Utc2000(1, 15, 0)), false)
  {
  }

  /** A range stored from the inputs, in a fresh program. */
  function Single(since: Instant, till: Instant): Result<DateTimeRange, Exception> {
    var c :- Construct(EmptyHeap, since, till);
    Success(c.range)
  }

  /**
   * `isEqual` vectors: equal values are equal; a different since, till or
   * both are not; the same wall-clock pair in another zone is not.
   */
  lemma IsEqualVectors(kiev: Instant, kievLater: Instant)
    requires TimezoneNameOf(kiev) == "Europe/Kiev" && TimezoneNameOf(kievLater) == "Europe/Kiev"
    ensures var r1 := Single(Utc2000(1, 14, 45), Utc2000(1, 15, 0));
            var r2 := Single(Utc2000(1, 14, 45), Utc2000(1, 15, 0));
            var r3 := Single(Utc2000(1, 12, 0), Utc2000(1, 15, 0));
            var r4 := Single(Utc2000(1, 14, 45), Utc2000(1, 20, 0));
            var r5 := Single(Utc2000(1, 12, 0), Utc2000(1, 21, 0));
            var r6 := Single(kiev, kievLater);
            && r1.Success? && r2.Success? && r3.Success? && r4.Success? && r5.Success? && r6.Success?
            && IsEqual(r1.value, r2.value)
            && !IsEqual(r1.value, r3.value)
            && !IsEqual(r1.value, r4.value)
            && !IsEqual(r1.value, r5.value)
            && !IsEqual(r1.value, r6.value)
  {
  }

  /** Inputs in two different zones are rejected whatever their instants. */
  lemma DifferentZonesAreRejected(h: Heap, since: Instant, till: Instant)
    requires TimezoneNameOf(since) == "Europe/Kiev" && TimezoneNameOf(till) == "Europe/Warsaw"
    ensures Construct(h, since, till) == Failure(LogicException("Datetimes have different timezones"))
  {
  }
}
