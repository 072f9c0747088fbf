/**
 * The immutable `DateTimeRange`: construction with its timezone check,
 * the accessors, `isEqual` and the five-case `intersects`.
 *
 * PHP object identity matters to `intersects`, so every bound is a
 * `DateTimeObject` with a handle, and construction is modelled against a
 * `Heap` that hands out fresh handles for the two clones it stores.
 */
module DateTimeRanges {
  import opened Results
  import opened DateTimes

  /** A constructed range: the two `DateTimeImmutable` clones it owns. */
  datatype DateTimeRange = DateTimeRange(since: DateTimeObject, till: DateTimeObject)

  /** The exceptions the core throws. */
  datatype Exception = LogicException(message: string)

  const DifferentTimezonesMessage: string := "Datetimes have different timezones"

  /**
   * The ranges a program has built so far, in order of construction, and
   * the next unused object handle.
   */
  datatype Heap = Heap(ranges: seq<DateTimeRange>, next: nat)

  const EmptyHeap: Heap := Heap([], 0)

  /** What a successful `new DateTimeRange(...)` yields. */
  datatype Constructed = Constructed(heap: Heap, range: DateTimeRange)

  /** A stored bound: the second and the zone of the input, no fraction. */
  predicate KeepsSecondAndZone(stored: DateTimeObject, given: Instant) {
    && Timestamp(stored.at) == Timestamp(given)
    && TimezoneNameOf(stored.at) == TimezoneNameOf(given)
    && stored.at.micro == 0
  }

  /** Both bounds share one timezone name and are whole seconds. */
  predicate WellStored(r: DateTimeRange) {
    && TimezoneNameOf(r.since.at) == TimezoneNameOf(r.till.at)
    && r.since.at.micro == 0
    && r.till.at.micro == 0
  }

  /** The two ranges own no bound object in common. */
  predicate DisjointBounds(a: DateTimeRange, b: DateTimeRange) {
    && a.since.handle != b.since.handle
    && a.since.handle != b.till.handle
    && a.till.handle != b.since.handle
    && a.till.handle != b.till.handle
  }

  /**
   * The heap invariant: every range was stored well, its two bounds are
   * distinct objects allocated below `next`, and no two ranges share a bound.
   */
  ghost predicate Good(h: Heap) {
    && (forall i | 0 <= i < |h.ranges| ::
          && WellStored(h.ranges[i])
          && h.ranges[i].since.handle < h.next
          && h.ranges[i].till.handle < h.next
          && h.ranges[i].since.handle != h.ranges[i].till.handle)
    && (forall i, j | 0 <= i < |h.ranges| && 0 <= j < |h.ranges| && i != j ::
          DisjointBounds(h.ranges[i], h.ranges[j]))
  }

  /**
   * `new DateTimeRange($since, $till)`: the timezone names are checked
   * first, and only then are both inputs cloned into fresh objects.
   * No ordering of `since` and `till` is demanded.
   */
  function Construct(h: Heap, since: Instant, till: Instant): (r: Result<Constructed, Exception>)
    ensures r.Failure? <==> TimezoneNameOf(since) != TimezoneNameOf(till)
    ensures r.Failure? ==> r.error == LogicException(DifferentTimezonesMessage)
    ensures r.Success? ==>
              && r.value.heap.ranges == h.ranges + [r.value.range]
              && KeepsSecondAndZone(GetSince(r.value.range), since)
              && KeepsSecondAndZone(GetTill(r.value.range), till)
              && WellStored(r.value.range)
    ensures r.Success? && Good(h) ==> Good(r.value.heap)
  {
    if TimezoneNameOf(since) != TimezoneNameOf(till) then
      Failure(LogicException(DifferentTimezonesMessage))
    else
      var range := DateTimeRange(DateTimeObject(h.next, CloneIntoImmutable(since)),
                                 DateTimeObject(h.next + 1, CloneIntoImmutable(till)));
      Success(Constructed(Heap(h.ranges + [range], h.next + 2), range))
  }

  /**
   * `getSince()`: the stored clone itself, not a copy; on a stored range it
   * is a whole second in the zone the till bound shares.
   */
  function GetSince(r: DateTimeRange): (s: DateTimeObject)
    ensures WellStored(r) ==> s.at.micro == 0 && TimezoneNameOf(s.at) == TimezoneNameOf(r.till.at)
  {
    r.since
  }

  /**
   * `getTill()`: the stored clone itself, not a copy; on a stored range it
   * is a whole second in the zone the since bound shares.
   */
  function GetTill(r: DateTimeRange): (t: DateTimeObject)
    ensures WellStored(r) ==> t.at.micro == 0 && TimezoneNameOf(t.at) == TimezoneNameOf(r.since.at)
  {
    r.till
  }

  /**
   * `$range->isEqual($given)`: integer timestamps and timezone names of
   * both bounds agree pairwise. Between stored ranges this is exactly
   * equality of the bound values, whichever objects hold them.
   */
  function IsEqual(range: DateTimeRange, given: DateTimeRange): (equal: bool)
    ensures WellStored(range) && WellStored(given) ==>
              (equal <==> range.since.at == given.since.at && range.till.at == given.till.at)
  {
    && Timestamp(range.since.at) == Timestamp(GetSince(given).at)
    && Timestamp(range.till.at) == Timestamp(GetTill(given).at)
    && TimezoneNameOf(range.since.at) == TimezoneNameOf(GetSince(given).at)
    && TimezoneNameOf(range.till.at) == TimezoneNameOf(GetTill(given).at)
  }

  /** PHP's `===` on objects: the same object, whatever its value. */
  predicate Identical(x: DateTimeObject, y: DateTimeObject) {
    x.handle == y.handle
  }

  /** The range starts strictly before it ends. */
  predicate Proper(r: DateTimeRange) {
    Before(r.since.at, r.till.at)
  }

  /** The textbook overlap of two open intervals. */
  predicate StrictOverlap(a: DateTimeRange, b: DateTimeRange) {
    Before(a.since.at, b.till.at) && Before(b.since.at, a.till.at)
  }

  /** Case 1 of `intersects`: both bounds are the very same objects. */
  predicate SameBounds(range: DateTimeRange, given: DateTimeRange) {
    Identical(range.since, GetSince(given)) && Identical(range.till, GetTill(given))
  }

  /**
   * `$range->intersects($given)`: the `switch (true)` whose five cases fall
   * through to `return true`. No timezone is read and nothing is thrown.
   */
  function Intersects(range: DateTimeRange, given: DateTimeRange): (r: bool)
    ensures SameBounds(range, given) ==> r
    ensures !SameBounds(range, given) && Proper(range) && Proper(given) ==>
              (r <==> StrictOverlap(range, given))
  {
    var s := GetSince(given).at;
    var t := GetTill(given).at;
    || SameBounds(range, given)
    || (Before(s, range.since.at) && Before(range.till.at, t))
    || (Before(range.since.at, s) && Before(t, range.till.at))
    || (AtOrBefore(s, range.since.at) && Before(range.since.at, t))
    || (Before(s, range.till.at) && AtOrBefore(range.till.at, t))
  }

  /** A construction request: the two inputs of one `new DateTimeRange`. */
  datatype Request = Request(since: Instant, till: Instant)

  /**
   * The heap after a program performs the given constructions in order;
   * a construction that throws stores nothing and allocates nothing.
   */
  function Replay(reqs: seq<Request>): (h: Heap)
    ensures Good(h)
    ensures |h.ranges| <= |reqs|
    decreases |reqs|
  {
    if |reqs| == 0 then EmptyHeap
    else
      var before := Replay(reqs[..|reqs| - 1]);
      var last := reqs[|reqs| - 1];
      match Construct(before, last.since, last.till)
      case Success(c) => c.heap
      case Failure(_) => before
  }
}
