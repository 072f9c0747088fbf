/**
 * What `isEqual` and `intersects` promise: equality is an equivalence,
 * intersection coincides with strict overlap on properly ordered ranges of
 * distinct objects, and the boundary cases where the five-case test is not
 * symmetric.
 */
module DateTimeRangeProperties {
  import opened Results
  import opened DateTimes
  import opened DateTimeRanges

  /** `isEqual` is reflexive, symmetric and transitive. */
  lemma IsEqualIsEquivalence(a: DateTimeRange, b: DateTimeRange, c: DateTimeRange)
    ensures IsEqual(a, a)
    ensures IsEqual(a, b) ==> IsEqual(b, a)
    ensures IsEqual(a, b) && IsEqual(b, c) ==> IsEqual(a, c)
  {
  }

  /**
   * Two constructed ranges are `isEqual` exactly when their inputs agree
   * on the since and till seconds and zone names: which objects were
   * allocated and the inputs' sub-second fractions play no part.
   */
  lemma ConstructedRangesEqualIffInputsAgree(h1: Heap, s1: Instant, t1: Instant,
                                             h2: Heap, s2: Instant, t2: Instant)
    requires Construct(h1, s1, t1).Success? && Construct(h2, s2, t2).Success?
    ensures IsEqual(Construct(h1, s1, t1).value.range, Construct(h2, s2, t2).value.range) <==>
              && Timestamp(s1) == Timestamp(s2)
              && Timestamp(t1) == Timestamp(t2)
              && TimezoneNameOf(s1) == TimezoneNameOf(s2)
              && TimezoneNameOf(t1) == TimezoneNameOf(t2)
  {
  }

  /** Stored ranges that are `isEqual` and properly ordered intersect both ways. */
  lemma EqualProperRangesIntersect(a: DateTimeRange, b: DateTimeRange)
    requires WellStored(a) && WellStored(b)
    requires Proper(a)
    requires IsEqual(a, b)
    ensures Intersects(a, b) && Intersects(b, a)
  {
  }

  /** Case 1 makes every range intersect itself, even an empty or reversed one. */
  lemma IntersectsItself(r: DateTimeRange)
    ensures Intersects(r, r)
  {
  }

  /** On properly ordered ranges the five-case test is symmetric. */
  lemma IntersectsSymmetricWhenProper(a: DateTimeRange, b: DateTimeRange)
    requires Proper(a) && Proper(b)
    ensures Intersects(a, b) == Intersects(b, a)
  {
  }

  /**
   * Symmetry needs properly ordered ranges: a zero-length range [x, x]
   * intersects a range [x, y] that it starts (case 4), but [x, y] does not
   * intersect [x, x]. Both ranges are built by the constructor, so they
   * are distinct objects.
   */
  lemma ZeroLengthRangeIsNotSymmetric(x: Instant, y: Instant)
    requires TimezoneNameOf(x) == TimezoneNameOf(y)
    requires Timestamp(x) < Timestamp(y)
    ensures Construct(EmptyHeap, x, x).Success?
    ensures var point := Construct(EmptyHeap, x, x).value;
            var span := Construct(point.heap, x, y);
            && span.Success?
            && Intersects(point.range, span.value.range)
            && !Intersects(span.value.range, point.range)
  {
  }

  /** Properly ordered ranges that only share an end point do not intersect. */
  lemma TouchingRangesDoNotIntersect(a: DateTimeRange, b: DateTimeRange)
    requires Proper(a) && Proper(b)
    requires !SameBounds(a, b)
    requires SameMoment(a.till.at, b.since.at)
    ensures !Intersects(a, b) && !Intersects(b, a)
  {
  }

  /** Properly ordered ranges with a gap between them do not intersect. */
  lemma SeparatedRangesDoNotIntersect(a: DateTimeRange, b: DateTimeRange)
    requires Proper(a) && Proper(b)
    requires !SameBounds(a, b)
    requires Before(a.till.at, b.since.at)
    ensures !Intersects(a, b) && !Intersects(b, a)
  {
  }

  /** A properly ordered range inside another (ends may coincide) intersects it both ways. */
  lemma ContainedRangesIntersect(inner: DateTimeRange, outer: DateTimeRange)
    requires Proper(inner)
    requires AtOrBefore(outer.since.at, inner.since.at)
    requires AtOrBefore(inner.till.at, outer.till.at)
    ensures Intersects(inner, outer) && Intersects(outer, inner)
  {
  }

  /** A range overlapping the start of a later-ending one intersects it both ways. */
  lemma PartialOverlapIntersects(first: DateTimeRange, second: DateTimeRange)
    requires Before(first.since.at, second.since.at)
    requires Before(second.since.at, first.till.at)
    requires Before(first.till.at, second.till.at)
    ensures Intersects(first, second) && Intersects(second, first)
  {
  }

  /** The range with both bounds moved into zone `z`, objects and instants unchanged. */
  function InZone(r: DateTimeRange, z: TimezoneName): DateTimeRange {
    DateTimeRange(r.since.(at := r.since.at.(tz := z)), r.till.(at := r.till.at.(tz := z)))
  }

  /** `intersects` compares absolute instants and never reads a zone name. */
  lemma IntersectsIgnoresTimezones(a: DateTimeRange, b: DateTimeRange, za: TimezoneName, zb: TimezoneName)
    ensures Intersects(InZone(a, za), InZone(b, zb)) == Intersects(a, b)
  {
  }

  /**
   * In a heap built by constructions, case 1 fires exactly for a range and
   * itself, so on properly ordered ranges `intersects` is strict overlap.
   */
  lemma HeapIntersectsIffOverlap(h: Heap, i: nat, j: nat)
    requires Good(h)
    requires i < |h.ranges| && j < |h.ranges|
    requires Proper(h.ranges[i]) && Proper(h.ranges[j])
    ensures SameBounds(h.ranges[i], h.ranges[j]) <==> i == j
    ensures Intersects(h.ranges[i], h.ranges[j]) <==> StrictOverlap(h.ranges[i], h.ranges[j])
  {
  }

  /** The requests whose two inputs share a timezone name, in order. */
  function Accepted(reqs: seq<Request>): seq<Request>
    decreases |reqs|
  {
    if |reqs| == 0 then []
    else
      var last := reqs[|reqs| - 1];
      Accepted(reqs[..|reqs| - 1])
        + (if TimezoneNameOf(last.since) == TimezoneNameOf(last.till) then [last] else [])
  }

  /**
   * Replaying constructions stores one range per accepted request, in
   * order, each keeping the seconds and zone of its inputs; rejected
   * requests leave no trace.
   */
  lemma {:induction false} ReplayStoresAcceptedRequests(reqs: seq<Request>)
    ensures |Replay(reqs).ranges| == |Accepted(reqs)|
    ensures forall i | 0 <= i < |Accepted(reqs)| ::
              && KeepsSecondAndZone(Replay(reqs).ranges[i].since, Accepted(reqs)[i].since)
              && KeepsSecondAndZone(Replay(reqs).ranges[i].till, Accepted(reqs)[i].till)
    decreases |reqs|
  {
    if |reqs| > 0 {
      var prefix := reqs[..|reqs| - 1];
      ReplayStoresAcceptedRequests(prefix);
    }
  }
}
