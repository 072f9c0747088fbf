# DateTimeRange and DateRange — a Dafny model

This project models the range value types of the fre5h DateTime PHP library:

- `DateTimeRange` is an immutable pair of `DateTimeImmutable` bounds. Its constructor rejects bounds whose timezone names differ. It keeps private clones of the inputs. It offers `getSince`/`getTill`, `isEqual` and the five-case `intersects`.
- `DateRange` is a mutable holder of two date-time objects with fluent setters.

A PHP date-time value is an `Instant`: whole seconds since the epoch, a microsecond fraction and a timezone name.
PHP's `<` on date-time objects compares seconds and then microseconds; `<=` is "not greater".
`getTimestamp()` gives the seconds.
Object identity, which `===` compares in case 1 of `intersects`, is an explicit `handle` on each `DateTimeObject`.
A `Heap` stands for the PHP object allocator. It records the ranges built so far and the next free handle, so each construction stores two fresh objects.

Modules:
- `Results`: the `Result` type for operations that throw.
- `DateTimes`: instants, their order, and the clone.
- `DateTimeRanges`: construction, accessors, `isEqual`, `intersects`, and the heap invariant.
- `DateTimeRangeProperties`: the interval lemmas.
- `DateTimeRangeVectors`: the library's own test vectors.
- `DateRanges`: the mutable `DateRange` class.

The code and its tests disagree in three places. The model follows the code each time:
- `intersects` checks no timezones, although one test expects a LogicException for ranges in different zones.
- `getTimezone`/`getTimezoneName` are declared in the interface but have no implementation.
- The `DateRange` tests expect a timezone check and day-granular `isEqual`, which `DateRange` does not have.

## Model

| member | source | states |
|---|---|---|
| DateTimeRanges.Construct | src/DateTimeRange.php:36-58 | Construction fails with LogicException "Datetimes have different timezones" exactly when the two timezone names differ, and then stores nothing. Otherwise it stores one new range, whatever the order of the bounds. The bound each of `getSince`/`getTill` returns keeps the second and the zone name of its input and loses the fraction. Both bounds share one zone. Construction keeps the heap invariant: the two clones are fresh objects. |
| DateTimeRanges.Replay | src/DateTimeRange.php:38-41 | Any sequence of constructions leaves a heap where each range owns two distinct bound objects, no two ranges share a bound object, and every range is single-zone with whole-second bounds. |
| DateTimeRangeProperties.ReplayStoresAcceptedRequests | src/DateTimeRange.php:100-105 | Over a run of constructions, exactly the requests with matching zone names produce ranges, in order, each keeping its inputs' seconds and zone; the others leave no trace. |
| DateTimeRangeVectors.DifferentZonesAreRejected | tests/DateTimeRangeTest.php:45-54 | Bounds in Europe/Kiev and Europe/Warsaw are rejected with the LogicException message, whatever their instants. |
| DateTimeRangeProperties.IsEqualIsEquivalence | src/DateTimeRange.php:63-72 | `isEqual` is reflexive, symmetric and transitive. |
| DateTimeRangeProperties.ConstructedRangesEqualIffInputsAgree | src/DateTimeRange.php:63-72 | Two constructed ranges are `isEqual` exactly when their inputs have the same since second, till second, since zone name and till zone name. Which objects were allocated and the inputs' sub-second fractions make no difference. |
| DateTimeRanges.IsEqual | src/DateTimeRange.php:63-72 | Between two stored ranges, `isEqual` holds exactly when the since values are the same instant and the till values are the same instant, whichever objects hold them. |
| DateTimeRanges.GetSince | src/DateTimeRange.php:47-50 | `getSince` returns the stored clone. On a stored range it is a whole second and has the till bound's zone name. |
| DateTimeRanges.GetTill | src/DateTimeRange.php:55-58 | `getTill` returns the stored clone. On a stored range it is a whole second and has the since bound's zone name. |
| DateTimes.CloneIntoImmutable | src/DateTimeCloner.php:55-68 | The clone keeps the original's second and zone name and is the start of that second. It is the same moment as the original exactly when the original has no fraction. |
| DateTimeRangeVectors.IsEqualVectors | tests/DateTimeRangeTest.php:78-111 | Equal values compare equal. Changing since, till or both breaks equality, and so does the same wall-clock pair in another zone. |
| DateTimeRanges.Intersects | src/DateTimeRange.php:82-91 | If both bounds are the very same objects (case 1), the result is true. For distinct objects with since before till on both sides, the result is true exactly when each range starts strictly before the other ends. |
| DateTimeRangeProperties.IntersectsItself | src/DateTimeRange.php:83 | Every range intersects itself through object identity, including empty and reversed ranges. |
| DateTimeRangeProperties.IntersectsSymmetricWhenProper | src/DateTimeRange.php:84-87 | For two ranges that each start strictly before they end, `a.intersects(b) == b.intersects(a)`. |
| DateTimeRangeProperties.ZeroLengthRangeIsNotSymmetric | src/DateTimeRange.php:86 | Without that condition symmetry fails. A constructed zero-length range [x, x] intersects a later-constructed [x, y] through case 4, but [x, y] does not intersect [x, x]. |
| DateTimeRangeProperties.TouchingRangesDoNotIntersect | tests/DateTimeRangeTest.php:192-228 | Two properly ordered ranges of distinct objects that only share an end point do not intersect, in either order. |
| DateTimeRangeProperties.SeparatedRangesDoNotIntersect | tests/DateTimeRangeTest.php:205-215 | Two properly ordered ranges of distinct objects with a gap between them do not intersect, in either order. |
| DateTimeRangeProperties.ContainedRangesIntersect | src/DateTimeRange.php:84-87 | A properly ordered range inside another one, with its ends allowed to coincide, intersects it in both directions. |
| DateTimeRangeProperties.PartialOverlapIntersects | src/DateTimeRange.php:86-87 | A range that overlaps the start of a range ending later intersects it in both directions. |
| DateTimeRangeProperties.IntersectsIgnoresTimezones | src/DateTimeRange.php:77-92 | `intersects` compares absolute instants only: moving either range's bounds to any zone name leaves the result unchanged. It is total, so it never throws. |
| DateTimeRangeProperties.HeapIntersectsIffOverlap | src/DateTimeRange.php:40-41 | Among constructed ranges, case 1 fires exactly for a range and itself, because bounds are fresh clones. So on properly ordered ranges `intersects` is strict overlap. |
| DateTimeRangeProperties.EqualProperRangesIntersect | src/DateTimeRange.php:63-87 | Two stored ranges that are `isEqual`, with since before till, intersect in both directions. |
| DateTimeRangeVectors.SameDayContainment | tests/DateTimeRangeTest.php:127-150 | Same-day containment, in either direction, intersects. |
| DateTimeRangeVectors.SameDayOverlap | tests/DateTimeRangeTest.php:152-189 | Same-day overlap at either end intersects, and so do two distinct ranges with equal values. |
| DateTimeRangeVectors.SameDayDisjoint | tests/DateTimeRangeTest.php:191-241 | Same-day ranges that touch, or are separated by a gap, do not intersect in either order. |
| DateTimeRangeVectors.SeveralDaysContainment | tests/DateTimeRangeTest.php:249-273 | Containment across days, in either direction, intersects. |
| DateTimeRangeVectors.SeveralDaysOverlap | tests/DateTimeRangeTest.php:275-312 | Overlap at either end across days intersects, including two ranges shifted by one day. |
| DateTimeRangeVectors.SeveralDaysDisjoint | tests/DateTimeRangeTest.php:314-364 | Ranges on different days separated by a gap do not intersect, in either order. The test titles call two of these pairs "without gap", but their data lies a whole day apart. |
| DateTimes.BeforeIsStrictTotalOrder | src/DateTimeRange.php:84-87 | PHP's `<` on date-time objects is a strict total order on absolute time, and `<=` is "before or the same moment". |
| DateRanges.DateRange.GetSince | src/DateRange.php:41-44 | `getSince` returns the object currently stored. |
| DateRanges.DateRange.GetTill | src/DateRange.php:61-64 | `getTill` returns the object currently stored. |
| DateRanges.DateRange.SetSince | src/DateRange.php:51-56 | `setSince(x)` stores x as since, leaves till unchanged and returns the same object. |
| DateRanges.DateRange.SetTill | src/DateRange.php:71-76 | `setTill(x)` stores x as till, leaves since unchanged and returns the same object. |
| DateRanges.SetBothChained | src/DateRange.php:55 | Chaining `setSince(s)->setTill(t)` acts on one range object, which ends up holding both s and t. |

The `DateRange` constructor (src/DateRange.php:32-36) stores both objects as given, with no zone or order check. Its `ensures` states that, but constructors carry no row here.

## Left out

- Day enumeration, the clock ("now"), timezone creation and format parsing: they are only declared in src/DateTimeHelperInterface.php and have no implementation to model.
- `getTimezone`/`getTimezoneName` (src/DateTimeRangeInterface.php:25-30) are declared but not implemented by `DateTimeRange`.
- The failure path of `DateTimeCloner` (UnexpectedValueException) depends on PHP's own date parsing failing. The clone is treated as keeping the second and the zone name. `DateTimeCloner::cloneIntoDateTime`, `DateTimeHelper` and `TimeConstants` are not part of this model.
- Timezone database semantics (offsets, daylight saving, aliases): zone names are opaque strings. A clone made in a repeated daylight-saving hour is taken to keep its absolute second.
- Precision below a microsecond; `isEqual`/`intersects` against other implementations of the range interface. Only `DateTimeRange` arguments are modelled.
- PHP may reuse the handle of a freed object. The heap keeps every constructed range alive, so its handles are never reused.
- `DateRange` keeps the caller's date-time objects by reference, so a caller who later mutates a `\DateTime` it passed in changes what `getSince`/`getTill` return. The model's date-time objects are immutable values and cannot represent that later mutation.
- Exception classes are a type hierarchy only; the model keeps just the LogicException message.
- Tests built on wall-clock "now"/"tomorrow" are nondeterministic and are not restated.
