/**
 * The mutable `DateRange` holder: it stores the two objects it is given,
 * checks nothing, and its fluent setters change one bound in place.
 */
module DateRanges {
  import opened DateTimes

  class DateRange {
    var since: DateTimeObject
    var till: DateTimeObject

    /** `new DateRange($since, $till)`: both objects stored as given. */
    constructor (since: DateTimeObject, till: DateTimeObject)
      ensures this.since == since && this.till == till
    {
      this.since := since;
      this.till := till;
    }

    /** `getSince()`: the object currently stored. */
    method GetSince() returns (s: DateTimeObject)
      ensures s == since
    {
      s := since;
    }

    /** `getTill()`: the object currently stored. */
    method GetTill() returns (t: DateTimeObject)
      ensures t == till
    {
      t := till;
    }

    /** `setSince($since)`: replaces since, keeps till, returns `$this`. */
    method SetSince(s: DateTimeObject) returns (self: DateRange)
      modifies this
      ensures since == s && till == old(till)
      ensures self == this
    {
      since := s;
      self := this;
    }

    /** `setTill($till)`: replaces till, keeps since, returns `$this`. */
    method SetTill(t: DateTimeObject) returns (self: DateRange)
      modifies this
      ensures till == t && since == old(since)
      ensures self == this
    {
      till := t;
      self := this;
    }
  }

  /**
   * `$range->setSince($s)->setTill($t)`: the chain acts on one object, so
   * the range ends up holding both new bounds.
   */
  method SetBothChained(range: DateRange, s: DateTimeObject, t: DateTimeObject) returns (self: DateRange)
    modifies range
    ensures self == range
    ensures range.since == s && range.till == t
  {
    var afterSince := range.SetSince(s);
    self := afterSince.SetTill(t);
  }
}
