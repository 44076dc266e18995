/**
 * One-dimensional intervals (src/tilemap-plus/Range.js), the result of projecting a
 * polygon onto an axis. The source's fresh range holds the sentinels min = +Infinity,
 * max = -Infinity; here that canonical empty range is the constructor `Empty`.
 * A `Span` whose min exceeds its max is empty too, exactly as `isEmpty` says.
 */
module Ranges {
  import opened Wrappers

  function Min(a: real, b: real): real { if a <= b then a else b }
  function Max(a: real, b: real): real { if a >= b then a else b }

  datatype Range = Empty | Span(min: real, max: real) {

    predicate IsEmpty() {
      Empty? || min > max
    }

    predicate ContainsPoint(p: real)
      ensures ContainsPoint(p) ==> !IsEmpty()
    {
      Span? && min <= p <= max
    }

    /**
     * Widens the range just enough to hold `p`. A sentinel bound compares as
     * +/-Infinity, so extending the canonical empty range gives [p, p].
     */
    function ExtendTo(p: real): (r: Range)
      ensures r.ContainsPoint(p)
      ensures forall q :: ContainsPoint(q) ==> r.ContainsPoint(q)
      ensures Empty? ==> r == Span(p, p)
      ensures Span? && !IsEmpty() ==> r == Span(Min(min, p), Max(max, p))
    {
      match this
      case Empty => Span(p, p)
      case Span(lo, hi) => Span(if lo > p then p else lo, if hi < p then p else hi)
    }

    /**
     * `this.min <= range.min && this.max > range.max`: the upper bound is compared
     * strictly, so no non-empty range contains itself.
     */
    predicate ContainsRange(r: Range) {
      match this
      case Empty => false
      case Span(lo, hi) =>
        match r
        case Empty => true
        case Span(lo2, hi2) => lo <= lo2 && hi > hi2
    }

    /** Containment with both bounds compared inclusively, as the tests expect. */
    predicate ContainsRangeClosed(r: Range) {
      match this
      case Empty => false
      case Span(lo, hi) =>
        match r
        case Empty => true
        case Span(lo2, hi2) => lo <= lo2 && hi2 <= hi
    }

    /** `NaN` (here `None`) when empty, max - min otherwise. */
    function Length(): (len: Option<real>)
      ensures len.None? <==> IsEmpty()
      ensures len.Some? ==> len.value >= 0.0 && len.value == max - min
    {
      if IsEmpty() then None else Some(max - min)
    }
  }

  /** `new Range()`: freshly made ranges are empty. */
  function NewRange(): (r: Range)
    ensures r.IsEmpty() && forall p :: !r.ContainsPoint(p)
  {
    Empty
  }

  /**
   * The overlap of two ranges, normalised to the canonical empty range when the
   * bounds cross.
   */
  function Intersection(r1: Range, r2: Range): (r: Range)
    ensures forall p :: r.ContainsPoint(p) <==> r1.ContainsPoint(p) && r2.ContainsPoint(p)
    ensures r.IsEmpty() ==> r == Empty
    ensures !r1.IsEmpty() && !r2.IsEmpty() ==>
      (r.IsEmpty() <==> r1.max < r2.min || r1.min > r2.max)
    ensures !r.IsEmpty() ==> r1.Span? && r2.Span? && r == Span(Max(r1.min, r2.min), Min(r1.max, r2.max))
  {
    match (r1, r2)
    case (Span(a, b), Span(c, d)) =>
      var lo, hi := Max(a, c), Min(b, d);
      if lo > hi then Empty else Span(lo, hi)
    case _ => Empty
  }

  /** The smallest range spanning both; an empty argument contributes nothing. */
  function Bound(r1: Range, r2: Range): (r: Range)
    ensures forall p :: r1.ContainsPoint(p) || r2.ContainsPoint(p) ==> r.ContainsPoint(p)
    ensures r1.Span? && r2.Span? ==> r == Span(Min(r1.min, r2.min), Max(r1.max, r2.max))
    ensures r1.Empty? ==> r == r2
    ensures r2.Empty? ==> r == r1
  {
    match (r1, r2)
    case (Empty, _) => r2
    case (_, Empty) => r1
    case (Span(a, b), Span(c, d)) => Span(Min(a, c), Max(b, d))
  }

  /** The length of a non-empty intersection is min(max) - max(min). */
  lemma IntersectionLength(r1: Range, r2: Range)
    requires !r1.IsEmpty() && !r2.IsEmpty()
    requires !(r1.max < r2.min || r1.min > r2.max)
    ensures Intersection(r1, r2).Length() == Some(Min(r1.max, r2.max) - Max(r1.min, r2.min))
  {
  }

  /** Since the upper bound is compared strictly, no non-empty range contains itself. */
  lemma NoRangeContainsItself(r: Range)
    requires !r.IsEmpty()
    ensures !r.ContainsRange(r) && r.ContainsRangeClosed(r)
  {
  }

  /** The inclusive test is exactly inclusion of the point sets, for a non-empty inner range. */
  lemma ContainsRangeClosedIsInclusion(outer: Range, inner: Range)
    requires !inner.IsEmpty()
    ensures outer.ContainsRangeClosed(inner) <==> forall p :: inner.ContainsPoint(p) ==> outer.ContainsPoint(p)
  {
    if forall p :: inner.ContainsPoint(p) ==> outer.ContainsPoint(p) {
      assert inner.ContainsPoint(inner.min) && inner.ContainsPoint(inner.max);
    }
  }
}
