/**
 * The timing arithmetic both telemetry services perform: each waypoint's
 * segment distance from its predecessor, the share of the trip's duration
 * allotted to each segment in proportion to its distance, running totals,
 * and the exposure time until the next waypoint. The great-circle distance
 * between two points is a parameter.
 */
module TripTiming {
  import opened RouteSampling

  /** Total of the first `k` elements, accumulated in order as the running totals are. */
  function PrefixSum(s: seq<real>, k: nat): (total: real)
    requires k <= |s|
    ensures AllNonNegative(s) ==> total >= 0.0
  {
    if k == 0 then 0.0 else PrefixSum(s, k - 1) + s[k - 1]
  }

  /** Python's `sum(s)`. */
  function Sum(s: seq<real>): real {
    PrefixSum(s, |s|)
  }

  predicate AllNonNegative(s: seq<real>) {
    forall i :: 0 <= i < |s| ==> s[i] >= 0.0
  }

  /** Running totals of non-negative amounts never decrease. */
  lemma {:induction false} PrefixSumMonotone(s: seq<real>, i: nat, j: nat)
    requires AllNonNegative(s) && i <= j <= |s|
    ensures PrefixSum(s, i) <= PrefixSum(s, j)
    decreases j
  {
    if i < j {
      PrefixSumMonotone(s, i, j - 1);
    }
  }

  /** Non-negative amounts that total zero are all zero. */
  lemma {:induction false} ZeroSumAllZero(s: seq<real>, k: nat)
    requires AllNonNegative(s) && k <= |s| && PrefixSum(s, k) == 0.0
    ensures forall i :: 0 <= i < k ==> s[i] == 0.0
    decreases k
  {
    if k > 0 {
      PrefixSumMonotone(s, 0, k - 1);
      ZeroSumAllZero(s, k - 1);
    }
  }

  /** A distance oracle that, like the haversine formula, is never negative. */
  ghost predicate NonNegativeDistance(dist: (Point, Point) -> real) {
    forall p, q :: dist(p, q) >= 0.0
  }

  /** The segment distances: 0 for the first waypoint, then the distance from each predecessor. */
  function SegmentDistances(w: seq<Point>, dist: (Point, Point) -> real): (segs: seq<real>)
    ensures |segs| == |w|
  {
    seq(|w|, i requires 0 <= i < |w| => if i == 0 then 0.0 else dist(w[i - 1], w[i]))
  }

  lemma SegmentDistancesShape(w: seq<Point>, dist: (Point, Point) -> real)
    ensures var segs := SegmentDistances(w, dist);
      && |segs| == |w|
      && (|w| > 0 ==> segs[0] == 0.0)
      && (forall i :: 0 < i < |w| ==> segs[i] == dist(w[i - 1], w[i]))
  {
  }

  lemma SegmentDistancesNonNegative(w: seq<Point>, dist: (Point, Point) -> real)
    requires NonNegativeDistance(dist)
    ensures AllNonNegative(SegmentDistances(w, dist))
  {
  }

  /** `(d / divisor) * hours if divisor > 0 else 0`. */
  function SegmentTime(d: real, divisor: real, hours: real): (t: real)
    ensures divisor > 0.0 ==> t * divisor == d * hours
    ensures divisor <= 0.0 ==> t == 0.0
  {
    if divisor > 0.0 then d / divisor * hours else 0.0
  }

  lemma SegmentTimeNonNegative(d: real, divisor: real, hours: real)
    requires d >= 0.0 && hours >= 0.0
    ensures SegmentTime(d, divisor, hours) >= 0.0
  {
    if divisor > 0.0 {
      assert d / divisor >= 0.0;
    }
  }

  /** Cumulative time after the first `k` segments. */
  function PrefixTime(segs: seq<real>, divisor: real, hours: real, k: nat): (t: real)
    requires k <= |segs|
    ensures divisor <= 0.0 ==> t == 0.0
  {
    if k == 0 then 0.0 else PrefixTime(segs, divisor, hours, k - 1) + SegmentTime(segs[k - 1], divisor, hours)
  }

  /** Time spent from waypoint `i` to the next one; the last waypoint gets 0. */
  function ExposureTime(segs: seq<real>, divisor: real, hours: real, i: nat): (e: real)
    requires i < |segs|
    ensures i == |segs| - 1 ==> e == 0.0
    ensures i < |segs| - 1 ==>
      e == PrefixTime(segs, divisor, hours, i + 2) - PrefixTime(segs, divisor, hours, i + 1)
  {
    if i < |segs| - 1 then SegmentTime(segs[i + 1], divisor, hours) else 0.0
  }

  /** With non-negative distances and duration, cumulative time never decreases. */
  lemma {:induction false} PrefixTimeMonotone(segs: seq<real>, divisor: real, hours: real, i: nat, j: nat)
    requires AllNonNegative(segs) && hours >= 0.0 && i <= j <= |segs|
    ensures PrefixTime(segs, divisor, hours, i) <= PrefixTime(segs, divisor, hours, j)
    decreases j
  {
    if i < j {
      PrefixTimeMonotone(segs, divisor, hours, i, j - 1);
      SegmentTimeNonNegative(segs[j - 1], divisor, hours);
    }
  }

  /** Allotting time in proportion to distance scales the distance covered. */
  lemma {:induction false} PrefixTimeScales(segs: seq<real>, divisor: real, hours: real, k: nat)
    requires divisor > 0.0 && k <= |segs|
    ensures PrefixTime(segs, divisor, hours, k) == PrefixSum(segs, k) / divisor * hours
    decreases k
  {
    if k > 0 {
      PrefixTimeScales(segs, divisor, hours, k - 1);
      var a, b := PrefixSum(segs, k - 1), segs[k - 1];
      assert (a + b) / divisor * hours == a / divisor * hours + b / divisor * hours;
    }
  }

  /** When the divisor is the segment total, the last cumulative time is the trip's duration. */
  lemma TotalTimeIsDuration(segs: seq<real>, hours: real)
    requires Sum(segs) > 0.0
    ensures PrefixTime(segs, Sum(segs), hours, |segs|) == hours
  {
    PrefixTimeScales(segs, Sum(segs), hours, |segs|);
  }

  /** With non-negative distances summing to 0, no time is allotted whatever the divisor. */
  lemma {:induction false} ZeroDistanceZeroTime(segs: seq<real>, divisor: real, hours: real, k: nat)
    requires AllNonNegative(segs) && Sum(segs) == 0.0 && k <= |segs|
    ensures PrefixTime(segs, divisor, hours, k) == 0.0
    decreases k
  {
    ZeroSumAllZero(segs, |segs|);
    if k > 0 {
      ZeroDistanceZeroTime(segs, divisor, hours, k - 1);
    }
  }
}
