/**
 * Waypoint down-sampling shared by the routing code: Python's stride slice
 * `waypoints[::step]`, the thresholds each router applies before it, and the
 * origin/destination pinning of the Google Routes path.
 */
module RouteSampling {

  /** A waypoint position (the source's "lat" and "lon"/"lng" keys). */
  datatype Point = Point(lat: real, lon: real)

  /** `s[::k]` for a positive step: the elements at indices 0, k, 2k, ... */
  function EveryNth<T>(s: seq<T>, k: nat): (r: seq<T>)
    requires k > 0
    ensures |r| == 0 <==> |s| == 0
    ensures |r| > 0 ==> r[0] == s[0] && (|r| - 1) * k < |s| <= |r| * k
    decreases |s|
  {
    if |s| == 0 then []
    else if |s| <= k then [s[0]]
    else
      var rest := EveryNth(s[k..], k);
      CeilStep(|rest|, |s|, k);
      [s[0]] + rest
  }

  lemma CeilStep(a: nat, n: nat, k: nat)
    requires 0 < k < n && 0 < a
    requires (a - 1) * k < n - k <= a * k
    ensures a * k < n <= (a + 1) * k
  {
    assert (a - 1) * k == a * k - k;
    assert (a + 1) * k == a * k + k;
  }

  /** Element `j` of the stride slice is element `j * k` of the input. */
  lemma {:induction false} EveryNthAt<T>(s: seq<T>, k: nat, j: nat)
    requires k > 0 && j < |EveryNth(s, k)|
    ensures j * k < |s| && EveryNth(s, k)[j] == s[j * k]
    decreases j
  {
    if j > 0 {
      assert |s| > k;
      EveryNthAt(s[k..], k, j - 1);
      MulStep(j, k);
    }
  }

  lemma MulStep(j: int, k: int)
    ensures (j - 1) * k + k == j * k
  {
  }

  lemma MulGe(a: nat, k: nat)
    requires k >= 1
    ensures a <= a * k
  {
    assert a * k == a + a * (k - 1);
  }

  lemma MulLeCancel(a: int, b: int, k: int)
    requires k > 0 && a * k <= b * k
    ensures a <= b
  {
    assert (b - a) * k == b * k - a * k;
  }

  /** The stride slice never lengthens the sequence. */
  lemma EveryNthNoLonger<T>(s: seq<T>, k: nat)
    requires k > 0
    ensures |EveryNth(s, k)| <= |s|
  {
    var r := EveryNth(s, k);
    if |r| > 0 {
      MulGe(|r| - 1, k);
    }
  }

  /** With `m * k <= |s|` the stride slice keeps at least `m` elements. */
  lemma EveryNthAtLeast<T>(s: seq<T>, k: nat, m: nat)
    requires k > 0 && m * k <= |s|
    ensures |EveryNth(s, k)| >= m
  {
    var r := EveryNth(s, k);
    if |r| == 0 {
      MulLeCancel(m, 0, k);
    } else {
      MulLeCancel(m, |r|, k);
    }
  }

  /** Stride `|s| / d` over a sequence longer than `threshold >= d` keeps at least `d` points. */
  lemma StrideByDivisorKeeps<T>(s: seq<T>, d: nat, threshold: nat)
    requires 0 < d <= threshold < |s|
    ensures |s| / d > 0
    ensures d <= |EveryNth(s, |s| / d)| <= |s|
  {
    var k := |s| / d;
    assert k * d <= |s|;
    assert d * k <= |s|;
    EveryNthAtLeast(s, k, d);
    EveryNthNoLonger(s, k);
  }

  /** `waypoints[0] = origin; waypoints[-1] = destination` when the list is non-empty. */
  function PinEndpoints(w: seq<Point>, origin: Point, dest: Point): (r: seq<Point>)
    ensures |r| == |w|
    ensures |w| > 0 ==> r[|w| - 1] == dest
    ensures |w| > 1 ==> r[0] == origin
    ensures forall i :: 0 < i < |w| - 1 ==> r[i] == w[i]
  {
    if |w| == 0 then w else w[0 := origin][|w| - 1 := dest]
  }

  /** Google Routes path of `get_route`: more than 15 points are strided by `n // 12`, then pinned. */
  function GoogleRouteWaypoints(w: seq<Point>, origin: Point, dest: Point): (r: seq<Point>)
    ensures |w| <= 15 ==> |r| == |w|
    ensures |w| > 0 ==> |r| > 0 && r[|r| - 1] == dest
  {
    var sampled := if |w| > 15 then EveryNth(w, |w| / 12) else w;
    PinEndpoints(sampled, origin, dest)
  }

  lemma GoogleRouteWaypointsShape(w: seq<Point>, origin: Point, dest: Point)
    ensures var r := GoogleRouteWaypoints(w, origin, dest);
      && |r| <= |w|
      && (|w| <= 15 ==> |r| == |w|)
      && (|w| > 15 ==> 12 <= |r| && forall j :: 0 < j < |r| - 1 ==> r[j] == EveryNth(w, |w| / 12)[j])
      && (|w| <= 15 ==> forall j :: 0 < j < |r| - 1 ==> r[j] == w[j])
      && (|w| > 0 ==> r[|r| - 1] == dest)
      && (|r| > 1 ==> r[0] == origin)
      && (|w| == 1 ==> r == [dest])
  {
    if |w| > 15 {
      StrideByDivisorKeeps(w, 12, 15);
    }
  }

  /** `_get_route_osrm`: more than 12 points are strided by `n // 10`; no pinning. */
  function OsrmFallbackWaypoints(w: seq<Point>): (r: seq<Point>)
    ensures |w| > 0 ==> |r| > 0 && r[0] == w[0]
    ensures |w| == 0 ==> r == []
  {
    if |w| > 12 then EveryNth(w, |w| / 10) else w
  }

  lemma OsrmFallbackWaypointsShape(w: seq<Point>)
    ensures var r := OsrmFallbackWaypoints(w);
      && |r| <= |w|
      && (|w| <= 12 ==> r == w)
      && (|w| > 12 ==> 10 <= |r|)
      && (|w| > 0 ==> r[0] == w[0])
  {
    if |w| > 12 {
      StrideByDivisorKeeps(w, 10, 12);
    }
  }

  /** The first telemetry service's `get_route`: more than 10 points are strided by `n // 10`. */
  function OsrmRouteWaypoints(w: seq<Point>): (r: seq<Point>)
    ensures |w| > 0 ==> |r| > 0 && r[0] == w[0]
    ensures |w| == 0 ==> r == []
  {
    if |w| > 10 then EveryNth(w, |w| / 10) else w
  }

  lemma OsrmRouteWaypointsShape(w: seq<Point>)
    ensures var r := OsrmRouteWaypoints(w);
      && |r| <= |w|
      && (|w| <= 10 ==> r == w)
      && (|w| > 10 ==> 10 <= |r|)
      && (|w| > 0 ==> r[0] == w[0])
  {
    if |w| > 10 {
      StrideByDivisorKeeps(w, 10, 10);
    }
  }
}
