/**
 * The first telemetry service (backend/services/telemetry_service.py):
 * per-waypoint telemetry with proportional timing, and the OpenWeatherMap
 * fallback reading. Weather lookups are an oracle: `weather[i]` is what the
 * lookup for waypoint `i` returned, `None` when it failed or had no key.
 */
module Telemetry {
  import opened Wrappers
  import opened RouteSampling
  import opened TripTiming

  datatype Weather = Weather(temperature: real, humidity: real, condition: string)

  /** The reading used when the live lookup gives nothing. */
  const SimulatedWeather := Weather(25.0, 60.0, "Simulated (No API Key)")

  /** The route dictionary's "waypoints", "distance_km" and "duration_hours". */
  datatype RouteData = RouteData(waypoints: seq<Point>, distanceKm: real, durationHours: real)

  datatype TelemetryPoint = TelemetryPoint(
    waypointNum: nat,
    lat: real,
    lng: real,
    ambientTemp: real,
    internalTemp: real,
    humidity: real,
    condition: string,
    segmentKm: real,
    cumulativeKm: real,
    cumulativeHours: real,
    exposureHours: real)

  /** `sum(segment_distances) if sum(segment_distances) > 0 else total_distance`. */
  function Divisor(segs: seq<real>, totalDistance: real): (divisor: real)
    ensures divisor > 0.0 <==> Sum(segs) > 0.0 || totalDistance > 0.0
  {
    if Sum(segs) > 0.0 then Sum(segs) else totalDistance
  }

  /** How many of the first `k` weather lookups returned a reading. */
  function Readings(weather: seq<Option<Weather>>, k: nat): (c: nat)
    requires k <= |weather|
    ensures c <= k
  {
    if k == 0 then 0 else Readings(weather, k - 1) + (if weather[k - 1].Some? then 1 else 0)
  }

  /** The telemetry point for waypoint `i`, given the segment distances and the divisor. */
  function MakePoint(w: seq<Point>, weather: seq<Option<Weather>>, segs: seq<real>, divisor: real, hours: real, i: nat)
    : TelemetryPoint
    requires |weather| == |w| == |segs| && i < |w|
  {
    var wx := weather[i].GetOr(SimulatedWeather);
    TelemetryPoint(i + 1, w[i].lat, w[i].lon, wx.temperature, wx.temperature, wx.humidity, wx.condition,
                   segs[i], PrefixSum(segs, i + 1), PrefixTime(segs, divisor, hours, i + 1),
                   ExposureTime(segs, divisor, hours, i))
  }

  /** The points for the first `k` waypoints, in route order. */
  function PointsUpTo(w: seq<Point>, weather: seq<Option<Weather>>, segs: seq<real>, divisor: real, hours: real, k: nat)
    : (pts: seq<TelemetryPoint>)
    requires |weather| == |w| == |segs| && k <= |w|
    ensures |pts| == k
  {
    if k == 0 then [] else PointsUpTo(w, weather, segs, divisor, hours, k - 1) + [MakePoint(w, weather, segs, divisor, hours, k - 1)]
  }

  lemma {:induction false} PointsUpToAt(w: seq<Point>, weather: seq<Option<Weather>>, segs: seq<real>, divisor: real,
                                        hours: real, k: nat, i: nat)
    requires |weather| == |w| == |segs| && i < k <= |w|
    ensures PointsUpTo(w, weather, segs, divisor, hours, k)[i] == MakePoint(w, weather, segs, divisor, hours, i)
    decreases k
  {
    if i < k - 1 {
      PointsUpToAt(w, weather, segs, divisor, hours, k - 1, i);
    }
  }

  /** The telemetry list the service promises: one point per waypoint, in route order. */
  function TripPoints(route: RouteData, dist: (Point, Point) -> real, weather: seq<Option<Weather>>): (pts: seq<TelemetryPoint>)
    requires |weather| == |route.waypoints|
    ensures |pts| == |route.waypoints|
  {
    var w := route.waypoints;
    var segs := SegmentDistances(w, dist);
    PointsUpTo(w, weather, segs, Divisor(segs, route.distanceKm), route.durationHours, |w|)
  }

  /** Point `i` of the trip, in terms of the segment distances. */
  lemma TripPointAt(route: RouteData, dist: (Point, Point) -> real, weather: seq<Option<Weather>>, i: nat)
    requires |weather| == |route.waypoints| && i < |route.waypoints|
    ensures var segs := SegmentDistances(route.waypoints, dist);
      TripPoints(route, dist, weather)[i]
      == MakePoint(route.waypoints, weather, segs, Divisor(segs, route.distanceKm), route.durationHours, i)
  {
    var segs := SegmentDistances(route.waypoints, dist);
    PointsUpToAt(route.waypoints, weather, segs, Divisor(segs, route.distanceKm), route.durationHours, |route.waypoints|, i);
  }

  /** `generate_trip_telemetry`. */
  method GenerateTripTelemetry(route: RouteData, dist: (Point, Point) -> real, weather: seq<Option<Weather>>)
    returns (points: seq<TelemetryPoint>, realWeatherCount: nat)
    requires |weather| == |route.waypoints|
    ensures points == TripPoints(route, dist, weather)
    ensures realWeatherCount == Readings(weather, |weather|)
  {
    var segs := ComputeSegmentDistances(route.waypoints, dist);
    var totalSegmentDist := if Sum(segs) > 0.0 then Sum(segs) else route.distanceKm;
    points, realWeatherCount := BuildPoints(route.waypoints, weather, segs, totalSegmentDist, route.durationHours);
  }

  /** The second loop of `generate_trip_telemetry`: one point per waypoint, with running totals. */
  method BuildPoints(w: seq<Point>, weather: seq<Option<Weather>>, segs: seq<real>, totalSegmentDist: real,
                     totalHours: real)
    returns (points: seq<TelemetryPoint>, realWeatherCount: nat)
    requires |weather| == |w| == |segs|
    ensures points == PointsUpTo(w, weather, segs, totalSegmentDist, totalHours, |w|)
    ensures realWeatherCount == Readings(weather, |w|)
  {
    var cumulativeTime, cumulativeDistance := 0.0, 0.0;
    points, realWeatherCount := [], 0;
    var i := 0;
    while i < |w|
      invariant 0 <= i <= |w|
      invariant points == PointsUpTo(w, weather, segs, totalSegmentDist, totalHours, i)
      invariant cumulativeTime == PrefixTime(segs, totalSegmentDist, totalHours, i)
      invariant cumulativeDistance == PrefixSum(segs, i)
      invariant realWeatherCount == Readings(weather, i)
    {
      var wx;
      if weather[i].None? {
        wx := SimulatedWeather;
      } else {
        wx := weather[i].value;
        realWeatherCount := realWeatherCount + 1;
      }
      var segmentDist := segs[i];
      var segmentTime := SegmentTime(segmentDist, totalSegmentDist, totalHours);
      cumulativeTime := cumulativeTime + segmentTime;
      cumulativeDistance := cumulativeDistance + segmentDist;
      var exposureHours;
      if i < |w| - 1 {
        var nextSegmentDist := if i + 1 < |segs| then segs[i + 1] else 0.0;
        exposureHours := SegmentTime(nextSegmentDist, totalSegmentDist, totalHours);
      } else {
        exposureHours := 0.0;
      }
      points := points + [TelemetryPoint(i + 1, w[i].lat, w[i].lon, wx.temperature, wx.temperature, wx.humidity,
                                         wx.condition, segmentDist, cumulativeDistance, cumulativeTime, exposureHours)];
      i := i + 1;
    }
  }

  /** The first loop of `generate_trip_telemetry`. */
  method ComputeSegmentDistances(w: seq<Point>, dist: (Point, Point) -> real) returns (segs: seq<real>)
    ensures segs == SegmentDistances(w, dist)
  {
    segs := [];
    var i := 0;
    while i < |w|
      invariant 0 <= i <= |w|
      invariant segs == SegmentDistances(w, dist)[..i]
    {
      if i == 0 {
        segs := segs + [0.0];
      } else {
        segs := segs + [dist(w[i - 1], w[i])];
      }
      i := i + 1;
    }
  }

  /** Per-point facts: numbering, position, the copied temperature and the fallback reading. */
  lemma TripPointsFields(route: RouteData, dist: (Point, Point) -> real, weather: seq<Option<Weather>>, i: nat)
    requires |weather| == |route.waypoints| && i < |route.waypoints|
    ensures var p := TripPoints(route, dist, weather)[i];
      && p.waypointNum == i + 1
      && p.lat == route.waypoints[i].lat && p.lng == route.waypoints[i].lon
      && p.internalTemp == p.ambientTemp
      && (weather[i].None? ==> p.ambientTemp == 25.0 && p.humidity == 60.0 && p.condition == "Simulated (No API Key)")
      && (weather[i].Some? ==> p.ambientTemp == weather[i].value.temperature && p.humidity == weather[i].value.humidity
                               && p.condition == weather[i].value.condition)
      && (i == 0 ==> p.segmentKm == 0.0)
      && (i > 0 ==> p.segmentKm == dist(route.waypoints[i - 1], route.waypoints[i]))
  {
    TripPointAt(route, dist, weather, i);
  }

  /** With non-negative distances and duration, cumulative time and distance never decrease. */
  lemma CumulativeNonDecreasing(route: RouteData, dist: (Point, Point) -> real, weather: seq<Option<Weather>>, i: nat, j: nat)
    requires |weather| == |route.waypoints| && i <= j < |route.waypoints|
    requires NonNegativeDistance(dist) && route.durationHours >= 0.0
    ensures var pts := TripPoints(route, dist, weather);
      pts[i].cumulativeHours <= pts[j].cumulativeHours && pts[i].cumulativeKm <= pts[j].cumulativeKm
  {
    var segs := SegmentDistances(route.waypoints, dist);
    SegmentDistancesNonNegative(route.waypoints, dist);
    PointsNonDecreasing(route.waypoints, weather, segs, Divisor(segs, route.distanceKm), route.durationHours, i, j);
  }

  lemma PointsNonDecreasing(w: seq<Point>, weather: seq<Option<Weather>>, segs: seq<real>, divisor: real, hours: real,
                            i: nat, j: nat)
    requires |weather| == |w| == |segs| && i <= j < |w|
    requires AllNonNegative(segs) && hours >= 0.0
    ensures var pts := PointsUpTo(w, weather, segs, divisor, hours, |w|);
      pts[i].cumulativeHours <= pts[j].cumulativeHours && pts[i].cumulativeKm <= pts[j].cumulativeKm
  {
    PointsUpToAt(w, weather, segs, divisor, hours, |w|, i);
    PointsUpToAt(w, weather, segs, divisor, hours, |w|, j);
    PrefixTimeMonotone(segs, divisor, hours, i + 1, j + 1);
    PrefixSumMonotone(segs, i + 1, j + 1);
  }

  /** The exposure of a waypoint is the time allotted to the next segment; the last one's is 0. */
  lemma ExposureIsNextSegment(route: RouteData, dist: (Point, Point) -> real, weather: seq<Option<Weather>>, i: nat)
    requires |weather| == |route.waypoints| && i < |route.waypoints|
    ensures var pts := TripPoints(route, dist, weather);
      && (i == |pts| - 1 ==> pts[i].exposureHours == 0.0)
      && (i < |pts| - 1 ==> pts[i].exposureHours == pts[i + 1].cumulativeHours - pts[i].cumulativeHours)
  {
    TripPointAt(route, dist, weather, i);
    if i < |route.waypoints| - 1 {
      TripPointAt(route, dist, weather, i + 1);
    }
  }

  /** When the segment total is positive, the last cumulative time is the route's duration. */
  lemma FinalTimeIsDuration(route: RouteData, dist: (Point, Point) -> real, weather: seq<Option<Weather>>)
    requires |weather| == |route.waypoints| && |route.waypoints| > 0
    requires Sum(SegmentDistances(route.waypoints, dist)) > 0.0
    ensures TripPoints(route, dist, weather)[|route.waypoints| - 1].cumulativeHours == route.durationHours
  {
    var segs := SegmentDistances(route.waypoints, dist);
    TripPointAt(route, dist, weather, |route.waypoints| - 1);
    TotalTimeIsDuration(segs, route.durationHours);
  }

  /** The last cumulative distance is the sum of all segment distances. */
  lemma FinalDistanceIsTotal(route: RouteData, dist: (Point, Point) -> real, weather: seq<Option<Weather>>)
    requires |weather| == |route.waypoints| && |route.waypoints| > 0
    ensures TripPoints(route, dist, weather)[|route.waypoints| - 1].cumulativeKm == Sum(SegmentDistances(route.waypoints, dist))
  {
    TripPointAt(route, dist, weather, |route.waypoints| - 1);
  }

  /** `real_weather_count` is `len(waypoints)` exactly when every lookup succeeded, 0 when none did. */
  lemma {:induction false} RealWeatherCountBounds(weather: seq<Option<Weather>>, k: nat)
    requires k <= |weather|
    ensures Readings(weather, k) == k <==> forall i :: 0 <= i < k ==> weather[i].Some?
    ensures Readings(weather, k) == 0 <==> forall i :: 0 <= i < k ==> weather[i].None?
    decreases k
  {
    if k > 0 {
      RealWeatherCountBounds(weather, k - 1);
    }
  }
}
