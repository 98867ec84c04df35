/**
 * `generate_trip_telemetry` of the second telemetry service
 * (backend/services/telemetry_service_v2.py): the same proportional timing
 * as the first service, with per-waypoint environmental conditions. The
 * parallel lookups are an input: `env[i]` is what the lookup for waypoint
 * `i` produced, `None` when it raised.
 */
module GoogleTelemetry {
  import opened Wrappers
  import opened RouteSampling
  import opened TripTiming
  import opened EnvironmentalData

  /** The route dictionary's "waypoints", "distance_km" and "duration_hours", each possibly missing. */
  datatype RouteInput = RouteInput(waypoints: Option<seq<Point>>, distanceKm: Option<real>, durationHours: Option<real>)

  function Waypoints(route: RouteInput): seq<Point> { route.waypoints.GetOr([]) }
  function TotalDistance(route: RouteInput): real { route.distanceKm.GetOr(100.0) }
  function TotalHours(route: RouteInput): real { route.durationHours.GetOr(3.0) }

  /** What a telemetry point takes from a waypoint's environmental data. */
  datatype Sample = Sample(
    temperature: real,
    humidity: real,
    condition: string,
    air: AirReading,
    pollen: PollenReading,
    solar: SolarReading,
    environmentalRisk: real)

  /** The stand-in for a lookup that raised. */
  const UnavailableSample := Sample(28.0, 65.0, "Data unavailable", AirReading(None, Some("error")),
                                    PollenReading(None, None), SolarReading(None), 0.2)

  function SampleOf(env: Option<Conditions>): Sample {
    match env
    case None => UnavailableSample
    case Some(c) => Sample(c.temperature, c.humidity, c.condition, c.air, c.pollen, c.solar, c.environmentalRisk)
  }

  /** A lookup that succeeded and whose air quality came from the Google API. */
  predicate FromGoogle(env: Option<Conditions>) {
    env.Some? && env.value.air.source == Some("google_air_quality")
  }

  /** `google_data_count` after the first `k` waypoints. */
  function GoogleCount(env: seq<Option<Conditions>>, k: nat): (c: nat)
    requires k <= |env|
    ensures c <= k
  {
    if k == 0 then 0 else GoogleCount(env, k - 1) + (if FromGoogle(env[k - 1]) then 1 else 0)
  }

  /** `sum(segment_distances) or total_distance`. */
  function Divisor(segs: seq<real>, totalDistance: real): (divisor: real)
    ensures divisor == 0.0 <==> Sum(segs) == 0.0 && totalDistance == 0.0
  {
    if Sum(segs) != 0.0 then Sum(segs) else totalDistance
  }

  datatype TelemetryPoint = TelemetryPoint(
    waypointNum: nat,
    lat: real,
    lon: real,
    ambientTemp: real,
    internalTemp: real,
    humidity: real,
    condition: string,
    air: AirReading,
    pollen: PollenReading,
    solar: SolarReading,
    environmentalRisk: real,
    segmentKm: real,
    cumulativeKm: real,
    cumulativeHours: real,
    exposureHours: real)

  function MakePoint(w: seq<Point>, env: seq<Option<Conditions>>, segs: seq<real>, divisor: real, hours: real, i: nat)
    : TelemetryPoint
    requires |env| == |w| == |segs| && i < |w|
  {
    var s := SampleOf(env[i]);
    TelemetryPoint(i + 1, w[i].lat, w[i].lon, s.temperature, s.temperature, s.humidity, s.condition, s.air, s.pollen,
                   s.solar, s.environmentalRisk, segs[i], PrefixSum(segs, i + 1),
                   PrefixTime(segs, divisor, hours, i + 1), ExposureTime(segs, divisor, hours, i))
  }

  function PointsUpTo(w: seq<Point>, env: seq<Option<Conditions>>, segs: seq<real>, divisor: real, hours: real, k: nat)
    : (pts: seq<TelemetryPoint>)
    requires |env| == |w| == |segs| && k <= |w|
    ensures |pts| == k
  {
    if k == 0 then [] else PointsUpTo(w, env, segs, divisor, hours, k - 1) + [MakePoint(w, env, segs, divisor, hours, k - 1)]
  }

  lemma {:induction false} PointsUpToAt(w: seq<Point>, env: seq<Option<Conditions>>, segs: seq<real>, divisor: real,
                                        hours: real, k: nat, i: nat)
    requires |env| == |w| == |segs| && i < k <= |w|
    ensures PointsUpTo(w, env, segs, divisor, hours, k)[i] == MakePoint(w, env, segs, divisor, hours, i)
    decreases k
  {
    if i < k - 1 {
      PointsUpToAt(w, env, segs, divisor, hours, k - 1, i);
    }
  }

  /** The telemetry list the service promises: one point per waypoint, in route order. */
  function TripPoints(route: RouteInput, dist: (Point, Point) -> real, env: seq<Option<Conditions>>)
    : (pts: seq<TelemetryPoint>)
    requires |env| == |Waypoints(route)|
    ensures |pts| == |Waypoints(route)|
  {
    var w := Waypoints(route);
    var segs := SegmentDistances(w, dist);
    PointsUpTo(w, env, segs, Divisor(segs, TotalDistance(route)), TotalHours(route), |w|)
  }

  lemma TripPointAt(route: RouteInput, dist: (Point, Point) -> real, env: seq<Option<Conditions>>, i: nat)
    requires |env| == |Waypoints(route)| && i < |env|
    ensures var segs := SegmentDistances(Waypoints(route), dist);
      TripPoints(route, dist, env)[i]
      == MakePoint(Waypoints(route), env, segs, Divisor(segs, TotalDistance(route)), TotalHours(route), i)
  {
    var segs := SegmentDistances(Waypoints(route), dist);
    PointsUpToAt(Waypoints(route), env, segs, Divisor(segs, TotalDistance(route)), TotalHours(route), |env|, i);
  }

  /** `generate_trip_telemetry`, returning `google_data_count` beside the points. */
  method GenerateTripTelemetry(route: RouteInput, dist: (Point, Point) -> real, env: seq<Option<Conditions>>)
    returns (points: seq<TelemetryPoint>, googleDataCount: nat)
    requires |env| == |Waypoints(route)|
    ensures points == TripPoints(route, dist, env)
    ensures |Waypoints(route)| == 0 ==> points == []
    ensures googleDataCount == GoogleCount(env, |env|)
  {
    var waypoints := route.waypoints.GetOr([]);
    var totalDistance := route.distanceKm.GetOr(100.0);
    var totalHours := route.durationHours.GetOr(3.0);
    if |waypoints| == 0 {
      return [], 0;
    }
    var segs := ComputeSegmentDistances(waypoints, dist);
    var totalSegmentDist := if Sum(segs) != 0.0 then Sum(segs) else totalDistance;
    points, googleDataCount := BuildPoints(waypoints, env, segs, totalSegmentDist, totalHours);
  }

  /** The segment-distance loop: a leading 0, then the distance from each predecessor. */
  method ComputeSegmentDistances(w: seq<Point>, dist: (Point, Point) -> real) returns (segs: seq<real>)
    requires |w| > 0
    ensures segs == SegmentDistances(w, dist)
  {
    segs := [0.0];
    var i := 1;
    while i < |w|
      invariant 1 <= i <= |w|
      invariant segs == SegmentDistances(w, dist)[..i]
    {
      segs := segs + [dist(w[i - 1], w[i])];
      i := i + 1;
    }
  }

  /** The telemetry loop: one point per waypoint, with running totals and the fallback for failed lookups. */
  method BuildPoints(w: seq<Point>, env: seq<Option<Conditions>>, segs: seq<real>, totalSegmentDist: real,
                     totalHours: real)
    returns (points: seq<TelemetryPoint>, googleDataCount: nat)
    requires |env| == |w| == |segs|
    ensures points == PointsUpTo(w, env, segs, totalSegmentDist, totalHours, |w|)
    ensures googleDataCount == GoogleCount(env, |w|)
  {
    var cumulativeTime, cumulativeDistance := 0.0, 0.0;
    points, googleDataCount := [], 0;
    var i := 0;
    while i < |w|
      invariant 0 <= i <= |w|
      invariant points == PointsUpTo(w, env, segs, totalSegmentDist, totalHours, i)
      invariant cumulativeTime == PrefixTime(segs, totalSegmentDist, totalHours, i)
      invariant cumulativeDistance == PrefixSum(segs, i)
      invariant googleDataCount == GoogleCount(env, i)
    {
      var envData;
      if env[i].None? {
        envData := UnavailableSample;
      } else {
        var c := env[i].value;
        envData := Sample(c.temperature, c.humidity, c.condition, c.air, c.pollen, c.solar, c.environmentalRisk);
        if c.air.source == Some("google_air_quality") {
          googleDataCount := googleDataCount + 1;
        }
      }
      var segmentDist := segs[i];
      var segmentTime := SegmentTime(segmentDist, totalSegmentDist, totalHours);
      cumulativeTime := cumulativeTime + segmentTime;
      cumulativeDistance := cumulativeDistance + segmentDist;
      var exposureHours;
      if i < |w| - 1 {
        var nextDist := if i + 1 < |segs| then segs[i + 1] else 0.0;
        exposureHours := SegmentTime(nextDist, totalSegmentDist, totalHours);
      } else {
        exposureHours := 0.0;
      }
      points := points + [TelemetryPoint(i + 1, w[i].lat, w[i].lon, envData.temperature, envData.temperature,
                                         envData.humidity, envData.condition, envData.air, envData.pollen,
                                         envData.solar, envData.environmentalRisk, segmentDist, cumulativeDistance,
                                         cumulativeTime, exposureHours)];
      i := i + 1;
    }
  }

  /** Per-point facts: numbering, position, copied temperature, and the fixed fallback for a failed lookup. */
  lemma TripPointsFields(route: RouteInput, dist: (Point, Point) -> real, env: seq<Option<Conditions>>, i: nat)
    requires |env| == |Waypoints(route)| && i < |env|
    ensures var p := TripPoints(route, dist, env)[i];
      var w := Waypoints(route);
      && p.waypointNum == i + 1
      && p.lat == w[i].lat && p.lon == w[i].lon
      && p.internalTemp == p.ambientTemp
      && (env[i].None? ==> p.ambientTemp == 28.0 && p.humidity == 65.0 && p.condition == "Data unavailable"
                           && p.environmentalRisk == 0.2 && p.air.source == Some("error"))
      && (env[i].Some? ==> p.ambientTemp == env[i].value.temperature && p.humidity == env[i].value.humidity
                           && p.condition == env[i].value.condition
                           && p.environmentalRisk == env[i].value.environmentalRisk)
      && (i == 0 ==> p.segmentKm == 0.0)
      && (i > 0 ==> p.segmentKm == dist(w[i - 1], w[i]))
  {
    TripPointAt(route, dist, env, i);
  }

  lemma PointsNonDecreasing(w: seq<Point>, env: seq<Option<Conditions>>, segs: seq<real>, divisor: real, hours: real,
                            i: nat, j: nat)
    requires |env| == |w| == |segs| && i <= j < |w|
    requires AllNonNegative(segs) && hours >= 0.0
    ensures var pts := PointsUpTo(w, env, segs, divisor, hours, |w|);
      pts[i].cumulativeHours <= pts[j].cumulativeHours && pts[i].cumulativeKm <= pts[j].cumulativeKm
  {
    PointsUpToAt(w, env, segs, divisor, hours, |w|, i);
    PointsUpToAt(w, env, segs, divisor, hours, |w|, j);
    PrefixTimeMonotone(segs, divisor, hours, i + 1, j + 1);
    PrefixSumMonotone(segs, i + 1, j + 1);
  }

  /** With non-negative distances and duration, cumulative time and distance never decrease. */
  lemma CumulativeNonDecreasing(route: RouteInput, dist: (Point, Point) -> real, env: seq<Option<Conditions>>, i: nat, j: nat)
    requires |env| == |Waypoints(route)| && i <= j < |env|
    requires NonNegativeDistance(dist) && TotalHours(route) >= 0.0
    ensures var pts := TripPoints(route, dist, env);
      pts[i].cumulativeHours <= pts[j].cumulativeHours && pts[i].cumulativeKm <= pts[j].cumulativeKm
  {
    var segs := SegmentDistances(Waypoints(route), dist);
    SegmentDistancesNonNegative(Waypoints(route), dist);
    PointsNonDecreasing(Waypoints(route), env, segs, Divisor(segs, TotalDistance(route)), TotalHours(route), i, j);
  }

  /** The exposure of a waypoint is the time allotted to the next segment; the last one's is 0. */
  lemma ExposureIsNextSegment(route: RouteInput, dist: (Point, Point) -> real, env: seq<Option<Conditions>>, i: nat)
    requires |env| == |Waypoints(route)| && i < |env|
    ensures var pts := TripPoints(route, dist, env);
      && (i == |pts| - 1 ==> pts[i].exposureHours == 0.0)
      && (i < |pts| - 1 ==> pts[i].exposureHours == pts[i + 1].cumulativeHours - pts[i].cumulativeHours)
  {
    TripPointAt(route, dist, env, i);
    if i < |env| - 1 {
      TripPointAt(route, dist, env, i + 1);
    }
  }

  /** When the segment total is positive, the last cumulative time is the route's duration. */
  lemma FinalTimeIsDuration(route: RouteInput, dist: (Point, Point) -> real, env: seq<Option<Conditions>>)
    requires |env| == |Waypoints(route)| && |env| > 0
    requires Sum(SegmentDistances(Waypoints(route), dist)) > 0.0
    ensures TripPoints(route, dist, env)[|env| - 1].cumulativeHours == TotalHours(route)
  {
    var segs := SegmentDistances(Waypoints(route), dist);
    TripPointAt(route, dist, env, |env| - 1);
    TotalTimeIsDuration(segs, TotalHours(route));
  }

  /** `google_data_count` is the total exactly when every lookup's air quality came from Google. */
  lemma {:induction false} GoogleCountBounds(env: seq<Option<Conditions>>, k: nat)
    requires k <= |env|
    ensures GoogleCount(env, k) == k <==> forall i :: 0 <= i < k ==> FromGoogle(env[i])
    ensures GoogleCount(env, k) == 0 <==> forall i :: 0 <= i < k ==> !FromGoogle(env[i])
    decreases k
  {
    if k > 0 {
      GoogleCountBounds(env, k - 1);
    }
  }
}
