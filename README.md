# FreshLogic backend core, modelled in Dafny

FreshLogic plans the transport of fresh produce. Its backend finds a route, samples
waypoints along it, and collects weather, air-quality, pollen and solar readings per
waypoint. It then asks a trained regression model for a spoilage risk and can translate
the resulting report into Indian languages. This project models the deterministic core
of that backend and proves properties of it:

- **Spoilage post-processing** (`ModelInference`, backend/services/model_inference.py):
  - the model score is clamped to [0,1];
  - days remaining are `10 * (1 - risk)`;
  - the status comes from three bands;
  - the two error results are modelled;
  - VPD is modelled with the saturation pressure as a parameter.
- **Evaluation classifier** (`Evaluation`, test_model.py): `to_class` and its element-wise use. It is proved to agree with the service's status rule.
- **Route sampling** (`RouteSampling`): Python's `s[::k]` stride in both telemetry services, and the origin/destination pinning of the Google route.
- **Trip timing** (`TripTiming`): segment distances, proportional allocation of trip hours, cumulative hours and kilometres, and exposure hours. Both telemetry services share these definitions.
- **Trip telemetry**:
  - `Telemetry` models backend/services/telemetry_service.py, with its weather fallback and count of real readings;
  - `GoogleTelemetry` models backend/services/telemetry_service_v2.py, with its failed-lookup fallback and count of Google-sourced points.
- **Environmental data** (`EnvironmentalData`, telemetry_service_v2.py):
  - the additive risk score and the condition description;
  - pollen max-aggregation and the forecast hour clamp;
  - assembly of one waypoint's conditions.
- **Session cache** (`Sessions`): a class whose entry map is updated in place. It has TTL expiry, sliding renewal on `get`, and a `cleanup` sweep.
- **Report translation** (`Translation`):
  - the language table and the cache of `translate_text`;
  - `translate_report`, modelled on heap dictionaries. This makes the shallow copy's aliasing of `risk_analysis` visible.
- **Crop-list sync** (`CropSync`, backend/tests/test_crop_sync.py):
  - the frontend array extractor, a quoted-string scanner proved equal to a reference definition through `split('"')`;
  - `sorted(set(...))`, via `PyStrings`;
  - the crop-record validity checks.

External services, the clock, the id generator, `hash` and the model itself are
parameters. The distance function, saturation pressure, per-waypoint lookup results and
HTTP responses are parameters as well. Floats are modelled as exact `real`s.

A few facts about the code that the model follows:
- the risk is one call of the loaded model;
- `days_remaining` is `10 * (1 - risk)`;
- VPD is `es - es * (h / 100)`. It is not floored at 0, so it is negative above 100 % humidity, and `ModelInference.Vpd` states that sign behaviour;
- failures return error dictionaries or fallback values.

A remark on translation: `translate_report` knows the labels "Safe", "Caution" and "High Risk". The service produces "Safe", "Warning" and "Critical", so of the service's labels only "Safe" is ever rewritten. `Translation.OnlySafeIsTranslated` proves this about the code as written.

## Model

| member | source | states |
|---|---|---|
| ModelInference.Clamp | backend/services/model_inference.py:53 | the clamped score lies in [0,1]; it is the score itself inside [0,1], 0 below and 1 above |
| ModelInference.DaysRemaining | backend/services/model_inference.py:58 | for a risk in [0,1] the estimate lies in [0,10]; it is 10 at risk 0 and 0 at risk 1 |
| ModelInference.DaysRemainingAntitone | backend/services/model_inference.py:58 | a higher risk never gives more days remaining |
| ModelInference.StatusOf | backend/services/model_inference.py:60 | Critical iff risk > 0.7, Warning iff 0.3 < risk <= 0.7, Safe iff risk <= 0.3 |
| ModelInference.StatusMonotone | backend/services/model_inference.py:60 | a higher risk never gives a less severe band |
| ModelInference.StatusBoundaries | backend/services/model_inference.py:60 | exactly 0.7 is Warning, exactly 0.3 is Safe, 0 is Safe and 1 is Critical |
| ModelInference.StatusName | backend/services/model_inference.py:60-65 | the status label written into the result is one of "Safe", "Warning", "Critical" |
| ModelInference.StatusNameInjective | backend/services/model_inference.py:60 | two bands have the same label iff they are the same band |
| ModelInference.Vpd | backend/services/model_inference.py:24-26 | VPD is `es - es * (h / 100)`; with a positive saturation pressure it is 0 iff humidity is 100, positive iff below 100, negative iff above 100 (no floor) |
| ModelInference.VpdSign | backend/services/model_inference.py:24-26 | the actual vapour pressure is below, equal to or above the saturation pressure as humidity is below, at or above 100 |
| ModelInference.PredictSpoilage | backend/services/model_inference.py:36-70 | no model gives error "Model not loaded", risk 0 and status "Unknown"; a raising model gives its message, risk 0 and no status; a returned score gives risk Clamp(score) in [0,1] (the score itself when in range), days in [0,10] with days + 10*risk = 10, status from the band rule, and the VPD |
| ModelInference.UnknownOnlyWhenUnloaded | backend/services/model_inference.py:36-65 | the status is "Unknown" iff no model is loaded |
| Evaluation.ToClass | test_model.py:29-32 | the result is exactly one of Safe/Warning/Critical; Critical iff > 0.7, Warning iff in (0.3, 0.7], Safe iff <= 0.3 |
| Evaluation.ToClassAgreesWithService | test_model.py:29-32 | for every real, `to_class` gives the same label as the service's status rule |
| Evaluation.ToClasses | test_model.py:34-35 | the mapped list has the input's length, and entry i is the class of value i |
| Evaluation.ToClassesAppend | test_model.py:34-35 | mapping a concatenation is the concatenation of the mappings, so order is kept |
| RouteSampling.EveryNth | backend/services/telemetry_service_v2.py:150 | `s[::k]` is empty iff s is; otherwise it starts with s[0] and has ceil(\|s\|/k) elements |
| RouteSampling.EveryNthAt | backend/services/telemetry_service_v2.py:150 | element j of `s[::k]` is s[j*k] |
| RouteSampling.EveryNthNoLonger | backend/services/telemetry_service_v2.py:150 | the stride never lengthens the list |
| RouteSampling.EveryNthAtLeast | backend/services/telemetry_service_v2.py:150 | if m*k <= \|s\|, the stride keeps at least m elements |
| RouteSampling.StrideByDivisorKeeps | backend/services/telemetry_service_v2.py:148-150 | for \|s\| > threshold >= d, stride \|s\|//d is positive and keeps between d and \|s\| elements |
| RouteSampling.PinEndpoints | backend/services/telemetry_service_v2.py:153-155 | the length is unchanged; the last point is the destination; with two or more points the first is the origin; the points between are untouched |
| RouteSampling.GoogleRouteWaypoints | backend/services/telemetry_service_v2.py:147-155 | at most 15 points keep their number; any non-empty route ends at the destination |
| RouteSampling.OsrmFallbackWaypoints | backend/services/telemetry_service_v2.py:191-192 | a non-empty route keeps its first point; an empty one stays empty |
| RouteSampling.OsrmRouteWaypoints | backend/services/telemetry_service.py:54-55 | a non-empty route keeps its first point; an empty one stays empty |
| RouteSampling.GoogleRouteWaypointsShape | backend/services/telemetry_service_v2.py:147-155 | the result is never longer; more than 15 points give at least 12, with interior points taken from the stride-(n//12) subsequence; the ends are pinned, and a single point becomes the destination |
| RouteSampling.OsrmFallbackWaypointsShape | backend/services/telemetry_service_v2.py:191-192 | at most 12 points are unchanged; more give at least 10 and never more points, starting from the first |
| RouteSampling.OsrmRouteWaypointsShape | backend/services/telemetry_service.py:54-55 | at most 10 points are unchanged; more give at least 10 and never more points, starting from the first |
| TripTiming.SegmentDistances | backend/services/telemetry_service.py:113-122 | one segment distance per waypoint |
| TripTiming.SegmentDistancesShape | backend/services/telemetry_service.py:113-122 | one entry per waypoint; the first is 0, and entry i is the distance from waypoint i-1 to waypoint i |
| TripTiming.SegmentDistancesNonNegative | backend/services/telemetry_service.py:113-122 | a non-negative distance function gives non-negative segment distances |
| TripTiming.PrefixSum | backend/services/telemetry_service.py:124 | the running total of non-negative segments is non-negative |
| TripTiming.SegmentTime | backend/services/telemetry_service.py:140 | with a positive divisor, time times divisor equals distance times hours; otherwise the time is 0 |
| TripTiming.PrefixTime | backend/services/telemetry_service.py:140-141 | with a non-positive divisor no time accumulates |
| TripTiming.ExposureTime | backend/services/telemetry_service.py:146-150 | exposure at waypoint i is the increase of cumulative time at the next waypoint, and 0 at the last |
| TripTiming.PrefixSumMonotone | backend/services/telemetry_service.py:142 | running totals of non-negative segments never decrease |
| TripTiming.ZeroSumAllZero | backend/services/telemetry_service.py:124 | non-negative segments summing to 0 are all 0, so the fallback divisor pays no time |
| TripTiming.SegmentTimeNonNegative | backend/services/telemetry_service.py:140 | segment time is non-negative for non-negative distance and hours |
| TripTiming.PrefixTimeMonotone | backend/services/telemetry_service.py:140-141 | cumulative time never decreases over non-negative segments |
| TripTiming.PrefixTimeScales | backend/services/telemetry_service.py:140-141 | with a positive divisor, the cumulative time after k segments is (distance so far / divisor) * hours |
| TripTiming.TotalTimeIsDuration | backend/services/telemetry_service.py:124-141 | when the segment sum is positive and used as divisor, the total time is exactly the trip duration |
| TripTiming.ZeroDistanceZeroTime | backend/services/telemetry_service.py:124-141 | when all segments are 0, cumulative time stays 0 whatever the divisor |
| Telemetry.Readings | backend/services/telemetry_service.py:133-136 | the count of real readings among the first k never exceeds k |
| Telemetry.Divisor | backend/services/telemetry_service.py:124 | the divisor is positive iff the segment sum or the route's total distance is |
| Telemetry.PointsUpTo | backend/services/telemetry_service.py:129-164 | k loop iterations emit k points |
| Telemetry.PointsUpToAt | backend/services/telemetry_service.py:129-164 | point i is built from waypoint i alone, whatever the number of later iterations |
| Telemetry.TripPoints | backend/services/telemetry_service.py:103-164 | one telemetry point per waypoint |
| Telemetry.TripPointAt | backend/services/telemetry_service.py:103-164 | point i is waypoint i's point, with the segment distances and the divisor (sum if positive, else total distance) |
| Telemetry.GenerateTripTelemetry | backend/services/telemetry_service.py:103-175 | the loop's points are the specified ones, and it counts exactly the waypoints that had a reading |
| Telemetry.ComputeSegmentDistances | backend/services/telemetry_service.py:113-122 | the loop builds exactly the segment-distance list |
| Telemetry.BuildPoints | backend/services/telemetry_service.py:126-164 | the accumulating loop emits the specified points and the count of real readings |
| Telemetry.TripPointsFields | backend/services/telemetry_service.py:129-164 | `waypoint_num` is i+1; lat/lng are the waypoint's; internal temperature equals ambient; a missing reading gives 25 / 60 / "Simulated (No API Key)", a present one its own values; the segment is 0 first, then the distance from the previous waypoint |
| Telemetry.CumulativeNonDecreasing | backend/services/telemetry_service.py:139-142 | with non-negative distances and duration, cumulative hours and kilometres never decrease along the trip |
| Telemetry.PointsNonDecreasing | backend/services/telemetry_service.py:139-142 | the same over any non-negative segment list and divisor |
| Telemetry.ExposureIsNextSegment | backend/services/telemetry_service.py:146-150 | exposure of the last point is 0; otherwise it is the increase in cumulative hours to the next point |
| Telemetry.FinalTimeIsDuration | backend/services/telemetry_service.py:124-141 | when the segment sum is positive, the last point's cumulative hours equal the trip duration |
| Telemetry.FinalDistanceIsTotal | backend/services/telemetry_service.py:142 | the last point's cumulative kilometres are the sum of the segment distances |
| Telemetry.RealWeatherCountBounds | backend/services/telemetry_service.py:133-136 | the count equals the number of waypoints iff every reading was present, and is 0 iff none was |
| GoogleTelemetry.GoogleCount | backend/services/telemetry_service_v2.py:638-639 | the Google-sourced count among the first k never exceeds k |
| GoogleTelemetry.Divisor | backend/services/telemetry_service_v2.py:607 | the divisor is 0 iff both the segment sum and the route's total distance are |
| GoogleTelemetry.PointsUpTo | backend/services/telemetry_service_v2.py:625-679 | k loop iterations emit k points |
| GoogleTelemetry.PointsUpToAt | backend/services/telemetry_service_v2.py:625-679 | point i is built from waypoint i alone |
| GoogleTelemetry.TripPoints | backend/services/telemetry_service_v2.py:585-679 | one telemetry point per waypoint, using the 100 km / 3 h defaults for missing keys |
| GoogleTelemetry.TripPointAt | backend/services/telemetry_service_v2.py:585-679 | point i is waypoint i's point, with the divisor `sum or total_distance` |
| GoogleTelemetry.GenerateTripTelemetry | backend/services/telemetry_service_v2.py:585-679 | no waypoints give []; otherwise the specified points; the count is exactly the Google-sourced lookups |
| GoogleTelemetry.ComputeSegmentDistances | backend/services/telemetry_service_v2.py:599-605 | the loop from [0] builds exactly the segment-distance list |
| GoogleTelemetry.BuildPoints | backend/services/telemetry_service_v2.py:621-679 | the accumulating loop emits the specified points and the Google-sourced count |
| GoogleTelemetry.TripPointsFields | backend/services/telemetry_service_v2.py:627-679 | `waypoint_num` is i+1; internal temperature equals ambient; a failed lookup gives 28 / 65 / "Data unavailable" / risk 0.2 / air source "error"; a successful one carries its values |
| GoogleTelemetry.PointsNonDecreasing | backend/services/telemetry_service_v2.py:641-644 | cumulative hours and kilometres never decrease over non-negative segments |
| GoogleTelemetry.CumulativeNonDecreasing | backend/services/telemetry_service_v2.py:641-644 | with non-negative distances and duration, cumulative hours and kilometres never decrease along the trip |
| GoogleTelemetry.ExposureIsNextSegment | backend/services/telemetry_service_v2.py:646-651 | exposure of the last point is 0; otherwise it is the increase in cumulative hours to the next point |
| GoogleTelemetry.FinalTimeIsDuration | backend/services/telemetry_service_v2.py:607-644 | when the segment sum is positive, the last point's cumulative hours equal the duration |
| GoogleTelemetry.GoogleCountBounds | backend/services/telemetry_service_v2.py:623-639 | the count equals the number of waypoints iff every lookup was Google-sourced, and is 0 iff none was |
| EnvironmentalData.TemperatureRisk | backend/services/telemetry_service_v2.py:524-533 | the temperature component lies in [0, 0.35], and is 0 iff temperature <= 28 |
| EnvironmentalData.HumidityRisk | backend/services/telemetry_service_v2.py:535-542 | the humidity component lies in [0, 0.25], and is 0 iff humidity <= 65 |
| EnvironmentalData.AirQualityRisk | backend/services/telemetry_service_v2.py:544-551 | the AQI component lies in [0, 0.2], and is 0 iff AQI <= 50 |
| EnvironmentalData.PrecipitationRisk | backend/services/telemetry_service_v2.py:553-558 | the precipitation component lies in [0, 0.1], and is 0 iff probability <= 40 |
| EnvironmentalData.UvRisk | backend/services/telemetry_service_v2.py:560-565 | the UV component lies in [0, 0.1], and is 0 iff UV index <= 6 |
| EnvironmentalData.RiskScore | backend/services/telemetry_service_v2.py:520-567 | the uncapped sum of the components already lies in [0,1] |
| EnvironmentalData.CalculateEnvironmentalRisk | backend/services/telemetry_service_v2.py:520-567 | the accumulated, capped risk equals the uncapped component sum on the defaulted readings, so the cap never changes it, and lies in [0,1] |
| EnvironmentalData.RiskMonotone | backend/services/telemetry_service_v2.py:526-565 | the risk is non-decreasing in each of temperature, humidity, AQI, precipitation and UV |
| EnvironmentalData.RiskCapsSumToOne | backend/services/telemetry_service_v2.py:520-567 | every component at its top band gives exactly 1.0 |
| EnvironmentalData.DefaultsCarryNoRisk | backend/services/telemetry_service_v2.py:525-565 | with every field missing (25, 50, AQI 50, 0, UV 5), the risk is exactly 0 |
| EnvironmentalData.HeatLabel | backend/services/telemetry_service_v2.py:498-503 | at most one heat label; "Extreme heat" iff > 35, "Hot" iff in (30, 35] |
| EnvironmentalData.ConditionLabel | backend/services/telemetry_service_v2.py:494-496 | at most one label, absent iff the condition text is missing or empty |
| EnvironmentalData.Labels | backend/services/telemetry_service_v2.py:491-516 | at most five labels, none of them empty |
| EnvironmentalData.Describe | backend/services/telemetry_service_v2.py:518 | no labels give "Normal conditions", one label is itself, two or more contain a comma |
| EnvironmentalData.ConditionDescription | backend/services/telemetry_service_v2.py:489-518 | the description is the ", "-join of the applicable labels in the order condition, heat, air, sun, pollen, and "Normal conditions" when there are none |
| EnvironmentalData.LabelMeaning | backend/services/telemetry_service_v2.py:489-516 | a non-empty condition comes first; each fixed label is present iff its threshold holds (unless the condition text is that same label) |
| EnvironmentalData.HeatLabelsExclusive | backend/services/telemetry_service_v2.py:498-503 | "Extreme heat" and "Hot" are never both present, unless the condition text is one of them |
| EnvironmentalData.HeatLabelsWithHotCondition | backend/services/telemetry_service_v2.py:493-503 | condition "Hot" at 36 degrees gives both labels, so the exclusivity needs that proviso |
| EnvironmentalData.NormalIffNoLabels | backend/services/telemetry_service_v2.py:518 | unless the condition text is "Normal conditions", that text appears iff no label applies |
| EnvironmentalData.AggregatePollen | backend/services/telemetry_service_v2.py:279-285 | the maximum is at least 0 and at least every index value; the category is "Low" when no value is positive, otherwise the category of the first entry attaining the maximum |
| EnvironmentalData.GetPollenData | backend/services/telemetry_service_v2.py:256-296 | no key, no daily info or an exception give the simulated (2, "Low") result; otherwise a "google_pollen" summary whose index bounds every entry of the first day and, when positive, is attained, with the category of the first entry attaining it ("Low" at index 0) |
| EnvironmentalData.RequestHours | backend/services/telemetry_service_v2.py:395 | the requested hours are `hours`, clamped to at most 240 |
| EnvironmentalData.PrefixLength | backend/services/telemetry_service_v2.py:403 | the length of Python's `s[:k]`: k when 0 <= k <= n, n when k > n, n + k for negative k down to -n, and 0 below that |
| EnvironmentalData.GetWeatherForecast | backend/services/telemetry_service_v2.py:379-415 | no key, no "hours" or an exception give an empty simulated forecast; otherwise one entry per element of `hours[:hours]`, each with its defaults, so never more entries than returned nor more than a non-negative `hours` |
| EnvironmentalData.GetEnvironmentalConditions | backend/services/telemetry_service_v2.py:442-487 | every field of a waypoint's conditions with its default; the condition is the description and the risk is the component sum, in [0,1] |
| Sessions.SessionCache.constructor | backend/services/session_cache.py:11-14 | an empty cache whose ttl is the given minutes |
| Sessions.SessionCache.CreateSession | backend/services/session_cache.py:16-25 | returns the fresh id and adds exactly that entry, with no data and expiry now + ttl |
| Sessions.SessionCache.Set | backend/services/session_cache.py:27-37 | a known id (even an expired one) is kept, an unknown id is replaced by the fresh id; exactly that entry is overwritten with the data and expiry now + ttl |
| Sessions.SessionCache.Get | backend/services/session_cache.py:39-50 | an absent id gives None and no change; a live entry gives its data and only its expiry is renewed; an expired one gives None and only it is deleted |
| Sessions.SessionCache.Cleanup | backend/services/session_cache.py:52-59 | an id remains iff it was present and live; every remaining entry is unchanged |
| Sessions.SetThenGet | backend/services/session_cache.py:27-47 | a `get` before the ttl elapses returns what `set` stored, and renews its expiry |
| Sessions.CreateThenGet | backend/services/session_cache.py:16-47 | a `get` on a new session before expiry returns None and keeps the session |
| Sessions.CleanupLeavesOnlyLive | backend/services/session_cache.py:52-59 | after `cleanup` every entry is live |
| Translation.GetSupportedLanguages | backend/services/translation_service.py:15-26 | exactly the ten language codes, with "en" named "English" |
| Translation.LanguageName | backend/services/translation_service.py:110 | the table's name for a known code, the code itself otherwise |
| Translation.StatusLabel | backend/services/translation_service.py:93-107 | a translation exists iff the language is in the table and the status is one of its keys, and it is that entry |
| Translation.StatusTableShape | backend/services/translation_service.py:93-103 | the table covers every supported language except English, each with exactly Safe / Caution / High Risk |
| Translation.OnlySafeIsTranslated | backend/services/translation_service.py:105-107 | of the service's statuses only "Safe" is rewritten; "Warning", "Critical" and "Unknown" pass through |
| Translation.RewriteStatus | backend/services/translation_service.py:105-107 | the risk dictionary keeps its keys and every other value; a string status with a table label becomes that label, any other status is kept |
| Translation.TranslatedItemsShape | backend/services/translation_service.py:82-110 | the copy gains "language" and "language_name"; only those and a present "agent_insight" change |
| Translation.AddLanguage | backend/services/translation_service.py:109-110 | sets "language" to the target and "language_name" to its name, nothing else |
| Translation.TranslateStatus | backend/services/translation_service.py:92-107 | the shared risk dictionary becomes its status-rewritten version |
| Translation.Translator.constructor | backend/services/translation_service.py:29 | the translation cache starts empty |
| Translation.Translator.TranslateText | backend/services/translation_service.py:32-72 | "en" and a cache hit return without change to the cache; no key, an unexpected reply or an exception return the text; a translation is returned and cached under (hash, language) |
| Translation.Translator.TranslateInsight | backend/services/translation_service.py:84-89 | only a present "agent_insight" is replaced, by its translation |
| Translation.Translator.TranslateReport | backend/services/translation_service.py:75-112 | "en" returns the same object and leaves the report, the risk dictionary and the cache untouched; otherwise a fresh copy with the translated insight, language fields and other keys unchanged, while the shared risk dictionary is rewritten in place |
| Translation.StatusRewriteIsShared | backend/services/translation_service.py:82-107 | translating to Hindi changes the caller's own risk dictionary's "Safe" status, visible through both reports |
| Translation.TranslateTwice | backend/services/translation_service.py:40-66 | a second translation of the same text is the cached first one |
| PyStrings.JoinSnoc | backend/services/telemetry_service_v2.py:518 | joining one more part appends the separator and the part |
| PyStrings.JoinHasSeparator | backend/services/telemetry_service_v2.py:518 | a join of two or more parts contains the separator |
| PyStrings.Join | backend/services/telemetry_service_v2.py:518 | a single part is itself; the result starts with the first part and holds at least (parts - 1) separators' worth of characters |
| PyStrings.Less | backend/tests/test_crop_sync.py:56 | a proper prefix sorts before the longer string |
| PyStrings.LessIrreflexive | backend/tests/test_crop_sync.py:56 | Python's string order is irreflexive |
| PyStrings.LessTransitive | backend/tests/test_crop_sync.py:56 | it is transitive |
| PyStrings.LessTotal | backend/tests/test_crop_sync.py:56 | it is total |
| PyStrings.LessAsymmetric | backend/tests/test_crop_sync.py:56 | it is asymmetric |
| PyStrings.Insert | backend/tests/test_crop_sync.py:56 | inserting into a strictly ascending list keeps it strictly ascending and adds exactly the element |
| PyStrings.SortedSet | backend/tests/test_crop_sync.py:56 | `sorted(set(xs))` is strictly ascending and holds exactly the elements of xs |
| PyStrings.AscendingUnique | backend/tests/test_crop_sync.py:88-90 | two strictly ascending lists with the same elements are equal |
| CropSync.Find | backend/tests/test_crop_sync.py:29 | `find` gives the first match at or after the start, or -1 iff there is none |
| CropSync.SliceBound | backend/tests/test_crop_sync.py:38 | a bound in [0,n] is kept, one above n becomes n, a negative one counts from the end and clamps at 0 |
| CropSync.ArrayEnd | backend/tests/test_crop_sync.py:33-36 | the end is -1 or an occurrence of "].sort()" or "];" at or after the bracket |
| CropSync.Slice | backend/tests/test_crop_sync.py:38 | `s[a:b]` is never longer than s; it is `s[a..b]` for in-range bounds, runs to the end for b past it, stops \|s\|+b from the start for negative b, and is empty when the normalised bounds cross |
| CropSync.BracketAfterMarker | backend/tests/test_crop_sync.py:29-33 | after the marker, the bracket search finds a bracket no later than the marker's own |
| CropSync.Split | backend/tests/test_crop_sync.py:45-54 | the reference `split('"')` has at least one piece |
| CropSync.IsSpace | backend/tests/test_crop_sync.py:52 | the `str.isspace` code points; none is the double quote |
| CropSync.Blank | backend/tests/test_crop_sync.py:52 | `not s.strip()`: the empty text is blank, and a blank text holds no quote |
| CropSync.Extract | backend/tests/test_crop_sync.py:41-54 | the reference result of the scanner; no name in it is blank |
| CropSync.ExtractQuote | backend/tests/test_crop_sync.py:46-52 | a quote toggles the in-string state; a closing quote keeps the finished name iff it is not blank |
| CropSync.ExtractOther | backend/tests/test_crop_sync.py:53-54 | any other character keeps the state and extends the current piece, adding no name |
| CropSync.ScanQuoted | backend/tests/test_crop_sync.py:41-54 | the scanner's names are the closed, non-blank odd pieces of `split('"')` |
| CropSync.SplitJoin | backend/tests/test_crop_sync.py:45-54 | joining the pieces with '"' gives the text back |
| CropSync.SplitNoQuote | backend/tests/test_crop_sync.py:45-54 | no piece contains '"' |
| CropSync.ExtractedNames | backend/tests/test_crop_sync.py:45-54 | every name is a whole piece between a matching pair of quotes, contains no '"', is not blank and is not trimmed |
| CropSync.UnterminatedQuoteIgnored | backend/tests/test_crop_sync.py:45-54 | an opening quote that is never closed contributes nothing, whatever follows it |
| CropSync.GetFrontendCrops | backend/tests/test_crop_sync.py:23-56 | the method gives the specified result, and it is strictly ascending |
| CropSync.NoMarkerNoCrops | backend/tests/test_crop_sync.py:29-31 | without the marker the result is [] |
| CropSync.FrontendCrops | backend/tests/test_crop_sync.py:23-56 | the promised result of `get_frontend_crops` is strictly ascending |
| CropSync.FrontendCropsSortedSet | backend/tests/test_crop_sync.py:56 | the result is strictly ascending and holds exactly the names extracted from the array text `content[start+1:end]` |
| CropSync.ArrayEndIsFirst | backend/tests/test_crop_sync.py:33-36 | the array ends at the first "].sort()" after the bracket if any; with none, at the first "];"; -1 only when neither occurs |
| CropSync.MissingTerminatorDropsLastChar | backend/tests/test_crop_sync.py:33-38 | with neither terminator, `content[start+1:-1]` is everything after the bracket except the file's last character |
| CropSync.FirstInvalidRecord | backend/tests/test_crop_sync.py:96-125 | None iff every record has all four bounds, ordered ranges and humidity within [0,100]; otherwise the first failing record |
| CropSync.Names | backend/tests/test_crop_sync.py:20 | one name per record, in order |
| CropSync.BackendCrops | backend/tests/test_crop_sync.py:17-20 | `sorted(set(names))`: strictly ascending, with exactly the records' names |
| CropSync.CropListsIdenticalIffSameNames | backend/tests/test_crop_sync.py:78-90 | the two crop lists are identical iff the backend's names and the frontend's names are the same set |

## Left out

- HTTP calls (Google Geocoding, Routes, Weather, Air Quality, Pollen, Solar and Translation; Nominatim, OSRM, OpenWeatherMap). Their results are parameters: per-waypoint readings, `PollenResponse`, `ForecastResponse`, `TranslationResponse`. Geocoding and extracting waypoints from the route steps are not modelled.
- Concurrency: `asyncio.gather`, the thread-pool `_run_async` wrapper and the `threading.Lock` of the session cache. The model is single-threaded.
- Floating point: `real` is exact, and Python's `round()` is not modelled. Haversine distance is a parameter `dist`. `np.exp` in VPD is the parameter `es`.
- Randomness: `_simulated_weather` and `_simulated_air_quality` are not modelled. A lookup that raised is represented by the reading the caller substitutes.
- Sessions.SessionCache.CreateSession, Sessions.SessionCache.Set and Sessions.SessionCache.Get: the source calls `datetime.now()` twice per call: for `created` and for `expires` in `create_session` and `set`, and for the expiry test and the renewal in `get`. The model uses one `now` per call, so an entry's renewed expiry is measured from the instant of the test.
- Sessions.SessionCache.constructor: the default `ttl_minutes=30` is not modelled; the caller passes the minutes.
- Translation.Translator.TranslateText and Translation.Translator.TranslateReport: the default `target_language="hi"` is not modelled; the caller passes the target.
- Sessions.SessionCache.Set: `data` is stored as present; storing Python `None` as data is not distinguished.
- Telemetry.GenerateTripTelemetry: "no reading" is `None`; an empty weather dictionary (also falsy in Python) is not distinguished. The source only prints the real-reading count; the model returns it.
- GoogleTelemetry.GenerateTripTelemetry: the duplicate keys (`lng`, `weather_temp`, `distance_km`, `hours_elapsed`) and the `lon`/`lng` fallback are not modelled. The count is returned rather than printed.
- GoogleTelemetry.FinalTimeIsDuration: stated only for a positive segment sum. `sum or total_distance` also accepts a negative sum, which cannot arise from distances.
- EnvironmentalData.GetPollenData: the "types" map of display names is not modelled.
- EnvironmentalData.HeatLabelsExclusive and EnvironmentalData.NormalIffNoLabels: stated only when the weather condition text is not itself one of those labels. `HeatLabelsWithHotCondition` shows why.
- Translation.Translator.TranslateReport: requires `agent_insight`, when present, to be a string. A non-dictionary `risk_analysis`, or a non-string status, is not modelled.
- Translation.Translator.TranslateText: texts whose `hash` collides share a cache entry, as in the source. `hash` is a parameter.
- The `AGRICULTURAL_TERMS` table in backend/services/translation_service.py is unused data and is not modelled.
- CropSync: the file reads and JSON parsing are not modelled. The contents and the records are parameters, and every record is taken to have a `name`.
- CropSync: the "exactly 92 crops" tests depend on data files that are not part of this model.
- Model training and the metric computations in test_model.py are not modelled.
- The FastAPI glue (backend/main.py), the agent and RAG services, and their tests are not part of this model.
