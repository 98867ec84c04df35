/**
 * The environmental side of the second telemetry service
 * (backend/services/telemetry_service_v2.py): the additive environmental
 * risk score, the human-readable condition description, the pollen
 * aggregation and the hourly forecast. Every API response is an input; a
 * key missing from a response dictionary is `None`, and each use applies the
 * default the service's `.get` supplies at that point.
 */
module EnvironmentalData {
  import opened Wrappers
  import opened PyStrings

  /** The weather dictionary's "temperature", "humidity", "condition", "uv_index", ... */
  datatype WeatherReading = WeatherReading(
    temperature: Option<real>,
    humidity: Option<real>,
    condition: Option<string>,
    uvIndex: Option<real>,
    precipitationProbability: Option<real>,
    feelsLike: Option<real>,
    windSpeed: Option<real>,
    source: Option<string>)

  /** The air-quality dictionary's "aqi" and "source". */
  datatype AirReading = AirReading(aqi: Option<real>, source: Option<string>)

  /** The pollen dictionary's "pollen_index" and "category". */
  datatype PollenReading = PollenReading(pollenIndex: Option<int>, category: Option<string>)

  /** The solar dictionary's "high_exposure". */
  datatype SolarReading = SolarReading(highExposure: Option<bool>)

  // Component risks of `_calculate_environmental_risk`; each threshold is strict.

  function TemperatureRisk(temp: real): (r: real)
    ensures 0.0 <= r <= 0.35
    ensures r == 0.0 <==> temp <= 28.0
  {
    if temp > 40.0 then 0.35 else if temp > 35.0 then 0.28 else if temp > 32.0 then 0.2
    else if temp > 28.0 then 0.1 else 0.0
  }

  function HumidityRisk(humidity: real): (r: real)
    ensures 0.0 <= r <= 0.25
    ensures r == 0.0 <==> humidity <= 65.0
  {
    if humidity > 85.0 then 0.25 else if humidity > 75.0 then 0.15 else if humidity > 65.0 then 0.08 else 0.0
  }

  function AirQualityRisk(aqi: real): (r: real)
    ensures 0.0 <= r <= 0.2
    ensures r == 0.0 <==> aqi <= 50.0
  {
    if aqi > 150.0 then 0.2 else if aqi > 100.0 then 0.12 else if aqi > 50.0 then 0.05 else 0.0
  }

  function PrecipitationRisk(probability: real): (r: real)
    ensures 0.0 <= r <= 0.1
    ensures r == 0.0 <==> probability <= 40.0
  {
    if probability > 70.0 then 0.1 else if probability > 40.0 then 0.05 else 0.0
  }

  function UvRisk(uv: real): (r: real)
    ensures 0.0 <= r <= 0.1
    ensures r == 0.0 <==> uv <= 6.0
  {
    if uv > 8.0 then 0.1 else if uv > 6.0 then 0.05 else 0.0
  }

  /** The five inputs of the score, with the defaults the service applies. */
  function RiskTemperature(weather: WeatherReading): real { weather.temperature.GetOr(25.0) }
  function RiskHumidity(weather: WeatherReading): real { weather.humidity.GetOr(50.0) }
  function RiskAqi(air: AirReading): real { air.aqi.GetOr(50.0) }
  function RiskPrecipitation(weather: WeatherReading): real { weather.precipitationProbability.GetOr(0.0) }
  function RiskUv(weather: WeatherReading): real { weather.uvIndex.GetOr(5.0) }

  /** The uncapped sum of the five component risks. */
  function RiskScore(temp: real, humidity: real, aqi: real, precipitation: real, uv: real): (r: real)
    ensures 0.0 <= r <= 1.0
  {
    TemperatureRisk(temp) + HumidityRisk(humidity) + AirQualityRisk(aqi) + PrecipitationRisk(precipitation) + UvRisk(uv)
  }

  /**
   * `_calculate_environmental_risk`: the result is the plain sum of the
   * component risks, so the final `min(1.0, risk)` never changes it.
   */
  method CalculateEnvironmentalRisk(weather: WeatherReading, air: AirReading, pollen: PollenReading, solar: SolarReading)
    returns (risk: real)
    ensures risk == RiskScore(RiskTemperature(weather), RiskHumidity(weather), RiskAqi(air),
                              RiskPrecipitation(weather), RiskUv(weather))
    ensures 0.0 <= risk <= 1.0
  {
    risk := 0.0;
    var temp := weather.temperature.GetOr(25.0);
    if temp > 40.0 {
      risk := risk + 0.35;
    } else if temp > 35.0 {
      risk := risk + 0.28;
    } else if temp > 32.0 {
      risk := risk + 0.2;
    } else if temp > 28.0 {
      risk := risk + 0.1;
    }
    assert risk == TemperatureRisk(temp);
    var humidity := weather.humidity.GetOr(50.0);
    if humidity > 85.0 {
      risk := risk + 0.25;
    } else if humidity > 75.0 {
      risk := risk + 0.15;
    } else if humidity > 65.0 {
      risk := risk + 0.08;
    }
    assert risk == TemperatureRisk(temp) + HumidityRisk(humidity);
    var aqi := air.aqi.GetOr(50.0);
    if aqi > 150.0 {
      risk := risk + 0.2;
    } else if aqi > 100.0 {
      risk := risk + 0.12;
    } else if aqi > 50.0 {
      risk := risk + 0.05;
    }
    assert risk == TemperatureRisk(temp) + HumidityRisk(humidity) + AirQualityRisk(aqi);
    var precipProb := weather.precipitationProbability.GetOr(0.0);
    if precipProb > 70.0 {
      risk := risk + 0.1;
    } else if precipProb > 40.0 {
      risk := risk + 0.05;
    }
    assert risk == TemperatureRisk(temp) + HumidityRisk(humidity) + AirQualityRisk(aqi) + PrecipitationRisk(precipProb);
    var uvIndex := weather.uvIndex.GetOr(5.0);
    if uvIndex > 8.0 {
      risk := risk + 0.1;
    } else if uvIndex > 6.0 {
      risk := risk + 0.05;
    }
    risk := if 1.0 <= risk then 1.0 else risk;
  }

  /** The score is non-decreasing in each of its five inputs. */
  lemma RiskMonotone(t1: real, h1: real, a1: real, p1: real, u1: real, t2: real, h2: real, a2: real, p2: real, u2: real)
    requires t1 <= t2 && h1 <= h2 && a1 <= a2 && p1 <= p2 && u1 <= u2
    ensures RiskScore(t1, h1, a1, p1, u1) <= RiskScore(t2, h2, a2, p2, u2)
  {
  }

  /** The caps 0.35, 0.25, 0.2, 0.1 and 0.1 are reached together, and they add up to exactly 1. */
  lemma RiskCapsSumToOne(temp: real, humidity: real, aqi: real, precipitation: real, uv: real)
    requires temp > 40.0 && humidity > 85.0 && aqi > 150.0 && precipitation > 70.0 && uv > 8.0
    ensures RiskScore(temp, humidity, aqi, precipitation, uv) == 1.0
  {
  }

  /** With every field missing the defaults (25°C, 50%, AQI 50, 0%, UV 5) carry no risk. */
  lemma DefaultsCarryNoRisk()
    ensures var weather := WeatherReading(None, None, None, None, None, None, None, None);
      RiskScore(RiskTemperature(weather), RiskHumidity(weather), RiskAqi(AirReading(None, None)),
                RiskPrecipitation(weather), RiskUv(weather)) == 0.0
  {
  }

  // `_get_condition_description`

  /** The temperature label: at most one of "Extreme heat" and "Hot". */
  function HeatLabel(temp: real): (labels: seq<string>)
    ensures |labels| <= 1
    ensures "Extreme heat" in labels <==> temp > 35.0
    ensures "Hot" in labels <==> 30.0 < temp <= 35.0
  {
    if temp > 35.0 then ["Extreme heat"] else if temp > 30.0 then ["Hot"] else []
  }

  function ConditionLabel(weather: WeatherReading): (labels: seq<string>)
    ensures |labels| <= 1
    ensures labels == [] <==> weather.condition.GetOr("") == ""
  {
    if weather.condition.GetOr("") != "" then [weather.condition.GetOr("")] else []
  }

  function AirLabel(air: AirReading): seq<string> {
    if air.aqi.GetOr(50.0) > 100.0 then ["Poor air quality"] else []
  }

  function SunLabel(solar: SolarReading): seq<string> {
    if solar.highExposure == Some(true) then ["High sun exposure"] else []
  }

  function PollenLabel(pollen: PollenReading): seq<string> {
    if pollen.pollenIndex.GetOr(0) > 3 then ["High pollen"] else []
  }

  /** The labels that apply, in the service's fixed order: condition, heat, air, sun, pollen. */
  function Labels(weather: WeatherReading, air: AirReading, pollen: PollenReading, solar: SolarReading): (labels: seq<string>)
    ensures |labels| <= 5
    ensures forall i :: 0 <= i < |labels| ==> labels[i] != ""
  {
    ConditionLabel(weather) + HeatLabel(weather.temperature.GetOr(25.0)) + AirLabel(air) + SunLabel(solar)
    + PollenLabel(pollen)
  }

  /** The description shown for a list of labels. */
  function Describe(labels: seq<string>): (d: string)
    ensures labels == [] ==> d == "Normal conditions"
    ensures |labels| == 1 ==> d == labels[0]
    ensures |labels| >= 2 ==> ',' in d
  {
    if |labels| >= 2 then JoinHasSeparator(labels, ", "); Join(labels, ", ")
    else if |labels| > 0 then Join(labels, ", ") else "Normal conditions"
  }

  method ConditionDescription(weather: WeatherReading, air: AirReading, pollen: PollenReading, solar: SolarReading)
    returns (description: string)
    ensures description == Describe(Labels(weather, air, pollen, solar))
  {
    var parts: seq<string> := [];
    var weatherCond := weather.condition.GetOr("");
    if weatherCond != "" {
      parts := parts + [weatherCond];
    }
    assert parts == ConditionLabel(weather);
    var temp := weather.temperature.GetOr(25.0);
    if temp > 35.0 {
      parts := parts + ["Extreme heat"];
    } else if temp > 30.0 {
      parts := parts + ["Hot"];
    }
    assert parts == ConditionLabel(weather) + HeatLabel(temp);
    var aqi := air.aqi.GetOr(50.0);
    if aqi > 100.0 {
      parts := parts + ["Poor air quality"];
    }
    assert parts == ConditionLabel(weather) + HeatLabel(temp) + AirLabel(air);
    if solar.highExposure == Some(true) {
      parts := parts + ["High sun exposure"];
    }
    assert parts == ConditionLabel(weather) + HeatLabel(temp) + AirLabel(air) + SunLabel(solar);
    if pollen.pollenIndex.GetOr(0) > 3 {
      parts := parts + ["High pollen"];
    }
    assert parts == Labels(weather, air, pollen, solar);
    description := if |parts| > 0 then Join(parts, ", ") else "Normal conditions";
  }

  /** Each fixed label is present exactly when its condition holds (unless the weather text is that label). */
  lemma LabelMeaning(weather: WeatherReading, air: AirReading, pollen: PollenReading, solar: SolarReading)
    ensures var labels := Labels(weather, air, pollen, solar);
      var condition := weather.condition.GetOr("");
      && (condition != "" ==> labels[0] == condition)
      && (condition != "Extreme heat" ==> ("Extreme heat" in labels <==> weather.temperature.GetOr(25.0) > 35.0))
      && (condition != "Hot" ==> ("Hot" in labels <==> 30.0 < weather.temperature.GetOr(25.0) <= 35.0))
      && (condition != "Poor air quality" ==> ("Poor air quality" in labels <==> air.aqi.GetOr(50.0) > 100.0))
      && (condition != "High sun exposure" ==> ("High sun exposure" in labels <==> solar.highExposure == Some(true)))
      && (condition != "High pollen" ==> ("High pollen" in labels <==> pollen.pollenIndex.GetOr(0) > 3))
  {
    InLabels("Extreme heat", weather, air, pollen, solar);
    InLabels("Hot", weather, air, pollen, solar);
    InLabels("Poor air quality", weather, air, pollen, solar);
    InLabels("High sun exposure", weather, air, pollen, solar);
    InLabels("High pollen", weather, air, pollen, solar);
  }

  lemma InLabels(x: string, weather: WeatherReading, air: AirReading, pollen: PollenReading, solar: SolarReading)
    ensures x in Labels(weather, air, pollen, solar) <==>
      x in ConditionLabel(weather) || x in HeatLabel(weather.temperature.GetOr(25.0)) || x in AirLabel(air)
      || x in SunLabel(solar) || x in PollenLabel(pollen)
  {
  }

  /** The heat rule contributes at most one label, so the two heat labels never come from it together. */
  lemma HeatLabelsExclusive(weather: WeatherReading, air: AirReading, pollen: PollenReading, solar: SolarReading)
    requires weather.condition.GetOr("") != "Hot" && weather.condition.GetOr("") != "Extreme heat"
    ensures var labels := Labels(weather, air, pollen, solar);
      !("Extreme heat" in labels && "Hot" in labels)
  {
    LabelMeaning(weather, air, pollen, solar);
  }

  /** A weather text of "Hot" on a day above 35°C does put both heat words in the description. */
  lemma HeatLabelsWithHotCondition()
    ensures var weather := WeatherReading(Some(36.0), None, Some("Hot"), None, None, None, None, None);
      Labels(weather, AirReading(None, None), PollenReading(None, None), SolarReading(None)) == ["Hot", "Extreme heat"]
  {
  }

  /** "Normal conditions" is shown exactly when no label applies (unless the weather text is itself that phrase). */
  lemma NormalIffNoLabels(weather: WeatherReading, air: AirReading, pollen: PollenReading, solar: SolarReading)
    requires weather.condition.GetOr("") != "Normal conditions"
    ensures var labels := Labels(weather, air, pollen, solar);
      Describe(labels) == "Normal conditions" <==> labels == []
  {
    var labels := Labels(weather, air, pollen, solar);
    if |labels| >= 2 {
      JoinHasSeparator(labels, ", ");
      assert ',' !in "Normal conditions";
    } else if |labels| == 1 {
      assert labels[0] in {weather.condition.GetOr(""), "Extreme heat", "Hot", "Poor air quality", "High sun exposure", "High pollen"};
    }
  }

  // The pollen loop of `get_pollen_data`

  /** One entry of "pollenTypeInfo": its index value and category, when present. */
  datatype PollenType = PollenType(value: Option<int>, category: Option<string>)

  function IndexValue(p: PollenType): int { p.value.GetOr(0) }

  /** Entry `i` attains `m` and no earlier entry does. */
  predicate FirstAttains(types: seq<PollenType>, i: int, m: int) {
    0 <= i < |types| && IndexValue(types[i]) == m && forall j :: 0 <= j < i ==> IndexValue(types[j]) < m
  }

  /**
   * The aggregation: `max_index` is the maximum of 0 and every index value,
   * and the category comes from the first entry that attains it, "Low" when
   * no value is positive.
   */
  method AggregatePollen(types: seq<PollenType>) returns (maxIndex: int, maxCategory: string)
    ensures maxIndex >= 0
    ensures forall i :: 0 <= i < |types| ==> IndexValue(types[i]) <= maxIndex
    ensures maxIndex == 0 ==> maxCategory == "Low"
    ensures maxIndex > 0 ==> exists i :: FirstAttains(types, i, maxIndex) && maxCategory == types[i].category.GetOr("Low")
  {
    maxIndex, maxCategory := 0, "Low";
    ghost var at := -1;
    var k := 0;
    while k < |types|
      invariant 0 <= k <= |types|
      invariant maxIndex >= 0
      invariant forall i :: 0 <= i < k ==> IndexValue(types[i]) <= maxIndex
      invariant at == -1 ==> maxIndex == 0 && maxCategory == "Low"
      invariant at != -1 ==> at < k && maxIndex > 0 && FirstAttains(types, at, maxIndex)
                             && maxCategory == types[at].category.GetOr("Low")
    {
      var idx := types[k].value.GetOr(0);
      if idx > maxIndex {
        maxIndex := idx;
        maxCategory := types[k].category.GetOr("Low");
        at := k;
      }
      k := k + 1;
    }
  }

  datatype PollenResponse = DailyInfo(days: seq<seq<PollenType>>) | NoDailyInfo | PollenRaised

  datatype PollenSummary = PollenSummary(pollenIndex: int, category: string, source: string)

  const SimulatedPollen := PollenSummary(2, "Low", "simulated")

  /** `get_pollen_data`, with the HTTP response as an input. */
  method GetPollenData(hasApiKey: bool, response: PollenResponse) returns (summary: PollenSummary)
    ensures !hasApiKey || !response.DailyInfo? || |response.days| == 0 ==> summary == SimulatedPollen
    ensures hasApiKey && response.DailyInfo? && |response.days| > 0 ==>
      summary.source == "google_pollen" && summary.pollenIndex >= 0
      && (forall i :: 0 <= i < |response.days[0]| ==> IndexValue(response.days[0][i]) <= summary.pollenIndex)
      && (summary.pollenIndex == 0 ==> summary.category == "Low")
      && (summary.pollenIndex > 0 ==> exists i :: FirstAttains(response.days[0], i, summary.pollenIndex)
                                                && summary.category == response.days[0][i].category.GetOr("Low"))
  {
    if !hasApiKey {
      return SimulatedPollen;
    }
    if response.DailyInfo? && |response.days| > 0 {
      var maxIndex, maxCategory := AggregatePollen(response.days[0]);
      return PollenSummary(maxIndex, maxCategory, "google_pollen");
    }
    return SimulatedPollen;
  }

  // `get_weather_forecast`

  /** The "hours" request parameter, `min(hours, 240)`. */
  function RequestHours(hours: int): (h: int)
    ensures h <= 240
    ensures h == hours || (hours > 240 && h == 240)
  {
    if hours <= 240 then hours else 240
  }

  /** The length of Python's `s[:k]` for a sequence of length `n`, negative `k` counting from the end. */
  function PrefixLength(n: nat, k: int): (m: nat)
    ensures m <= n
    ensures k >= 0 ==> m <= k
    ensures k >= 0 && k <= n ==> m == k
    ensures k > n ==> m == n
    ensures k < 0 && n + k >= 0 ==> m == n + k
    ensures n + k < 0 ==> m == 0
  {
    if k >= 0 then (if k <= n then k else n) else if n + k >= 0 then n + k else 0
  }

  /** One element of the forecast's "hours" list. */
  datatype ForecastEntry = ForecastEntry(
    startTime: Option<string>,
    temperature: Option<real>,
    humidity: Option<real>,
    precipitation: Option<real>,
    condition: Option<string>)

  datatype HourlyForecast = HourlyForecast(time: string, temperature: real, humidity: real, precipitationProb: real,
                                           condition: string)

  function ToHourly(e: ForecastEntry): HourlyForecast {
    HourlyForecast(e.startTime.GetOr(""), e.temperature.GetOr(25.0), e.humidity.GetOr(50.0),
                   e.precipitation.GetOr(0.0), e.condition.GetOr(""))
  }

  datatype ForecastResponse = Hours(entries: seq<ForecastEntry>) | NoHours | ForecastRaised

  datatype Forecast = Forecast(hourly: seq<HourlyForecast>, source: string)

  /** `get_weather_forecast`, returning the request's hour count beside the result. */
  method GetWeatherForecast(hasApiKey: bool, hours: int, response: ForecastResponse)
    returns (requested: int, forecast: Forecast)
    ensures requested == RequestHours(hours)
    ensures !hasApiKey || !response.Hours? ==> forecast == Forecast([], "simulated")
    ensures hasApiKey && response.Hours? ==>
      forecast.source == "google_weather_api"
      && |forecast.hourly| == PrefixLength(|response.entries|, hours)
      && |forecast.hourly| <= |response.entries|
      && (hours >= 0 ==> |forecast.hourly| <= hours)
      && forall i :: 0 <= i < |forecast.hourly| ==> forecast.hourly[i] == ToHourly(response.entries[i])
  {
    requested := RequestHours(hours);
    if !hasApiKey || !response.Hours? {
      return requested, Forecast([], "simulated");
    }
    var entries := response.entries[..PrefixLength(|response.entries|, hours)];
    var hourly: seq<HourlyForecast> := [];
    var k := 0;
    while k < |entries|
      invariant 0 <= k <= |entries|
      invariant |hourly| == k
      invariant forall i :: 0 <= i < k ==> hourly[i] == ToHourly(entries[i])
    {
      hourly := hourly + [ToHourly(entries[k])];
      k := k + 1;
    }
    forecast := Forecast(hourly, "google_weather_api");
  }

  // `get_environmental_conditions`

  /** The fields of the `get_environmental_conditions` result that the rest of the service reads. */
  datatype Conditions = Conditions(
    temperature: real,
    humidity: real,
    feelsLike: real,
    weatherCondition: string,
    uvIndex: real,
    windSpeed: real,
    precipitationProb: real,
    air: AirReading,
    pollen: PollenReading,
    solar: SolarReading,
    condition: string,
    environmentalRisk: real,
    weatherSource: string)

  /** `get_environmental_conditions` once the four lookups have been resolved. */
  method GetEnvironmentalConditions(weather: WeatherReading, air: AirReading, pollen: PollenReading, solar: SolarReading)
    returns (c: Conditions)
    ensures c.temperature == weather.temperature.GetOr(25.0) && c.humidity == weather.humidity.GetOr(50.0)
    ensures c.feelsLike == weather.feelsLike.GetOr(c.temperature)
    ensures c.weatherCondition == weather.condition.GetOr("Unknown")
    ensures c.uvIndex == weather.uvIndex.GetOr(5.0) && c.windSpeed == weather.windSpeed.GetOr(10.0)
    ensures c.precipitationProb == weather.precipitationProbability.GetOr(0.0)
    ensures c.air == air && c.pollen == pollen && c.solar == solar
    ensures c.condition == Describe(Labels(weather, air, pollen, solar))
    ensures c.environmentalRisk == RiskScore(RiskTemperature(weather), RiskHumidity(weather), RiskAqi(air),
                                             RiskPrecipitation(weather), RiskUv(weather))
    ensures 0.0 <= c.environmentalRisk <= 1.0
    ensures c.weatherSource == weather.source.GetOr("unknown")
  {
    var temperature := weather.temperature.GetOr(25.0);
    var humidity := weather.humidity.GetOr(50.0);
    var condition := ConditionDescription(weather, air, pollen, solar);
    var risk := CalculateEnvironmentalRisk(weather, air, pollen, solar);
    c := Conditions(temperature, humidity, weather.feelsLike.GetOr(temperature), weather.condition.GetOr("Unknown"),
                    weather.uvIndex.GetOr(5.0), weather.windSpeed.GetOr(10.0),
                    weather.precipitationProbability.GetOr(0.0), air, pollen, solar, condition, risk,
                    weather.source.GetOr("unknown"));
  }
}
