/** The weather service: `searchLocation` with its error selection and its air-quality and
    forecast fallbacks, the air-quality band table, the forecast day mapping and the
    location id. Responses are inputs; so are the clock and the engine's rendering of a
    number inside a template string. */
module WeatherService {
  import opened Results
  import opened Text
  import opened Http
  import opened WeatherTypes

  const KeysMissing := "API keys are not configured. Please check your environment variables."
  const LocationNotFound := "Location not found. Please check the spelling and try again."
  const InvalidWeatherKey := "Invalid API key. Please check your OpenWeatherMap API key."
  const WeatherUnexpected := "An unexpected error occurred. Please try again."
  const DataUnavailable := "Data unavailable"
  const AirInfoUnavailable := "Air quality data unavailable."
  const GoodAdvice := "Air quality is good. Perfect for outdoor activities."
  const FairAdvice := "Air quality is acceptable for most people."
  const ModerateAdvice := "Sensitive individuals should consider limiting outdoor activities."
  const PoorAdvice := "Everyone should limit outdoor activities."
  const VeryPoorAdvice := "Avoid outdoor activities. Health warnings recommended."

  function WeatherServiceError(status: nat): string
  {
    "Weather service error: " + NatToString(status)
  }

  // ---------------------------------------------------------------- rounding

  /** `Math.round`: the nearest integer, halves rounded up (towards +infinity). */
  function Round(x: real): (r: int)
    ensures x - 0.5 < r as real <= x + 0.5
  {
    (x + 0.5).Floor
  }

  /** Rounding is monotone, so a day whose maximum is at least its minimum keeps that
      order after rounding. */
  lemma RoundMonotone(x: real, y: real)
    requires x <= y
    ensures Round(x) <= Round(y)
  {
  }

  // ---------------------------------------------------------------- air quality

  /** The band's rank on the 1..5 scale of the upstream index. */
  function Severity(level: AirLevel): int
  {
    match level
    case Good => 1
    case Fair => 2
    case Moderate => 3
    case Poor => 4
    case VeryPoor => 5
  }

  datatype AirInfo = AirInfo(level: AirLevel, recommendation: string)

  /** The advice for the bands of rank 1 to 5, in rank order. */
  const AdviceByRank := [GoodAdvice, FairAdvice, ModerateAdvice, PoorAdvice, VeryPoorAdvice]

  /** `getAirQualityInfo(aqi)`: the band of an index in 1..5 and its advice; any other
      index is reported as Good with the "unavailable" advice. */
  function AirQualityInfo(aqi: int): (info: AirInfo)
    ensures 1 <= aqi <= 5 ==> Severity(info.level) == aqi
    ensures 1 <= aqi <= 5 ==> info.recommendation == AdviceByRank[aqi - 1]
    ensures !(1 <= aqi <= 5) ==> info == AirInfo(Good, AirInfoUnavailable)
    ensures info.recommendation == AirInfoUnavailable <==> !(1 <= aqi <= 5)
  {
    match aqi
    case 1 => AirInfo(Good, GoodAdvice)
    case 2 => AirInfo(Fair, FairAdvice)
    case 3 => AirInfo(Moderate, ModerateAdvice)
    case 4 => AirInfo(Poor, PoorAdvice)
    case 5 => AirInfo(VeryPoor, VeryPoorAdvice)
    case _ => AirInfo(Good, AirInfoUnavailable)
  }

  /** A worse index never gets a milder band, and each in-range index has its own advice. */
  lemma AirQualityInfoOrdered(a: int, b: int)
    requires 1 <= a <= 5 && 1 <= b <= 5
    ensures a <= b ==> Severity(AirQualityInfo(a).level) <= Severity(AirQualityInfo(b).level)
    ensures a != b ==> AirQualityInfo(a).recommendation != AirQualityInfo(b).recommendation
  {
  }

  /** The snapshot kept when the air-quality request answers with a non-OK status. Its advice
      differs from the advice for an out-of-range index. */
  function UnavailableAirQuality(): (q: AirQualityData)
    ensures q.aqi == 0 && q.level == Good
    ensures q.co == q.no2 == q.o3 == q.so2 == q.pm2_5 == q.pm10 == 0.0
    ensures q.recommendation == DataUnavailable
    ensures q.recommendation != AirQualityInfo(q.aqi).recommendation
  {
    AirQualityData(0, 0.0, 0.0, 0.0, 0.0, 0.0, 0.0, DataUnavailable, Good)
  }

  // ---------------------------------------------------------------- upstream bodies

  datatype Coord = Coord(lat: real, lon: real)
  datatype Condition = Condition(description: string, icon: string)

  /** The OpenWeatherMap current-weather body. */
  datatype WeatherBody = WeatherBody(
    coord: Coord, name: string, country: string, temp: real, feelsLike: real,
    humidity: real, pressure: real, windSpeed: real, visibility: real,
    conditions: seq<Condition>)

  datatype Components = Components(co: real, no2: real, o3: real, so2: real, pm2_5: real, pm10: real)
  datatype AirEntry = AirEntry(aqi: int, components: Components)

  /** The OpenWeatherMap air-pollution body. */
  datatype AirBody = AirBody(list: seq<AirEntry>)

  /** One WeatherAPI forecast day. */
  datatype DayBody = DayBody(
    date: string, maxTempC: real, minTempC: real, conditionText: string, conditionIcon: string,
    avgHumidity: real, maxWindKph: real, dailyChanceOfRain: real)

  /** The WeatherAPI forecast body. */
  datatype ForecastBody = ForecastBody(days: seq<DayBody>)

  /** Everything `searchLocation` learns from its environment. */
  datatype LocationFetch = LocationFetch(
    keysConfigured: bool, weather: Response<WeatherBody>, air: Response<AirBody>,
    forecast: Response<ForecastBody>, now: int)

  /** What reading a property of `undefined` throws. */
  const MissingEntry := TypeError("Cannot read properties of undefined")

  /** Reading a missing entry is not a transport failure: it surfaces as the service's
      "unexpected error" text. */
  lemma MissingEntryIsUnexpected(unexpected: string)
    ensures Reclassify(MissingEntry, unexpected) == unexpected
  {
    NoFetchInMissingEntry();
  }

  lemma NoFetchInMissingEntry()
    ensures !Contains(MissingEntry.message, "fetch")
  {
    MissingCharNotContained(MissingEntry.message, "fetch", 'h');
  }

  // ---------------------------------------------------------------- the mappings

  function DayOf(d: DayBody): ForecastDay
  {
    ForecastDay(d.date, Round(d.maxTempC), Round(d.minTempC), d.conditionText, d.conditionIcon,
                d.avgHumidity, d.maxWindKph, d.dailyChanceOfRain)
  }

  /** The forecast mapping: one day per upstream day, in the same order, with the
      temperatures rounded and every other field copied. */
  function ForecastDays(days: seq<DayBody>): (forecast: seq<ForecastDay>)
    ensures |forecast| == |days|
    ensures forall i :: 0 <= i < |days| ==>
              && forecast[i].date == days[i].date
              && forecast[i].maxTemp == Round(days[i].maxTempC)
              && forecast[i].minTemp == Round(days[i].minTempC)
              && forecast[i].description == days[i].conditionText
              && forecast[i].icon == days[i].conditionIcon
              && forecast[i].humidity == days[i].avgHumidity
              && forecast[i].windSpeed == days[i].maxWindKph
              && forecast[i].chanceOfRain == days[i].dailyChanceOfRain
  {
    seq(|days|, i requires 0 <= i < |days| => DayOf(days[i]))
  }

  /** An upstream day whose maximum is at least its minimum keeps that order once rounded. */
  lemma ForecastKeepsDayRange(days: seq<DayBody>, i: int)
    requires 0 <= i < |days| && days[i].minTempC <= days[i].maxTempC
    ensures ForecastDays(days)[i].minTemp <= ForecastDays(days)[i].maxTemp
  {
    RoundMonotone(days[i].minTempC, days[i].maxTempC);
  }

  /** The air-quality snapshot built from the first entry of an OK response. */
  function AirQualityOf(entry: AirEntry): (q: AirQualityData)
    ensures q.aqi == entry.aqi
    ensures AirInfo(q.level, q.recommendation) == AirQualityInfo(entry.aqi)
    ensures && q.co == entry.components.co && q.no2 == entry.components.no2
            && q.o3 == entry.components.o3 && q.so2 == entry.components.so2
            && q.pm2_5 == entry.components.pm2_5 && q.pm10 == entry.components.pm10
  {
    var c := entry.components;
    var info := AirQualityInfo(entry.aqi);
    AirQualityData(entry.aqi, c.co, c.no2, c.o3, c.so2, c.pm2_5, c.pm10, info.recommendation, info.level)
  }

  /** The location id `${lat}-${lon}`, where `render` is the engine's number-to-text: the
      latitude's text, one `-`, then the longitude's text. */
  function LocationId(render: real -> string, lat: real, lon: real): (id: string)
    ensures |id| == |render(lat)| + 1 + |render(lon)|
    ensures id[..|render(lat)|] == render(lat)
    ensures id[|render(lat)|] == '-'
    ensures id[|render(lat)| + 1..] == render(lon)
  {
    render(lat) + "-" + render(lon)
  }

  /** A number's text that is not empty and carries `-` at most in front, as a sign. */
  predicate DashOnlyAsSign(t: string)
  {
    t != [] && forall i :: 1 <= i < |t| ==> t[i] != '-'
  }

  /** Equal coordinates give equal ids. Conversely, when the two latitudes render with a
      `-` at most as a sign and their texts, like those of the longitudes, differ whenever
      the numbers do, the id determines the coordinates, even with a negative longitude
      (`51.5--0.12`). */
  lemma {:induction false} LocationIdDeterminesCoordinates(render: real -> string, lat1: real, lon1: real, lat2: real, lon2: real)
    requires DashOnlyAsSign(render(lat1)) && DashOnlyAsSign(render(lat2))
    requires render(lat1) == render(lat2) ==> lat1 == lat2
    requires render(lon1) == render(lon2) ==> lon1 == lon2
    ensures LocationId(render, lat1, lon1) == LocationId(render, lat2, lon2) <==> lat1 == lat2 && lon1 == lon2
  {
    var a1, a2 := render(lat1), render(lat2);
    var id1, id2 := LocationId(render, lat1, lon1), LocationId(render, lat2, lon2);
    if id1 == id2 {
      if |a1| < |a2| {
        assert false;
      } else if |a2| < |a1| {
        assert false;
      }
      assert a1 == id1[..|a1|] == id2[..|a2|] == a2;
      assert render(lon1) == id1[|a1| + 1..] == id2[|a2| + 1..] == render(lon2);
    }
  }

  // ---------------------------------------------------------------- searchLocation

  /** The failure `catch` reports for what the `try` block threw. */
  function Fail(e: Thrown): Result<LocationData>
  {
    Err(Reclassify(e, WeatherUnexpected))
  }

  /** The weather request answered OK with a readable body. */
  predicate WeatherRead(f: LocationFetch)
  {
    f.weather.Answered? && IsOk(f.weather.status) && f.weather.body.Some?
  }

  /** The air request neither threw nor answered OK without a readable first entry. */
  predicate AirUsable(f: LocationFetch)
  {
    !f.air.Threw? && (f.air.Answered? && IsOk(f.air.status) ==> f.air.body.Some? && f.air.body.value.list != [])
  }

  /** The air request answered OK with a readable body whose list is empty. */
  predicate AirMissingEntry(f: LocationFetch)
  {
    f.air.Answered? && IsOk(f.air.status) && f.air.body.Some? && f.air.body.value.list == []
  }

  /** The forecast request neither threw nor answered OK with an unreadable body. */
  predicate ForecastUsable(f: LocationFetch)
  {
    !f.forecast.Threw? && (f.forecast.Answered? && IsOk(f.forecast.status) ==> f.forecast.body.Some?)
  }

  /** An answered request with a non-OK status. */
  predicate Refused<B>(r: Response<B>)
  {
    r.Answered? && !IsOk(r.status)
  }

  /** `searchLocation(query)`. The query only shapes the request URLs; the outcomes of the
      three requests are `f`. */
  method SearchLocation(f: LocationFetch, render: real -> string) returns (r: Result<LocationData>)
    ensures !f.keysConfigured ==> r == Err(KeysMissing)
    ensures f.keysConfigured && Refused(f.weather) ==>
              r == Err(if f.weather.status == 404 then LocationNotFound
                       else if f.weather.status == 401 then InvalidWeatherKey
                       else WeatherServiceError(f.weather.status))
    ensures f.keysConfigured && f.weather.Threw? ==> r == Err(Reclassify(f.weather.thrown, WeatherUnexpected))
    ensures f.keysConfigured && f.weather.Answered? && IsOk(f.weather.status) && f.weather.body.None? ==>
              r == Err(WeatherUnexpected)
    ensures f.keysConfigured && WeatherRead(f) && f.air.Threw? ==> r == Err(Reclassify(f.air.thrown, WeatherUnexpected))
    ensures f.keysConfigured && WeatherRead(f) && f.air.Answered? && IsOk(f.air.status) && f.air.body.None? ==>
              r == Err(WeatherUnexpected)
    ensures f.keysConfigured && WeatherRead(f) && AirUsable(f) && f.forecast.Threw? ==>
              r == Err(Reclassify(f.forecast.thrown, WeatherUnexpected))
    ensures (f.keysConfigured && WeatherRead(f) && AirUsable(f)
             && f.forecast.Answered? && IsOk(f.forecast.status) && f.forecast.body.None?) ==>
              r == Err(WeatherUnexpected)
    ensures f.keysConfigured && WeatherRead(f) && AirMissingEntry(f) ==>
              r == Err(Reclassify(MissingEntry, WeatherUnexpected))
    ensures (f.keysConfigured && WeatherRead(f) && AirUsable(f) && ForecastUsable(f)
             && f.weather.body.value.conditions == []) ==>
              r == Err(Reclassify(MissingEntry, WeatherUnexpected))
    ensures r.Ok? <==>
              && f.keysConfigured && WeatherRead(f) && AirUsable(f) && ForecastUsable(f)
              && f.weather.body.value.conditions != []
    ensures r.Ok? ==>
              var w := f.weather.body.value;
              var loc := r.value;
              && loc.id == loc.weather.id == LocationId(render, w.coord.lat, w.coord.lon)
              && loc.lat == w.coord.lat && loc.lon == w.coord.lon
              && loc.name == loc.weather.name == w.name && loc.country == loc.weather.country == w.country
              && !loc.isFavorite
              && loc.weather.temperature == Round(w.temp) && loc.weather.feelsLike == Round(w.feelsLike)
              && loc.weather.description == w.conditions[0].description
              && loc.weather.icon == w.conditions[0].icon
              && loc.weather.humidity == w.humidity && loc.weather.windSpeed == w.windSpeed
              && loc.weather.pressure == w.pressure
              && loc.weather.visibility == w.visibility / 1000.0
              && loc.weather.uvIndex == 0.0 && loc.weather.timestamp == f.now
    ensures r.Ok? && Refused(f.air) ==> r.value.airQuality == UnavailableAirQuality()
    ensures r.Ok? && !Refused(f.air) ==> r.value.airQuality == AirQualityOf(f.air.body.value.list[0])
    ensures r.Ok? && Refused(f.forecast) ==> r.value.forecast == []
    ensures r.Ok? && !Refused(f.forecast) ==> r.value.forecast == ForecastDays(f.forecast.body.value.days)
  {
    if !f.keysConfigured {
      return Err(KeysMissing);
    }
    // try
    if f.weather.Threw? {
      return Fail(f.weather.thrown);
    }
    var status := f.weather.status;
    if !IsOk(status) {
      if status == 404 {
        return Fail(ApiError(LocationNotFound));
      }
      if status == 401 {
        return Fail(ApiError(InvalidWeatherKey));
      }
      return Fail(ApiError(WeatherServiceError(status)));
    }
    var weatherData: WeatherBody;
    match ReadBody(f.weather.body) {
      case Raised(e) => return Fail(e);
      case Returned(b) => weatherData := b;
    }

    if f.air.Threw? {
      return Fail(f.air.thrown);
    }
    var airQualityData := UnavailableAirQuality();
    if IsOk(f.air.status) {
      var airData: AirBody;
      match ReadBody(f.air.body) {
        case Raised(e) => return Fail(e);
        case Returned(b) => airData := b;
      }
      if airData.list == [] {
        return Fail(MissingEntry);
      }
      airQualityData := AirQualityOf(airData.list[0]);
    }

    if f.forecast.Threw? {
      return Fail(f.forecast.thrown);
    }
    var forecast: seq<ForecastDay> := [];
    if IsOk(f.forecast.status) {
      var forecastData: ForecastBody;
      match ReadBody(f.forecast.body) {
        case Raised(e) => return Fail(e);
        case Returned(b) => forecastData := b;
      }
      forecast := ForecastDays(forecastData.days);
    }

    if weatherData.conditions == [] {
      return Fail(MissingEntry);
    }
    var coord := weatherData.coord;
    var weather := WeatherData(
      LocationId(render, coord.lat, coord.lon), weatherData.name, weatherData.country,
      Round(weatherData.temp), Round(weatherData.feelsLike), weatherData.conditions[0].description,
      weatherData.humidity, weatherData.windSpeed, weatherData.pressure,
      weatherData.visibility / 1000.0, 0.0, weatherData.conditions[0].icon, f.now);
    return Ok(LocationData(weather.id, weather.name, weather.country, coord.lat, coord.lon,
                           weather, airQualityData, forecast, false));
  }
}
