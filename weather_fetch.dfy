/** The fetch stages both hooks share: the two weather payloads normalised
    into one OneCall-shaped bundle, and the first air-quality reading. */
module WeatherFetch {
  import opened Wrappers
  import opened Payloads
  import opened Daily
  import opened Failures

  /** `hourly` keeps at most this many forecast samples. */
  const HourlyCount: nat := 24

  datatype CurrentConditions = CurrentConditions(
    dt: int,
    temp: real,
    feelsLike: real,
    pressure: real,
    humidity: real,
    uvi: real,
    visibility: int,
    windSpeed: real,
    windDeg: real,
    weather: seq<Condition>,
    sunrise: int,
    sunset: int)

  datatype WeatherBundle = WeatherBundle(
    timezoneOffset: int,
    current: CurrentConditions,
    hourly: seq<Sample>,
    daily: seq<DailySummary>)

  /** What every bundle the transform builds satisfies. */
  predicate WellFormed(b: WeatherBundle) {
    && b.current.uvi == 0.0
    && |b.hourly| <= HourlyCount
    && |b.daily| <= MaxDays
    && forall j :: 0 <= j < |b.daily| ==> b.daily[j].temp.min <= b.daily[j].temp.day <= b.daily[j].temp.max
  }

  /** `transformedData`: the current-conditions payload copied field by field
      with `uvi` fixed at 0, the first 24 forecast samples as `hourly`, and
      the daily aggregate of the whole forecast list. */
  function Transform(current: CurrentPayload, forecast: ForecastPayload, dayKey: int -> string)
    : (b: WeatherBundle)
    ensures WellFormed(b)
    ensures b.timezoneOffset == current.timezone
    ensures b.current.dt == current.dt && b.current.visibility == current.visibility
    ensures b.current.temp == current.main.temp && b.current.feelsLike == current.main.feelsLike
    ensures b.current.pressure == current.main.pressure && b.current.humidity == current.main.humidity
    ensures b.current.windSpeed == current.wind.speed && b.current.windDeg == current.wind.deg
    ensures b.current.weather == current.weather
    ensures b.current.sunrise == current.sys.sunrise && b.current.sunset == current.sys.sunset
    ensures |b.hourly| == (if |forecast.list| < HourlyCount then |forecast.list| else HourlyCount)
    ensures forall i :: 0 <= i < |b.hourly| ==> b.hourly[i] == forecast.list[i]
    ensures b.daily == DailyForecast(forecast.list, dayKey)
  {
    DailyTemperatures(forecast.list, dayKey);
    var n := if |forecast.list| < HourlyCount then |forecast.list| else HourlyCount;
    WeatherBundle(
      current.timezone,
      CurrentConditions(
        current.dt, current.main.temp, current.main.feelsLike, current.main.pressure,
        current.main.humidity, 0.0, current.visibility, current.wind.speed, current.wind.deg,
        current.weather, current.sys.sunrise, current.sys.sunset),
      forecast.list[..n],
      DailyForecast(forecast.list, dayKey))
  }

  /** The weather stage: both responses must be ok, else the error carries
      both statuses; a transport failure of either request rejects it. */
  function FetchWeather(current: Response<CurrentPayload>, forecast: Response<ForecastPayload>,
                        dayKey: int -> string)
    : (r: Result<WeatherBundle, FetchError>)
    ensures r.Success? <==> current.Ok() && forecast.Ok()
    ensures r.Success? ==> r.value == Transform(current.body, forecast.body, dayKey) && WellFormed(r.value)
    ensures current.Http? && forecast.Http? && !(current.Ok() && forecast.Ok()) ==>
              r == Failure(WeatherApiError(current.status, forecast.status))
    ensures current.NetworkFailure? ==> r == Failure(NetworkError(current.message))
    ensures current.Http? && forecast.NetworkFailure? ==> r == Failure(NetworkError(forecast.message))
  {
    match (current, forecast)
    case (NetworkFailure(m), _) => Failure(NetworkError(m))
    case (_, NetworkFailure(m)) => Failure(NetworkError(m))
    case (Http(cs, cbody), Http(fs, fbody)) =>
      if !current.Ok() || !forecast.Ok() then Failure(WeatherApiError(cs, fs))
      else Success(Transform(cbody, fbody, dayKey))
  }

  /** The air-quality stage: only the first reading of a non-empty list is
      kept; a missing or empty list is invalid data. */
  function FirstAirReading(response: Response<AirPayload>): (r: Result<AirReading, FetchError>)
    ensures r.Success? <==> response.Ok() && response.body.Some? && |response.body.value| > 0
    ensures r.Success? ==> r.value == response.body.value[0]
    ensures response.Http? && !response.Ok() ==> r == Failure(AirPollutionApiError(response.status))
    ensures response.Ok() && !(response.body.Some? && |response.body.value| > 0) ==>
              r == Failure(InvalidAirPollutionData)
    ensures response.NetworkFailure? ==> r == Failure(NetworkError(response.message))
  {
    match response
    case NetworkFailure(m) => Failure(NetworkError(m))
    case Http(status, body) =>
      if !response.Ok() then Failure(AirPollutionApiError(status))
      else if body.Some? && |body.value| > 0 then Success(body.value[0])
      else Failure(InvalidAirPollutionData)
  }
}
