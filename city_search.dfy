/** The city-search hook (`useCitySearch`): a city name is geocoded, weather
    and air quality are fetched at the first match's coordinates, and the
    outcome lands in exactly one of two state fields. The provider is given
    as functions from the query to the response each request would get. */
module CitySearchHook {
  import opened Wrappers
  import opened Payloads
  import opened Failures
  import opened Daily
  import opened WeatherFetch

  /** The place shown for a search result; `state` is null when the match
      has none. */
  datatype Place = Place(name: string, country: string, state: Option<string>)

  datatype SearchResult = SearchResult(
    weather: WeatherBundle,
    city: Place,
    airPollution: AirReading,
    coordinates: Coordinates)

  /** The geocoding stage: a non-ok status fails with that status; a null or
      empty match array means the city was not found; otherwise the first
      match is used. */
  function FirstMatch(response: Response<GeocodePayload>): (r: Result<GeoMatch, FetchError>)
    ensures r.Success? <==> response.Ok() && response.body.Some? && |response.body.value| > 0
    ensures r.Success? ==> r.value == response.body.value[0]
    ensures response.Http? && !response.Ok() ==> r == Failure(GeocodingFailed(response.status))
    ensures response.Ok() && !(response.body.Some? && |response.body.value| > 0) ==> r == Failure(CityNotFound)
    ensures response.NetworkFailure? ==> r == Failure(NetworkError(response.message))
  {
    match response
    case NetworkFailure(m) => Failure(NetworkError(m))
    case Http(status, body) =>
      if !response.Ok() then Failure(GeocodingFailed(status))
      else if body.None? || |body.value| == 0 then Failure(CityNotFound)
      else Success(body.value[0])
  }

  /** `cityData`: name and country of the match; its state, or null when the
      state is absent or empty. */
  function PlaceOf(m: GeoMatch): (p: Place)
    ensures p.name == m.name && p.country == m.country
    ensures p.state.Some? <==> Truthy(m.state)
    ensures p.state.Some? ==> p.state == m.state
  {
    Place(m.name, m.country, if Truthy(m.state) then m.state else None)
  }

  /** The body of the `try` in `searchCity`: geocode, then weather, then air
      quality, one after another; the first stage that fails ends the
      search with its error. */
  function RunSearch(cityName: string,
                     geocode: string -> Response<GeocodePayload>,
                     current: Coordinates -> Response<CurrentPayload>,
                     forecast: Coordinates -> Response<ForecastPayload>,
                     air: Coordinates -> Response<AirPayload>,
                     dayKey: int -> string)
    : (r: Result<SearchResult, FetchError>)
    ensures FirstMatch(geocode(cityName)).Failure? ==>
              r == Failure(FirstMatch(geocode(cityName)).error)
    ensures FirstMatch(geocode(cityName)).Success? ==>
              var m := FirstMatch(geocode(cityName)).value;
              var at := Coordinates(m.lat, m.lon);
              var w := FetchWeather(current(at), forecast(at), dayKey);
              var a := FirstAirReading(air(at));
              && (w.Failure? ==> r == Failure(w.error))
              && (w.Success? && a.Failure? ==> r == Failure(a.error))
              && (w.Success? && a.Success? ==> r == Success(SearchResult(w.value, PlaceOf(m), a.value, at)))
  {
    var m :- FirstMatch(geocode(cityName));
    var at := Coordinates(m.lat, m.lon);
    var weather :- FetchWeather(current(at), forecast(at), dayKey);
    var reading :- FirstAirReading(air(at));
    Success(SearchResult(weather, PlaceOf(m), reading, at))
  }

  /** A search result exists only when every request succeeded, and then it
      is made of the first match, the bundle normalised from the weather
      responses at the match's coordinates, and the first air reading there. */
  lemma SearchSucceedsExactly(cityName: string,
                              geocode: string -> Response<GeocodePayload>,
                              current: Coordinates -> Response<CurrentPayload>,
                              forecast: Coordinates -> Response<ForecastPayload>,
                              air: Coordinates -> Response<AirPayload>,
                              dayKey: int -> string)
    ensures var r := RunSearch(cityName, geocode, current, forecast, air, dayKey);
      var g := geocode(cityName);
      r.Success? <==>
        && g.Ok() && g.body.Some? && |g.body.value| > 0
        && var m := g.body.value[0];
           var at := Coordinates(m.lat, m.lon);
           current(at).Ok() && forecast(at).Ok() && air(at).Ok()
           && air(at).body.Some? && |air(at).body.value| > 0
    ensures var r := RunSearch(cityName, geocode, current, forecast, air, dayKey);
      r.Success? ==>
        var m := geocode(cityName).body.value[0];
        var at := Coordinates(m.lat, m.lon);
        && r.value.coordinates == at
        && r.value.city == Place(m.name, m.country, if Truthy(m.state) then m.state else None)
        && r.value.weather == Transform(current(at).body, forecast(at).body, dayKey)
        && WellFormed(r.value.weather)
        && r.value.airPollution == air(at).body.value[0]
  {
  }

  /** The messages for a failed geocoding request and for a missing city. */
  lemma GeocodeFailureMessages(cityName: string,
                               geocode: string -> Response<GeocodePayload>,
                               current: Coordinates -> Response<CurrentPayload>,
                               forecast: Coordinates -> Response<ForecastPayload>,
                               air: Coordinates -> Response<AirPayload>,
                               dayKey: int -> string)
    ensures var r := RunSearch(cityName, geocode, current, forecast, air, dayKey);
      var g := geocode(cityName);
      && (g.Http? && !g.Ok() ==> r.Failure? && r.error.Message() == "Geocoding failed: " + Decimal(g.status))
      && (g.Ok() && (g.body.None? || |g.body.value| == 0) ==>
            r.Failure? && r.error.Message() == CityNotFoundMessage)
  {
    var g := geocode(cityName);
    var r := RunSearch(cityName, geocode, current, forecast, air, dayKey);
    if g.Http? && !g.Ok() {
      assert r == Failure(GeocodingFailed(g.status));
    } else if g.Ok() && (g.body.None? || |g.body.value| == 0) {
      assert r == Failure(CityNotFound);
    }
  }

  /** A search for "Paris" whose single match has no state, and whose
      forecast at the match spans two calendar days, yields the place
      Paris, FR with a null state, the current temperature of the
      current-conditions response, and two daily summaries. */
  lemma ParisSearch(geocode: string -> Response<GeocodePayload>,
                    current: Coordinates -> Response<CurrentPayload>,
                    forecast: Coordinates -> Response<ForecastPayload>,
                    air: Coordinates -> Response<AirPayload>,
                    dayKey: int -> string)
    requires geocode("Paris") == Http(200, Some([GeoMatch(48.85, 2.35, "Paris", "FR", None)]))
    requires current(Coordinates(48.85, 2.35)).Ok() && forecast(Coordinates(48.85, 2.35)).Ok()
    requires air(Coordinates(48.85, 2.35)).Ok() && air(Coordinates(48.85, 2.35)).body.Some?
    requires |air(Coordinates(48.85, 2.35)).body.value| > 0
    requires |set k | k in Days(forecast(Coordinates(48.85, 2.35)).body.list, dayKey)| == 2
    ensures var r := RunSearch("Paris", geocode, current, forecast, air, dayKey);
      && r.Success?
      && r.value.city == Place("Paris", "FR", None)
      && r.value.coordinates == Coordinates(48.85, 2.35)
      && r.value.weather.current.temp == current(Coordinates(48.85, 2.35)).body.main.temp
      && |r.value.weather.daily| == 2
  {
    var at := Coordinates(48.85, 2.35);
    DailyLength(forecast(at).body.list, dayKey);
  }

  class CitySearch {
    var searchResults: Option<SearchResult>
    var searchLoading: bool
    var searchError: Option<string>

    /** A result and an error are never held together. */
    ghost predicate Valid()
      reads this
    {
      !(searchResults.Some? && searchError.Some?)
    }

    /** `useState(null)`, `useState(false)`, `useState(null)`. */
    constructor ()
      ensures Valid()
      ensures searchResults == None && !searchLoading && searchError == None
    {
      searchResults := None;
      searchLoading := false;
      searchError := None;
    }

    /** The first three statements of `searchCity`: loading on, and any
        earlier result or error cleared. */
    method BeginSearch()
      modifies this
      ensures Valid()
      ensures searchLoading && searchError == None && searchResults == None
    {
      searchLoading := true;
      searchError := None;
      searchResults := None;
    }

    /** `searchCity`: begins the search, runs the stages, then stores either
        the result or the failure's message, and always ends with loading
        off. */
    method SearchCity(cityName: string,
                      geocode: string -> Response<GeocodePayload>,
                      current: Coordinates -> Response<CurrentPayload>,
                      forecast: Coordinates -> Response<ForecastPayload>,
                      air: Coordinates -> Response<AirPayload>,
                      dayKey: int -> string)
      modifies this
      ensures Valid()
      ensures !searchLoading
      ensures searchResults.Some? != searchError.Some?
      ensures var r := RunSearch(cityName, geocode, current, forecast, air, dayKey);
        && (r.Success? ==> searchResults == Some(r.value) && searchError == None)
        && (r.Failure? ==> searchResults == None && searchError == Some(r.error.Message()))
    {
      BeginSearch();
      var outcome := RunSearch(cityName, geocode, current, forecast, air, dayKey);
      match outcome {
        case Success(results) =>
          searchResults := Some(results);
        case Failure(error) =>
          searchError := Some(error.Message());
      }
      searchLoading := false;
    }

    /** `clearSearch`: all three fields back to their initial values. */
    method ClearSearch()
      modifies this
      ensures Valid()
      ensures searchResults == None && searchError == None && !searchLoading
    {
      searchResults := None;
      searchError := None;
      searchLoading := false;
    }
  }
}
