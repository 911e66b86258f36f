/** The provider's responses, as the two hooks receive them once the network
    call has returned and its JSON body has been parsed. */
module Payloads {
  import opened Wrappers

  /** Outcome of one `fetch`: the promise rejected with a transport error,
      or a response arrived with an HTTP status and a (parsed) body. */
  datatype Response<T> = NetworkFailure(message: string) | Http(status: nat, body: T) {
    /** `Response.ok` of the Fetch API: a status in 200..299. */
    predicate Ok() {
      Http? && 200 <= status <= 299
    }
  }

  /** JavaScript truthiness of an optional string: present and not empty. */
  predicate Truthy(s: Option<string>) {
    s.Some? && s.value != ""
  }

  /** One entry of a `weather` array: a condition code, its texts and its icon key. */
  datatype Condition = Condition(id: int, main: string, description: string, icon: string)

  datatype Wind = Wind(speed: real, deg: real)

  /** `main` of a forecast sample: the two readings the aggregator uses. */
  datatype SampleMain = SampleMain(temp: real, humidity: real)

  /** One 3-hour entry of the forecast `list`. */
  datatype Sample = Sample(dt: int, main: SampleMain, weather: seq<Condition>, wind: Wind)

  /** Body of the 5-day/3-hour forecast endpoint. */
  datatype ForecastPayload = ForecastPayload(list: seq<Sample>)

  datatype CurrentMain = CurrentMain(temp: real, feelsLike: real, pressure: real, humidity: real)

  /** `sys` of the current-conditions body; `country` may be absent or empty. */
  datatype Sys = Sys(country: Option<string>, sunrise: int, sunset: int)

  /** Body of the current-conditions endpoint; `name` may be absent or empty. */
  datatype CurrentPayload = CurrentPayload(
    dt: int,
    main: CurrentMain,
    visibility: int,
    wind: Wind,
    weather: seq<Condition>,
    sys: Sys,
    timezone: int,
    name: Option<string>)

  /** One reading of the air-pollution `list`. */
  datatype AirReading = AirReading(dt: int, aqi: int, components: map<string, real>)

  /** Body of the air-pollution endpoint: `None` stands for a null body or a
      body without a `list`. */
  type AirPayload = Option<seq<AirReading>>

  /** One match of the forward-geocoding endpoint; `state` may be absent or empty. */
  datatype GeoMatch = GeoMatch(lat: real, lon: real, name: string, country: string, state: Option<string>)

  /** Body of the forward-geocoding endpoint: `None` stands for a null body. */
  type GeocodePayload = Option<seq<GeoMatch>>

  datatype Coordinates = Coordinates(lat: real, lon: real)
}
