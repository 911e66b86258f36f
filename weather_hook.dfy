/** The current-location hook (`useWeatherData`): three independent slots,
    each written by its own fetch and left as it was when that fetch fails. */
module WeatherHook {
  import opened Wrappers
  import opened Payloads
  import opened WeatherFetch

  /** The city slot: a name and a country code. */
  datatype City = City(name: string, country: string)

  /** Country used when the payload has no `sys.country`. */
  const UnknownCountry: string := "Unknown"

  /** The city read from a current-conditions body: present only when the
      body has a non-empty `name`; the country falls back to "Unknown". */
  function CityOf(data: CurrentPayload): (c: Option<City>)
    ensures c.Some? <==> Truthy(data.name)
    ensures c.Some? ==> c.value.name == data.name.value && c.value.name != ""
    ensures c.Some? ==> c.value.country == (if Truthy(data.sys.country) then data.sys.country.value else UnknownCountry)
    ensures c.Some? ==> c.value.country != ""
  {
    if Truthy(data.name) then
      Some(City(data.name.value, if Truthy(data.sys.country) then data.sys.country.value else UnknownCountry))
    else None
  }

  class WeatherData {
    var weather: Option<WeatherBundle>
    var city: Option<City>
    var airPollution: Option<AirReading>

    /** What the slots hold whenever they are set. */
    ghost predicate Valid()
      reads this
    {
      && (weather.Some? ==> WellFormed(weather.value))
      && (city.Some? ==> city.value.name != "" && city.value.country != "")
    }

    /** All three slots start empty (`useState(null)`). */
    constructor ()
      ensures Valid()
      ensures weather == None && city == None && airPollution == None
    {
      weather := None;
      city := None;
      airPollution := None;
    }

    /** `fetchWeatherData`: the slot takes the normalised bundle when both
        responses are ok, and is left as it was otherwise. */
    method FetchWeatherData(current: Response<CurrentPayload>, forecast: Response<ForecastPayload>,
                            dayKey: int -> string)
      requires Valid()
      modifies this`weather
      ensures Valid()
      ensures current.Ok() && forecast.Ok() ==>
                weather == Some(Transform(current.body, forecast.body, dayKey))
      ensures !(current.Ok() && forecast.Ok()) ==> weather == old(weather)
    {
      var fetched := FetchWeather(current, forecast, dayKey);
      if fetched.Success? {
        weather := Some(fetched.value);
      }
    }

    /** `fetchCityData`: the slot is set only from an ok response whose body
        has a name. */
    method FetchCityData(response: Response<CurrentPayload>)
      requires Valid()
      modifies this`city
      ensures Valid()
      ensures response.Ok() && Truthy(response.body.name) ==> city == CityOf(response.body)
      ensures !(response.Ok() && Truthy(response.body.name)) ==> city == old(city)
    {
      if response.Ok() {
        var found := CityOf(response.body);
        if found.Some? {
          city := found;
        }
      }
    }

    /** `fetchAirPollutionData`: the slot takes `list[0]` of an ok response
        with a non-empty list, and is left as it was otherwise. */
    method FetchAirPollutionData(response: Response<AirPayload>)
      requires Valid()
      modifies this`airPollution
      ensures Valid()
      ensures response.Ok() && response.body.Some? && |response.body.value| > 0 ==>
                airPollution == Some(response.body.value[0])
      ensures !(response.Ok() && response.body.Some? && |response.body.value| > 0) ==>
                airPollution == old(airPollution)
    {
      var fetched := FirstAirReading(response);
      if fetched.Success? {
        airPollution := Some(fetched.value);
      }
    }
  }
}
