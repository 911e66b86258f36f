# Weather forecast pipeline, modelled in Dafny

This project models the data pipeline of a mobile weather app. The app has two hooks:

- The current-location hook (`useWeatherData`) fetches three things for the device's coordinates: current conditions plus a 5-day/3-hour forecast, a city name, and air quality. It fills three independent slots.
- The city-search hook (`useCitySearch`) geocodes a city name. At the first match it then runs the weather stage, whose current-conditions and forecast requests are issued together (`useCitySearch.js:73-76`), and after it the air-quality request (`useCitySearch.js:36-37`). It ends holding either a result or an error message.

Both hooks normalise the two weather payloads into one OneCall-shaped bundle:

- `uvi` is fixed at 0.
- `hourly` is the first 24 forecast samples.
- `daily` comes from the daily aggregator (`processDailyForecast`). The aggregator folds the samples into a dictionary keyed by calendar day. The first sample of a day seeds its summary; later samples only widen `temp.min` and `temp.max`. The dictionary's values are returned in insertion order, cut to 5.

The aggregator and the transform appear twice in the source, with the same code: at `useWeatherData.js:54-72, 88-113` and at `useCitySearch.js:88-106, 132-158`. The model defines each once, and both hooks use that one definition.

Modules:

- `Wrappers`: Option and Result.
- `Payloads`: responses and the provider's bodies. A response is either a transport failure or an HTTP status with a parsed body. `Ok()` means a status in 200..299, as `Response.ok` does.
- `Daily`: the aggregator. It is a method with a loop over the samples, a `map` from day key to summary, and a `seq` holding the keys' insertion order. It is proved equal to `DailyForecast`, a reference definition stated per day key: the distinct keys in order of first occurrence, and for each key the first sample's fields with min and max taken over all that day's samples. Lemmas prove the promised properties from the reference definition.
- `Failures`: the error kinds and the exact messages the search shows. Statuses are rendered in decimal.
- `WeatherFetch`: the bundle transform, the weather stage and the air-quality stage.
- `WeatherHook`: the current-location hook, as a class with three slots.
- `CitySearchHook`: geocode selection, the staged search as a function, and the search state as a class with `searchResults`, `searchLoading` and `searchError`.

Some inputs are parameters:

- The calendar-day key of a timestamp is `dayKey: int -> string`. The source computes it with `new Date(dt * 1000).toDateString()`, which depends on the device's time zone.
- The search takes the provider as functions from the query (a city name or coordinates) to the response that request would get. This keeps the fact that weather and air quality are fetched at the geocoded match's coordinates.

Three behaviours of the code worth noting:

- A non-ok geocoding response gives "Geocoding failed: <status>"; only a null or empty match array gives the city-not-found message.
- In the search, the weather stage and the air-quality stage are awaited one after the other (`useCitySearch.js:36-37`), not concurrently.
- Daily summaries come in order of each day's first occurrence in the input. They are not sorted by date.

## Model

| member | source | states |
|---|---|---|
| Daily.ProcessDailyForecast | library/customHooks/useWeatherData.js:88-113 | the dictionary fold returns exactly the reference result `DailyForecast` for every sample list and every day-key function |
| Daily.FoldStep | library/customHooks/useWeatherData.js:91-110 | one loop iteration keeps the fold invariant: a new day is seeded and appended to the key order, a known day is widened, and the map holds each day's reference summary |
| Daily.SummarySnoc | library/customHooks/useWeatherData.js:93-110 | appending a sample makes a new day's summary the seed of that sample, widens only its own day's min/max, and leaves every other day's summary unchanged |
| Daily.Distinct | library/customHooks/useWeatherData.js:91-93 | the key order holds exactly the keys of the input, each once |
| Daily.DistinctOrder | library/customHooks/useWeatherData.js:91-94 | the key order is the order of each key's first occurrence in the input |
| Daily.DistinctCount | library/customHooks/useWeatherData.js:93-105 | there is one key per distinct day: the number of keys is the number of distinct day keys D |
| Daily.FirstIndex | library/customHooks/useWeatherData.js:93-94 | finds the position of the first sample of a day: that sample has the key, and no earlier one has it |
| Daily.OnDay | library/customHooks/useWeatherData.js:91-93 | the samples of one day are exactly the input samples with that key, and there are some exactly when the key occurs |
| Daily.MinTemp | library/customHooks/useWeatherData.js:108 | the folded minimum is at most every temperature of the day and equals one of them |
| Daily.MaxTemp | library/customHooks/useWeatherData.js:109 | the folded maximum is at least every temperature of the day and equals one of them |
| Daily.DailyLength | library/customHooks/useWeatherData.js:113 | the result has min(D, 5) summaries, where D is the number of distinct day keys |
| Daily.DailyKeys | library/customHooks/useWeatherData.js:113 | the j-th summary belongs to the j-th distinct day key: the result is the first five keys' summaries |
| Daily.DailyKeysUnique | library/customHooks/useWeatherData.js:93 | no two summaries share a day key |
| Daily.DailyInFirstOccurrenceOrder | library/customHooks/useWeatherData.js:113 | summaries appear in the order in which their days first occur in the input |
| Daily.DailyTemperatures | library/customHooks/useWeatherData.js:96-109 | temp.min and temp.max are the lowest and highest temperatures of all samples with that day key, each attained by one of them, and min <= day <= max |
| Daily.DailyFirstSampleWins | library/customHooks/useWeatherData.js:93-105 | dt, temp.day, weather, humidity, wind_speed and wind_deg come from the day's first sample; no earlier sample has that day key |
| Failures.Decimal | library/customHooks/useCitySearch.js:23 | a status renders as a non-empty string of decimal digits with no leading zero; it starts with '0' only for status 0 |
| Failures.DecimalRoundTrip | library/customHooks/useCitySearch.js:23 | reading the rendered status back gives the status: no two statuses render alike |
| Failures.FetchError.Message | library/customHooks/useCitySearch.js:22-128 | each failure's stored message is the source's template text ("Geocoding failed: ", the city-not-found sentence, "Weather API Error: Current <c>, Forecast <f>", "Air Pollution API Error: ", "Invalid air pollution data") with statuses in decimal, and a transport error's own message |
| Failures.WeatherMessageCarriesStatuses | library/customHooks/useCitySearch.js:78-80 | the weather error message determines both the current and the forecast status |
| Failures.MessageIdentifiesError | library/customHooks/useCitySearch.js:56-58 | apart from transport errors, equal stored messages mean the same failure with the same statuses |
| WeatherFetch.Transform | library/customHooks/useWeatherData.js:54-72 | uvi is 0; timezone_offset, dt, temp, feels_like, pressure, humidity, visibility, wind_speed, wind_deg, weather, sunrise and sunset are the payload's; hourly is the first min(24, n) samples unchanged; daily is the aggregate of the whole list; the bundle is well formed |
| WeatherFetch.FetchWeather | library/customHooks/useCitySearch.js:73-108 | a bundle exactly when both responses are ok; otherwise an error carrying both statuses, or the transport failure |
| WeatherFetch.FirstAirReading | library/customHooks/useCitySearch.js:116-128 | the result is exactly list[0] of an ok response with a non-empty list; a non-ok status, a missing or empty list, or a transport failure each give their own error |
| WeatherHook.CityOf | library/customHooks/useWeatherData.js:128-132 | a city only when the body has a non-empty name; its country is sys.country or "Unknown", never empty |
| WeatherHook.WeatherData.constructor | library/customHooks/useWeatherData.js:6-9 | the three slots start empty |
| WeatherHook.WeatherData.FetchWeatherData | library/customHooks/useWeatherData.js:33-84 | the weather slot takes the transformed bundle when both responses are ok and is otherwise unchanged; no other slot changes; the slot invariant is kept |
| WeatherHook.WeatherData.FetchCityData | library/customHooks/useWeatherData.js:119-140 | the city slot is set only from an ok response with a name, and is otherwise unchanged |
| WeatherHook.WeatherData.FetchAirPollutionData | library/customHooks/useWeatherData.js:149-167 | the air slot becomes exactly list[0] of an ok response with a non-empty list, and is otherwise unchanged |
| CitySearchHook.FirstMatch | library/customHooks/useCitySearch.js:20-33 | a non-ok status gives "Geocoding failed" with that status; a null or empty array gives city-not-found; otherwise the first match |
| CitySearchHook.PlaceOf | library/customHooks/useCitySearch.js:40-44 | name and country are the match's; state is the match's state, or null when absent or empty |
| CitySearchHook.RunSearch | library/customHooks/useCitySearch.js:13-54 | the first stage that fails (geocode, then weather, then air quality) decides the error; a result only when all succeed, built at the match's coordinates |
| CitySearchHook.SearchSucceedsExactly | library/customHooks/useCitySearch.js:33-54 | a result exists if and only if every response is ok with data, and then it holds the match's place and coordinates, the bundle transformed from the weather responses at those coordinates, and their first air reading |
| CitySearchHook.GeocodeFailureMessages | library/customHooks/useCitySearch.js:22-31 | a non-ok geocode ends with "Geocoding failed: <status>", an empty one with the city-not-found message |
| CitySearchHook.ParisSearch | library/customHooks/useCitySearch.js:33-54 | searching "Paris" with one stateless match and a forecast spanning two calendar days gives place Paris, FR with a null state, the match's coordinates, the current temperature of the response, and two daily summaries |
| CitySearchHook.CitySearch.constructor | library/customHooks/useCitySearch.js:4-6 | no result, not loading, no error |
| CitySearchHook.CitySearch.BeginSearch | library/customHooks/useCitySearch.js:9-11 | loading on, error and results cleared |
| CitySearchHook.CitySearch.SearchCity | library/customHooks/useCitySearch.js:8-62 | ends with loading off and exactly one of result and error set: the result on success, the failure's message otherwise |
| CitySearchHook.CitySearch.ClearSearch | library/customHooks/useCitySearch.js:160-164 | results null, error null and loading false, all together |

## Left out

- HTTP `fetch`, URL and query-string construction (including the embedded API key), `.json()` parsing and `console` logging: responses are given as values with a parsed body.
- Bodies with a field missing that the code dereferences without a guard (`main`, `wind`, `list` of the forecast, `sys` of current conditions in the transform) make the source throw a `TypeError`. The model's payload types always carry these fields, so those paths are not modelled. Fields the code only copies (`dt`, `visibility`, `timezone` and `weather` of current conditions; `weather` and `main.humidity` of a sample) do not throw when missing: the source copies `undefined` into the bundle. The payload types make these fields always present, so that case is not modelled either. The city lookup reads `sys?.country`, and there a missing `sys` behaves as a missing country, which the model covers. Fields the code does test are optional in the model: `name`, `sys.country`, the geocode array, `state`, and the air `list`.
- `Promise.all` concurrency. When both weather requests fail at the transport level, the source reports whichever rejects first. The model reports the current-conditions failure.
- The stale-response race between overlapping searches, and the effect that starts the three fetches when the coordinates change (`useWeatherData.js:11-19`). Both are scheduling matters, and each flow is modelled as sequential steps.
- React `useState` mechanics: setters are plain field assignments.
- The calendar semantics of `toDateString`: the day key is the parameter `dayKey`. The key order of a JavaScript object is insertion order only for keys that are not integer-like. Calendar-day strings never are, and the model assumes this of `dayKey`.
- Non-numeric temperatures (`NaN` in `Math.min`/`Math.max`): temperatures are reals.
- The log-only messages of the current-location hook ("HTTP Error: ...", "HTTP <status>: <text>"): they never reach state, so only the search flow's messages are modelled.
- The guard `transformedData && transformedData.current` (`useWeatherData.js:76`): it always holds for the object just built, so the model stores the bundle unconditionally.
- `useGeolocation.js` (a platform callback API with a constant fallback coordinate), the readiness gate in `App.js`, and the display and navigation components.
