# Weather widget: forecast filter and view-state machine

A Dafny model of the two pieces of logic in the React weather widget
`weather-widgetsec`:

- **Forecast day selection** (`WeatherDisplay.tsx`). `filterForecast` walks the
  forecast samples in order and keeps the first sample of every calendar day.
  It then keeps the first five. The module also covers the icon URL template
  `getWeatherIcon` and the rule that picks the current block or the forecast
  block from the `isCurrent` flag.
- **View state** (`App.tsx`). The state is the five `useState` slots:
  `weatherData`, `forecastData`, `isCurrent`, `error` and `loading`. Each
  handler is a pure transition:
  - `handleSearch`
  - `handleGeolocation` with its position callbacks
  - `fetchWeather`, split into its start and its resolution
  - the mode toggle

  A handler that calls `fetchWeather` also returns the request it sends. The
  request is a value (endpoint, locator, key), not a URL string. The network's
  answer is an abstract `Outcome`.

Modules, one per concept:

| file | module | models |
|---|---|---|
| `wrappers.dfy` | `Wrappers` | nullable values as `Option<T>` |
| `weather.dfy` | `Weather` | the `WeatherData` / `ForecastData` interfaces |
| `js_text.dfy` | `JsText` | `String.prototype.trim` and the blank-city test |
| `forecast_filter.dfy` | `ForecastFilter` | `filterForecast` |
| `weather_display.dfy` | `WeatherDisplay` | `getWeatherIcon`, render selection |
| `app.dfy` | `App` | state, handlers, fetch outcome, event runs |

`WeatherDisplay.IconCodeOf` reads an icon code back out of an icon URL. The
widget has no such code; it is the inverse that the icon round-trip lemmas
pair with `getWeatherIcon`.

The calendar day of a sample comes from `toLocaleDateString()`, which depends
on locale and time zone. Here it is a parameter `dateKey: int -> string`.
`encodeURIComponent` and the API key are parameters in the same way.

Behaviour of the code worth noting:

- A non-OK response whose body is not JSON makes `response.json()` throw. The
  widget then shows the parser's own error message, not the generic fallback
  text. In the model this is a `Thrown` outcome carrying that message.
- A transport failure shows the exception's message. The generic text
  "Ошибка при получении данных…" appears only when that message is empty.
- A successful fetch does not clear the error itself. `fetchWeather` clears it
  when the fetch starts.
- A missing API key leaves `loading` as it was. It does not force it to false.

## Model

| member | source | states |
|---|---|---|
| JsText.TrimStart | weather-widgetsec/src/App.tsx:75 | the leading-trim result is a suffix of the input, everything dropped is white space, and it does not start with white space |
| JsText.TrimEnd | weather-widgetsec/src/App.tsx:75 | the trailing-trim result is a prefix of the input, everything dropped is white space, and it does not end with white space |
| JsText.TrimIsInfix | weather-widgetsec/src/App.tsx:75 | `trim()` keeps a contiguous slice of the city text and drops only white space before and after it |
| JsText.TrimEndsNonWhite | weather-widgetsec/src/App.tsx:75 | what `trim()` keeps starts and ends with a character that is not white space |
| JsText.BlankIffAllWhiteSpace | weather-widgetsec/src/App.tsx:75 | `!city.trim()` holds exactly when every character of the city text is white space |
| ForecastFilter.Daily | weather-widgetsec/src/components/WeatherDisplay/WeatherDisplay.tsx:31-40 | the per-day selection never lengthens the list, keeps no two samples of one day, covers exactly the days of the input, and so has one sample per distinct day |
| ForecastFilter.Take | weather-widgetsec/src/components/WeatherDisplay/WeatherDisplay.tsx:42 | `slice(0, n)` keeps the first min(n, length) elements unchanged |
| ForecastFilter.FilterForecast | weather-widgetsec/src/components/WeatherDisplay/WeatherDisplay.tsx:28-43 | no forecast gives no entries; otherwise the length is min(5, number of distinct days), so fewer than five days are not padded, and no two entries share a day |
| ForecastFilter.DailyPicksFirstOfDays | weather-widgetsec/src/components/WeatherDisplay/WeatherDisplay.tsx:34-40 | there are increasing input positions from which the kept samples are taken, each the earliest sample of its day, so later same-day samples are dropped and nothing is reordered or invented |
| ForecastFilter.DailyCoversFirstOfDays | weather-widgetsec/src/components/WeatherDisplay/WeatherDisplay.tsx:34-40 | every sample that is the first of its calendar day is kept by the loop |
| ForecastFilter.FilterForecastPicksFirstOfDays | weather-widgetsec/src/components/WeatherDisplay/WeatherDisplay.tsx:34-42 | the shown entries are a subsequence of `forecastData.list`, each the first sample of its calendar day, and every day left out comes after all the shown days, so the shown days are the earliest five |
| ForecastFilter.DailyOfDistinctDays | weather-widgetsec/src/components/WeatherDisplay/WeatherDisplay.tsx:34-40 | a list with one sample per day passes the day filter unchanged |
| ForecastFilter.FilterForecastIdempotent | weather-widgetsec/src/components/WeatherDisplay/WeatherDisplay.tsx:34-42 | filtering the filtered entries again, wrapped as a forecast, gives the same entries |
| ForecastFilter.DailyStep | weather-widgetsec/src/components/WeatherDisplay/WeatherDisplay.tsx:35-39 | one more sample adds its day to the days seen, and is kept exactly when that day was not seen before |
| ForecastFilter.FilterForecastLoop | weather-widgetsec/src/components/WeatherDisplay/WeatherDisplay.tsx:28-43 | the `forEach` loop with its `dates` set and `dailyForecast` list, followed by `slice(0, 5)`, computes the recursive day selection of `FilterForecast` |
| WeatherDisplay.GetWeatherIcon | weather-widgetsec/src/components/WeatherDisplay/WeatherDisplay.tsx:16-18 | the icon URL is the icon host prefix, then the icon code, then `@2x.png` |
| WeatherDisplay.IconCodeRoundTrip | weather-widgetsec/src/components/WeatherDisplay/WeatherDisplay.tsx:16-18 | the icon code is recovered from the URL built for it |
| WeatherDisplay.IconUrlRoundTrip | weather-widgetsec/src/components/WeatherDisplay/WeatherDisplay.tsx:16-18 | every URL of the template's form is the icon URL of the code read out of it |
| WeatherDisplay.GetWeatherIconInjective | weather-widgetsec/src/components/WeatherDisplay/WeatherDisplay.tsx:16-18 | distinct icon codes give distinct icon URLs |
| WeatherDisplay.CardsOf | weather-widgetsec/src/components/WeatherDisplay/WeatherDisplay.tsx:74-90 | one forecast card per shown day, in order, each built from that day's sample |
| WeatherDisplay.Render | weather-widgetsec/src/components/WeatherDisplay/WeatherDisplay.tsx:45-93 | nothing is rendered exactly when both inputs are null; the current block appears exactly when `isCurrent` and `weatherData` is present; the forecast block exactly when not `isCurrent` and `forecastData` is present, with cards for the filtered days |
| WeatherDisplay.RenderShowsOneBlockAtMost | weather-widgetsec/src/components/WeatherDisplay/WeatherDisplay.tsx:49-70 | the current and forecast blocks are never shown together |
| WeatherDisplay.ForecastCardsAreFirstOfDays | weather-widgetsec/src/components/WeatherDisplay/WeatherDisplay.tsx:70-90 | the forecast block shows at most five cards, in input order, each the card of the first sample of its day, and every day left out comes after all the shown days |
| App.OrElse | weather-widgetsec/src/App.tsx:67 | the logical-or with a fallback yields the given string when it is present and non-empty, and the fallback otherwise |
| App.EndpointFor | weather-widgetsec/src/App.tsx:86 | the weather endpoint is chosen exactly in current mode |
| App.StartFetch | weather-widgetsec/src/App.tsx:43-45 | starting a fetch turns the loader on and clears the error, and changes nothing else |
| App.FailureMessageCases | weather-widgetsec/src/App.tsx:50-67 | a non-OK response shows the body's non-empty `message`, else "Город не найден"; an exception shows its non-empty message, else the generic text; the error is never empty |
| App.Resolve | weather-widgetsec/src/App.tsx:56-71 | on success the data fills the slot of the request's mode and the other slot is cleared; on failure the data is kept and the error is set; the loader is off in every case |
| App.HandleSearch | weather-widgetsec/src/App.tsx:74-87 | a request is sent exactly for a non-blank city with a key; a blank city changes nothing; a missing key only sets the configuration error; the request names the encoded city on the endpoint of the current mode, and the fetch starts |
| App.HandleGeolocation | weather-widgetsec/src/App.tsx:89-113 | a request is sent exactly with a key and a position; a missing key, no support or a failure each set only their own error text; the request carries the coordinates on the endpoint of the current mode |
| App.SetMode | weather-widgetsec/src/App.tsx:130-133 | the toggle changes only `isCurrent` |
| App.Step | weather-widgetsec/src/App.tsx:43-113 | an event sends the request its handler sends; without a request the handler's state stands; with one the loader is off afterwards |
| App.StepKeepsAtMostOneSlot | weather-widgetsec/src/App.tsx:58-64 | no event fills both data slots |
| App.RunKeepsAtMostOneSlot | weather-widgetsec/src/App.tsx:34-64 | from any state with at most one slot filled, every run of events keeps at most one filled |
| App.InitialAtMostOneSlot | weather-widgetsec/src/App.tsx:34-38 | from the first render on, at most one of `weatherData`/`forecastData` is ever non-null |
| App.RunNeverLeavesLoading | weather-widgetsec/src/App.tsx:69-71 | with every fetch resolved, the loader is never left on |
| App.RunRequestsNeedKey | weather-widgetsec/src/App.tsx:78-93 | no request is sent without a key, and every request carries the configured key |
| App.RunWithoutToggleKeepsEndpoint | weather-widgetsec/src/App.tsx:86-103 | with no mode toggle in a run, every request is on the endpoint of the mode the run started in |
| App.SuccessfulSearchIsShown | weather-widgetsec/src/App.tsx:56-64 | after a successful search the view is exactly the block for the fetched data in the current mode, with no error and no loader |
| App.FailedFetchKeepsView | weather-widgetsec/src/App.tsx:65-71 | after a failed fetch the view is the same as before, under a non-empty error, with the loader off |
| App.BlankSearchIsNoOp | weather-widgetsec/src/App.tsx:75 | a blank search changes nothing and sends nothing, with or without a key |
| App.MissingKeySendsNothing | weather-widgetsec/src/App.tsx:78-93 | without a key, search and geolocation send nothing and only set the configuration error |
| App.ToggleRoundTrip | weather-widgetsec/src/App.tsx:130-133 | toggling the mode away and back restores the state, and nothing is sent |
| App.ToggleAfterCurrentSearch | weather-widgetsec/src/App.tsx:115-118 | after a current-weather search, switching to the forecast keeps the data and shows an empty panel, and switching back shows the data again |
| App.NotFoundBodyMessageShown | weather-widgetsec/src/App.tsx:50-53 | a 404 whose body says "city not found" shows exactly that text |
| App.MissingKeyParis | weather-widgetsec/src/App.tsx:78-81 | searching "Paris" without a key sends nothing, shows the configuration error and leaves the loader alone |

## Left out

- HTTP, `response.json()` and URL assembly are not modelled. A request is its
  endpoint, locator and key. The fixed `units=metric&lang=ru` parameters are
  not represented.
- `encodeURIComponent` is not modelled. It is a total parameter. In
  JavaScript it throws `URIError` on a lone surrogate. That throw is not
  caught, so no request goes out and the state does not change. A Dafny
  `string` cannot hold a lone surrogate, so the model has no such case.
- `toLocaleDateString` and `formatDate` depend on locale and time zone. The day
  key is a parameter. Cards keep the raw timestamp.
- Temperatures, feels-like, humidity and wind speed are left out of the
  records. The widget only prints them: it rounds the temperatures and the
  wind speed, and prints humidity as received. Coordinates are `real`
  values that are passed through unchanged.
- App.Resolve: requires a success body whose shape matches the endpoint (a
  `WeatherData` from the weather endpoint, a `ForecastData` from the forecast
  endpoint). This is the API's fixed contract, which the TypeScript types also
  assume. Storing a body of the other shape is not modelled.
- App.Step: each fetch starts and resolves within one event. Overlapping
  requests are not modelled: the last one to resolve wins, and a mode toggle or
  another action can land between a click and its response. App.RunNeverLeavesLoading
  depends on this. In the source, the endpoint and the slot both come from the
  `isCurrent` captured when the handler ran. For geolocation this is the mode
  at the click. The model uses the mode at the event for both, which is the same
  value.
- A condition list is never empty, by the type `Conditions`. The render's
  `weather[0]` on an empty list would throw, and that is not modelled.
- A `message` field that is present but not a string is not modelled. The
  model's `message` is an optional string.
- `console.error`, JSX markup, CSS and the empty `useEffect` have no effect on
  the state, so they are not modelled.
- `process.env` is not modelled: the key is an optional string parameter.
- SearchBar.tsx only forwards the input text. TogglePeriod.tsx's two buttons
  call `setIsCurrent(true)` and `setIsCurrent(false)`, which the model covers
  as `App.SetMode`.
