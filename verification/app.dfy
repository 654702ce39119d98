/**
 App.tsx: the widget's view state and the handlers that change it.
 Every handler is a pure function from the old state to the new one; a
 handler that would call `fetchWeather` also returns the request it sends.
 The weather API's answer is an abstract outcome passed in; the API key
 (`process.env.REACT_APP_OPENWEATHER_API_KEY`) and `encodeURIComponent`
 are parameters.
 */
module App {
  import opened Wrappers
  import opened Weather
  import opened JsText
  import opened ForecastFilter
  import opened WeatherDisplay

  const MissingKeyMessage: string := "API ключ не настроен. Проверьте файл .env"
  const NotFoundMessage: string := "Город не найден"
  const FetchFailedMessage: string := "Ошибка при получении данных. Проверьте название города"
  const GeolocationFailedPrefix: string := "Не удалось получить ваше местоположение: "
  const GeolocationUnsupportedMessage: string := "Геолокация не поддерживается вашим браузером"

  /** The five `useState` slots of the component. */
  datatype ViewState = ViewState(
    weatherData: Option<WeatherData>,
    forecastData: Option<ForecastData>,
    isCurrent: bool,
    error: string,
    loading: bool)

  /** The state on first render. */
  const Initial: ViewState := ViewState(None, None, true, "", false)

  /** At most one of the two data slots holds data. */
  predicate AtMostOneSlot(s: ViewState) {
    !(s.weatherData.Some? && s.forecastData.Some?)
  }

  /** The two API endpoints: `/data/2.5/weather` and `/data/2.5/forecast`. */
  datatype Endpoint = CurrentWeather | Forecast

  /** What the query names: `q=` with the encoded city, or `lat=`/`lon=`. */
  datatype Locator = City(encoded: string) | Coords(latitude: real, longitude: real)

  /** A request URL, by its parts; `units=metric&lang=ru` is the same on every request. */
  datatype Request = Request(endpoint: Endpoint, locator: Locator, appId: string)

  /** A parsed success body: the weather endpoint answers with a `WeatherData`, the forecast endpoint with a `ForecastData`. */
  datatype Body = CurrentBody(weather: WeatherData) | ForecastBody(forecast: ForecastData)

  /**
   How `fetchWeather`'s `try` block ends: a parsed success body; a non-OK
   response whose JSON body has the given `message` field; or any exception
   (network failure, a body that is not JSON) with the given `message`.
   */
  datatype Outcome = Ok(body: Body) | HttpError(message: Option<string>) | Thrown(message: Option<string>)

  /** The success body has the shape of the endpoint that was asked. */
  predicate Fits(endpoint: Endpoint, outcome: Outcome) {
    outcome.Ok? ==> (outcome.body.CurrentBody? <==> endpoint == CurrentWeather)
  }

  /** What a handler leaves behind: the new state and the request it sent, if any. */
  datatype Handled = Handled(state: ViewState, request: Option<Request>)

  /** What the browser's geolocation gives: no support, a failure with its message, or a position. */
  datatype Position = Unsupported | Denied(reason: string) | Located(latitude: real, longitude: real)

  /** `!API_KEY` is false: the key is defined and not empty. */
  predicate HasKey(apiKey: Option<string>) {
    apiKey.Some? && apiKey.value != ""
  }

  /** JavaScript's `a || fallback` on a possibly missing string. */
  function OrElse(a: Option<string>, fallback: string): (r: string)
    ensures a.Some? && a.value != "" ==> r == a.value
    ensures a.None? || a.value == "" ==> r == fallback
  {
    if a.Some? && a.value != "" then a.value else fallback
  }

  /** `isCurrent ? currentUrl : forecastUrl`. */
  function EndpointFor(isCurrent: bool): (endpoint: Endpoint)
    ensures endpoint == CurrentWeather <==> isCurrent
  {
    if isCurrent then CurrentWeather else Forecast
  }

  /** The start of `fetchWeather`: `setLoading(true)` and `setError('')`. */
  function StartFetch(s: ViewState): (t: ViewState)
    ensures t.loading && t.error == ""
    ensures t.weatherData == s.weatherData && t.forecastData == s.forecastData && t.isCurrent == s.isCurrent
  {
    s.(loading := true, error := "")
  }

  /** The error text the `catch` block sets for a failed fetch. */
  function FailureMessage(outcome: Outcome): string
    requires !outcome.Ok?
  {
    var thrown :=
      match outcome
      case HttpError(message) => Some(OrElse(message, NotFoundMessage))
      case Thrown(message) => message;
    OrElse(thrown, FetchFailedMessage)
  }

  /**
   A non-OK response shows the body's `message` when it has a non-empty one
   and "Город не найден" otherwise; an exception shows its own message, or the
   generic text when it has none. The error shown is never empty.
   */
  lemma FailureMessageCases(outcome: Outcome)
    requires !outcome.Ok?
    ensures FailureMessage(outcome) != ""
    ensures outcome.HttpError? ==>
              FailureMessage(outcome) == (if outcome.message.Some? && outcome.message.value != ""
                                          then outcome.message.value else NotFoundMessage)
    ensures outcome.Thrown? ==>
              FailureMessage(outcome) == (if outcome.message.Some? && outcome.message.value != ""
                                          then outcome.message.value else FetchFailedMessage)
  {
  }

  /**
   The end of `fetchWeather`: on success the data goes into the slot of the
   mode the request was made in and the other slot is cleared; on failure the
   error is set and the data is kept; `loading` is false either way.
   */
  function Resolve(s: ViewState, request: Request, outcome: Outcome): (t: ViewState)
    requires Fits(request.endpoint, outcome)
    ensures !t.loading && t.isCurrent == s.isCurrent
    ensures outcome.Ok? && request.endpoint == CurrentWeather ==>
              t.weatherData == Some(outcome.body.weather) && t.forecastData.None?
    ensures outcome.Ok? && request.endpoint == Forecast ==>
              t.forecastData == Some(outcome.body.forecast) && t.weatherData.None?
    ensures outcome.Ok? ==> t.error == s.error
    ensures !outcome.Ok? ==>
              t.weatherData == s.weatherData && t.forecastData == s.forecastData
              && t.error == FailureMessage(outcome) && t.error != ""
  {
    if outcome.Ok? then
      if request.endpoint == CurrentWeather then
        s.(weatherData := Some(outcome.body.weather), forecastData := None, loading := false)
      else
        s.(forecastData := Some(outcome.body.forecast), weatherData := None, loading := false)
    else
      FailureMessageCases(outcome);
      s.(error := FailureMessage(outcome), loading := false)
  }

  /**
   `handleSearch(city)`: nothing for a blank city; the configuration error
   without a key; otherwise a request for the encoded (untrimmed) city on the
   endpoint of the current mode, and the fetch starts.
   */
  function HandleSearch(s: ViewState, apiKey: Option<string>, encode: string -> string, city: string): (h: Handled)
    ensures h.request.Some? <==> !IsBlank(city) && HasKey(apiKey)
    ensures IsBlank(city) ==> h.state == s
    ensures !IsBlank(city) && !HasKey(apiKey) ==> h.state == s.(error := MissingKeyMessage)
    ensures h.request.Some? ==>
              && h.request.value == Request(EndpointFor(s.isCurrent), City(encode(city)), apiKey.value)
              && h.state == StartFetch(s)
  {
    if IsBlank(city) then Handled(s, None)
    else if !HasKey(apiKey) then Handled(s.(error := MissingKeyMessage), None)
    else
      Handled(StartFetch(s), Some(Request(EndpointFor(s.isCurrent), City(encode(city)), apiKey.value)))
  }

  /**
   `handleGeolocation()` together with the position callback: the
   configuration error without a key; otherwise the unsupported or failure
   message, or a coordinates request on the endpoint of the current mode.
   */
  function HandleGeolocation(s: ViewState, apiKey: Option<string>, position: Position): (h: Handled)
    ensures h.request.Some? <==> HasKey(apiKey) && position.Located?
    ensures !HasKey(apiKey) ==> h.state == s.(error := MissingKeyMessage)
    ensures HasKey(apiKey) && position.Unsupported? ==> h.state == s.(error := GeolocationUnsupportedMessage)
    ensures HasKey(apiKey) && position.Denied? ==> h.state == s.(error := GeolocationFailedPrefix + position.reason)
    ensures h.request.Some? ==>
              && h.request.value == Request(EndpointFor(s.isCurrent), Coords(position.latitude, position.longitude),
                                            apiKey.value)
              && h.state == StartFetch(s)
  {
    if !HasKey(apiKey) then Handled(s.(error := MissingKeyMessage), None)
    else
      match position
      case Unsupported => Handled(s.(error := GeolocationUnsupportedMessage), None)
      case Denied(reason) => Handled(s.(error := GeolocationFailedPrefix + reason), None)
      case Located(latitude, longitude) =>
        Handled(StartFetch(s), Some(Request(EndpointFor(s.isCurrent), Coords(latitude, longitude), apiKey.value)))
  }

  /** `setIsCurrent(value)` from the mode toggle: only the flag changes and nothing is fetched. */
  function SetMode(s: ViewState, isCurrent: bool): (t: ViewState)
    ensures t.isCurrent == isCurrent
    ensures t.weatherData == s.weatherData && t.forecastData == s.forecastData
    ensures t.error == s.error && t.loading == s.loading
  {
    s.(isCurrent := isCurrent)
  }

  /** The configuration the handlers read: the API key and the URL encoder. */
  datatype Config = Config(apiKey: Option<string>, encode: string -> string)

  /**
   A user action together with the answer the API gives to the request it
   sends, if it sends one; each fetch starts and resolves in one step.
   */
  datatype Event =
    | Search(city: string, reply: Outcome)
    | Geolocate(position: Position, reply: Outcome)
    | Toggle(isCurrent: bool)

  /** The handler part of an event, before any reply arrives. */
  function Handle(s: ViewState, config: Config, e: Event): Handled {
    match e
    case Search(city, _) => HandleSearch(s, config.apiKey, config.encode, city)
    case Geolocate(position, _) => HandleGeolocation(s, config.apiKey, position)
    case Toggle(isCurrent) => Handled(SetMode(s, isCurrent), None)
  }

  /** The API answers a request sent by the event with a body of the right shape. */
  predicate Admissible(s: ViewState, config: Config, e: Event) {
    var h := Handle(s, config, e);
    h.request.Some? ==> !e.Toggle? && Fits(h.request.value.endpoint, e.reply)
  }

  /** One event: its handler, then the resolution of the request it sent. */
  function Step(s: ViewState, config: Config, e: Event): (h: Handled)
    requires Admissible(s, config, e)
    ensures h.request == Handle(s, config, e).request
    ensures h.request.None? ==> h.state == Handle(s, config, e).state
    ensures h.request.Some? ==> !h.state.loading
  {
    var h := Handle(s, config, e);
    if h.request.Some? then Handled(Resolve(h.state, h.request.value, e.reply), h.request) else h
  }

  /** Every event of the sequence is admissible in the state it meets. */
  predicate AdmissibleRun(s: ViewState, config: Config, events: seq<Event>)
    decreases |events|
  {
    |events| > 0 ==>
      Admissible(s, config, events[0]) && AdmissibleRun(Step(s, config, events[0]).state, config, events[1..])
  }

  datatype Trace = Trace(state: ViewState, requests: seq<Request>)

  /** The state after a sequence of events and the requests they sent, in order. */
  function Run(s: ViewState, config: Config, events: seq<Event>): (t: Trace)
    requires AdmissibleRun(s, config, events)
    decreases |events|
  {
    if |events| == 0 then Trace(s, [])
    else
      var h := Step(s, config, events[0]);
      var rest := Run(h.state, config, events[1..]);
      Trace(rest.state, (if h.request.Some? then [h.request.value] else []) + rest.requests)
  }

  /** No event puts data into both slots. */
  lemma StepKeepsAtMostOneSlot(s: ViewState, config: Config, e: Event)
    requires Admissible(s, config, e)
    requires AtMostOneSlot(s)
    ensures AtMostOneSlot(Step(s, config, e).state)
  {
  }

  /** From the first render on, at most one data slot is ever filled. */
  lemma {:induction false} RunKeepsAtMostOneSlot(s: ViewState, config: Config, events: seq<Event>)
    requires AdmissibleRun(s, config, events)
    requires AtMostOneSlot(s)
    ensures AtMostOneSlot(Run(s, config, events).state)
    decreases |events|
  {
    if |events| > 0 {
      StepKeepsAtMostOneSlot(s, config, events[0]);
      RunKeepsAtMostOneSlot(Step(s, config, events[0]).state, config, events[1..]);
    }
  }

  lemma InitialAtMostOneSlot(config: Config, events: seq<Event>)
    requires AdmissibleRun(Initial, config, events)
    ensures AtMostOneSlot(Run(Initial, config, events).state)
  {
    RunKeepsAtMostOneSlot(Initial, config, events);
  }

  /** With every fetch resolved, the loading indicator is never left on. */
  lemma {:induction false} RunNeverLeavesLoading(s: ViewState, config: Config, events: seq<Event>)
    requires AdmissibleRun(s, config, events)
    requires !s.loading
    ensures !Run(s, config, events).state.loading
    decreases |events|
  {
    if |events| > 0 {
      var h := Step(s, config, events[0]);
      RunNeverLeavesLoading(h.state, config, events[1..]);
    }
  }

  /** Requests go out only with a key, and every request carries the configured key. */
  lemma {:induction false} RunRequestsNeedKey(s: ViewState, config: Config, events: seq<Event>)
    requires AdmissibleRun(s, config, events)
    ensures |Run(s, config, events).requests| > 0 ==> HasKey(config.apiKey)
    ensures forall r :: r in Run(s, config, events).requests ==> r.appId == config.apiKey.value
    decreases |events|
  {
    if |events| > 0 {
      var h := Step(s, config, events[0]);
      RunRequestsNeedKey(h.state, config, events[1..]);
    }
  }

  /**
   Without a mode toggle among the events, every request of the run is on the
   endpoint of the mode the run started in, and that mode is kept.
   */
  lemma {:induction false} RunWithoutToggleKeepsEndpoint(s: ViewState, config: Config, events: seq<Event>)
    requires AdmissibleRun(s, config, events)
    requires forall k :: 0 <= k < |events| ==> !events[k].Toggle?
    ensures Run(s, config, events).state.isCurrent == s.isCurrent
    ensures forall r :: r in Run(s, config, events).requests ==> r.endpoint == EndpointFor(s.isCurrent)
    decreases |events|
  {
    if |events| > 0 {
      var h := Step(s, config, events[0]);
      assert h.state.isCurrent == s.isCurrent;
      RunWithoutToggleKeepsEndpoint(h.state, config, events[1..]);
    }
  }

  /** The view the state renders. */
  function ViewOf(s: ViewState, dateKey: DateKey): View {
    Render(s.weatherData, s.forecastData, s.isCurrent, dateKey)
  }

  /**
   A search that succeeds is what the widget then shows: in current mode the
   current block for the new data, in forecast mode the forecast block for
   its filtered days, never the other block, with no error and no loader.
   */
  lemma SuccessfulSearchIsShown(s: ViewState, config: Config, city: string, body: Body, dateKey: DateKey)
    requires !IsBlank(city) && HasKey(config.apiKey)
    requires body.CurrentBody? <==> s.isCurrent
    ensures var t := Step(s, config, Search(city, Ok(body))).state;
            && !t.loading && t.error == ""
            && (s.isCurrent ==>
                  ViewOf(t, dateKey) == Display(Some(CurrentPanel(body.weather.name, CardOf(body.weather))), None))
            && (!s.isCurrent ==>
                  ViewOf(t, dateKey) == Display(None, Some(ForecastPanel(body.forecast.cityName,
                                                                       CardsOf(FilterForecast(Some(body.forecast), dateKey))))))
  {
  }

  /** A failed fetch keeps showing the data already there, under a non-empty error. */
  lemma FailedFetchKeepsView(s: ViewState, config: Config, e: Event, dateKey: DateKey)
    requires !e.Toggle? && !e.reply.Ok?
    requires Handle(s, config, e).request.Some?
    ensures var t := Step(s, config, e).state;
            && ViewOf(t, dateKey) == ViewOf(s, dateKey)
            && t.error == FailureMessage(e.reply) && t.error != ""
            && !t.loading
  {
  }

  /** A blank search changes nothing and sends nothing, with or without a key. */
  lemma BlankSearchIsNoOp(s: ViewState, config: Config, city: string, reply: Outcome)
    requires IsBlank(city)
    ensures Step(s, config, Search(city, reply)) == Handled(s, None)
  {
  }

  /**
   Without a key, search and geolocation send nothing, set the configuration
   error and leave the loader and the data alone.
   */
  lemma MissingKeySendsNothing(s: ViewState, config: Config, e: Event)
    requires !HasKey(config.apiKey) && !e.Toggle?
    requires e.Search? ==> !IsBlank(e.city)
    ensures var h := Step(s, config, e);
            && h.request.None?
            && h.state == s.(error := MissingKeyMessage)
  {
  }

  /** Toggling the mode away and back restores the state, and sends nothing. */
  lemma ToggleRoundTrip(s: ViewState, config: Config, isCurrent: bool)
    ensures var h := Step(s, config, Toggle(isCurrent));
            && h.request.None?
            && Step(h.state, config, Toggle(s.isCurrent)) == Handled(s, None)
  {
  }

  /**
   Right after a successful current-weather search, switching to the
   forecast keeps the current data and shows an empty panel; switching back
   shows the current data again.
   */
  lemma ToggleAfterCurrentSearch(s: ViewState, config: Config, city: string, w: WeatherData, dateKey: DateKey)
    requires s.isCurrent && !IsBlank(city) && HasKey(config.apiKey)
    ensures var t := Step(s, config, Search(city, Ok(CurrentBody(w)))).state;
            var u := Step(t, config, Toggle(false)).state;
            && u.weatherData == Some(w)
            && ViewOf(u, dateKey) == Display(None, None)
            && ViewOf(Step(u, config, Toggle(true)).state, dateKey) == ViewOf(t, dateKey)
  {
    var t := Step(s, config, Search(city, Ok(CurrentBody(w)))).state;
    assert t.weatherData == Some(w) && t.forecastData.None? && t.isCurrent;
    var u := Step(t, config, Toggle(false)).state;
    assert u == t.(isCurrent := false);
    assert Step(u, config, Toggle(true)).state == t;
  }

  /** A 404 whose body says "city not found" shows exactly that text. */
  lemma NotFoundBodyMessageShown(s: ViewState, request: Request)
    ensures Resolve(s, request, HttpError(Some("city not found"))).error == "city not found"
  {
  }

  /** "Paris" without a key: nothing is sent, the configuration error is shown, the loader is untouched. */
  lemma MissingKeyParis(s: ViewState, encode: string -> string)
    ensures var h := HandleSearch(s, None, encode, "Paris");
            && h.request.None? && h.state.error == MissingKeyMessage && h.state.loading == s.loading
  {
  }
}
