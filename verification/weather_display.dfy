/**
 WeatherDisplay.tsx: the icon URL template and which of the current and
 forecast data the component renders, given the `isCurrent` mode flag.
 Markup, styling, `formatDate` and the rounded temperatures are not modelled;
 a rendered card keeps the timestamp, icon URL and description it shows.
 */
module WeatherDisplay {
  import opened Wrappers
  import opened Weather
  import opened ForecastFilter

  const IconPrefix: string := "http://openweathermap.org/img/wn/"
  const IconSuffix: string := "@2x.png"

  /** `getWeatherIcon`: the 2x icon of the API's static icon host for an icon code. */
  function GetWeatherIcon(iconCode: string): (url: string)
    ensures |url| == |IconPrefix| + |iconCode| + |IconSuffix|
    ensures url[..|IconPrefix|] == IconPrefix
    ensures url[|IconPrefix|..|url| - |IconSuffix|] == iconCode
    ensures url[|url| - |IconSuffix|..] == IconSuffix
  {
    IconPrefix + iconCode + IconSuffix
  }

  /** Reads the icon code back out of an icon URL; `None` when the URL does not follow the template. */
  function IconCodeOf(url: string): (code: Option<string>)
    ensures code.Some? ==> |url| >= |IconPrefix| + |IconSuffix|
  {
    if |url| >= |IconPrefix| + |IconSuffix|
       && url[..|IconPrefix|] == IconPrefix
       && url[|url| - |IconSuffix|..] == IconSuffix
    then Some(url[|IconPrefix|..|url| - |IconSuffix|])
    else None
  }

  /** The icon code can be recovered from the URL built for it. */
  lemma IconCodeRoundTrip(iconCode: string)
    ensures IconCodeOf(GetWeatherIcon(iconCode)) == Some(iconCode)
  {
  }

  /** Every URL that follows the template is the icon URL of the code read out of it. */
  lemma IconUrlRoundTrip(url: string)
    requires IconCodeOf(url).Some?
    ensures GetWeatherIcon(IconCodeOf(url).value) == url
  {
  }

  /** Distinct icon codes give distinct URLs. */
  lemma GetWeatherIconInjective(a: string, b: string)
    ensures GetWeatherIcon(a) == GetWeatherIcon(b) ==> a == b
  {
  }

  /**
   The sample a card is built from: its timestamp, the icon and the
   description of its first condition. A forecast card shows the date of the
   timestamp; the current block shows only the icon and description.
   */
  datatype Card = Card(dt: int, iconUrl: string, description: string)

  /** The current-weather block: the place name heading and one card. */
  datatype CurrentPanel = CurrentPanel(name: Option<string>, card: Card)

  /** The forecast block: the city heading and one card per shown day. */
  datatype ForecastPanel = ForecastPanel(cityName: string, cards: seq<Card>)

  /** `null`, or the weather-display container holding the blocks the mode selects. */
  datatype View = Nothing | Display(current: Option<CurrentPanel>, forecast: Option<ForecastPanel>)

  function CardOf(w: WeatherData): Card {
    Card(w.dt, GetWeatherIcon(w.weather[0].icon), w.weather[0].description)
  }

  function CardsOf(days: seq<WeatherData>): (cards: seq<Card>)
    ensures |cards| == |days|
    ensures forall i :: 0 <= i < |days| ==> cards[i] == CardOf(days[i])
  {
    seq(|days|, i requires 0 <= i < |days| => CardOf(days[i]))
  }

  /** The component's output for its three props. */
  function Render(weatherData: Option<WeatherData>, forecastData: Option<ForecastData>, isCurrent: bool,
                  dateKey: DateKey): (view: View)
    ensures view.Nothing? <==> weatherData.None? && forecastData.None?
    ensures view.Display? ==> (view.current.Some? <==> isCurrent && weatherData.Some?)
    ensures view.Display? ==> (view.forecast.Some? <==> !isCurrent && forecastData.Some?)
    ensures view.Display? && view.current.Some? ==>
              view.current.value == CurrentPanel(weatherData.value.name, CardOf(weatherData.value))
    ensures view.Display? && view.forecast.Some? ==>
              view.forecast.value == ForecastPanel(forecastData.value.cityName,
                                                   CardsOf(FilterForecast(forecastData, dateKey)))
  {
    if weatherData.None? && forecastData.None? then Nothing
    else
      Display(
        if isCurrent && weatherData.Some? then Some(CurrentPanel(weatherData.value.name, CardOf(weatherData.value)))
        else None,
        if !isCurrent && forecastData.Some? then
          Some(ForecastPanel(forecastData.value.cityName, CardsOf(FilterForecast(forecastData, dateKey))))
        else None)
  }

  /** The two blocks are never shown together. */
  lemma RenderShowsOneBlockAtMost(weatherData: Option<WeatherData>, forecastData: Option<ForecastData>,
                                  isCurrent: bool, dateKey: DateKey)
    ensures var view := Render(weatherData, forecastData, isCurrent, dateKey);
            !(view.Display? && view.current.Some? && view.forecast.Some?)
  {
  }

  /**
   The forecast block shows at most five cards, on distinct days, each the
   card of the first sample of its day, in input order, and every day it
   leaves out comes after all the days it shows.
   */
  lemma ForecastCardsAreFirstOfDays(weatherData: Option<WeatherData>, f: ForecastData, dateKey: DateKey)
    returns (positions: seq<int>)
    ensures var view := Render(weatherData, Some(f), false, dateKey);
            && view.Display? && view.forecast.Some?
            && |view.forecast.value.cards| == |positions| <= MaxDays
            && (forall i :: 0 <= i < |positions| ==>
                  FirstOfItsDay(f.list, dateKey, positions[i])
                  && view.forecast.value.cards[i] == CardOf(f.list[positions[i]]))
            && (forall i, j :: 0 <= i < j < |positions| ==> positions[i] < positions[j])
            && SkipsOnlyLaterDays(f.list, dateKey, positions)
  {
    positions := FilterForecastPicksFirstOfDays(f, dateKey);
  }
}
