/**
 The records the weather API returns, as the widget reads them
 (`WeatherData` and `ForecastData` of App.tsx). The numeric `main` and
 `wind` fields are not modelled: the widget only prints them, rounding
 temperatures and wind speed and showing humidity as received.
 */
module Weather {
  import opened Wrappers

  /** One weather condition: numeric id, short category, description, icon code. */
  datatype Condition = Condition(id: int, main: string, description: string, icon: string)

  /** The API always sends at least one condition; the widget reads the first. */
  type Conditions = s: seq<Condition> | |s| > 0 witness [Condition(0, "", "", "")]

  /** A point-in-time observation; `dt` is seconds since the epoch. */
  datatype WeatherData = WeatherData(dt: int, weather: Conditions, name: Option<string>)

  /** A forecast: samples in chronological order plus the place name. */
  datatype ForecastData = ForecastData(list: seq<WeatherData>, cityName: string)
}
