/**
 The records of the weather app. JavaScript numbers are modelled as
 integers: every value in the dataset is integral and the modelled code does
 no arithmetic on them.
 */
module Types {
  import opened Wrappers

  /** The closed set of conditions a record or a forecast day can carry. */
  datatype WeatherCondition = Sunny | Cloudy | Rainy | Windy | PartlyCloudy

  /** One forecast day; `aqi` is required, `rainAlert` is optional. */
  datatype DailyForecast = DailyForecast(
    day: string,
    condition: WeatherCondition,
    maxTemp: int,
    minTemp: int,
    aqi: int,
    rainAlert: Option<string>)

  /** The current conditions of one city and its forecast. */
  datatype WeatherData = WeatherData(
    city: string,
    country: string,
    temperature: int,
    condition: WeatherCondition,
    humidity: int,
    windSpeed: int,
    aqi: int,
    rainAlert: Option<string>,
    forecast: seq<DailyForecast>)

  /** The string a condition is written as in the source. */
  function Label(c: WeatherCondition): string {
    match c
    case Sunny => "Sunny"
    case Cloudy => "Cloudy"
    case Rainy => "Rainy"
    case Windy => "Windy"
    case PartlyCloudy => "Partly Cloudy"
  }

  /** The condition a string names, if it names one exactly. */
  function ParseCondition(s: string): (r: Option<WeatherCondition>)
    ensures r.Some? ==> Label(r.value) == s
    ensures r.None? ==> forall c: WeatherCondition :: Label(c) != s
  {
    if s == "Sunny" then Some(Sunny)
    else if s == "Cloudy" then Some(Cloudy)
    else if s == "Rainy" then Some(Rainy)
    else if s == "Windy" then Some(Windy)
    else if s == "Partly Cloudy" then Some(PartlyCloudy)
    else None
  }

  /** Parsing a label gives back its condition, so distinct conditions have distinct labels. */
  lemma ParseLabel(c: WeatherCondition)
    ensures ParseCondition(Label(c)) == Some(c)
  {
  }
}
