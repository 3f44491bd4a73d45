/** The compiled-in dataset of five Indian cities and the default city. */
module WeatherDataset {
  import opened Wrappers
  import opened Text
  import opened Types

  const IndianCitiesWeather: seq<WeatherData> := [
    WeatherData("Delhi", "India", 32, Sunny, 45, 10, 185, None, [
      DailyForecast("Mon", Sunny, 34, 25, 190, None),
      DailyForecast("Tue", PartlyCloudy, 33, 26, 175, None),
      DailyForecast("Wed", Cloudy, 31, 24, 160, None)]),
    WeatherData("Mumbai", "India", 29, Rainy, 88, 25, 95, None, [
      DailyForecast("Mon", Rainy, 30, 26, 100, None),
      DailyForecast("Tue", Rainy, 29, 25, 90, None),
      DailyForecast("Wed", Cloudy, 30, 26, 85, None)]),
    WeatherData("Bangalore", "India", 24, Cloudy, 75, 15, 65, None, [
      DailyForecast("Mon", PartlyCloudy, 26, 20, 70, None),
      DailyForecast("Tue", Rainy, 24, 20, 60, None),
      DailyForecast("Wed", Cloudy, 25, 21, 68, None)]),
    WeatherData("Chennai", "India", 31, PartlyCloudy, 70, 18, 110, None, [
      DailyForecast("Mon", PartlyCloudy, 33, 27, 115, None),
      DailyForecast("Tue", Sunny, 34, 28, 120, None),
      DailyForecast("Wed", PartlyCloudy, 33, 27, 105, None)]),
    WeatherData("Kolkata", "India", 30, Cloudy, 82, 12, 130, None, [
      DailyForecast("Mon", Rainy, 31, 26, 135, None),
      DailyForecast("Tue", Cloudy, 30, 25, 125, None),
      DailyForecast("Wed", Rainy, 29, 25, 120, None)])
  ]

  const DefaultCity: string := "Delhi"

  /** No two records of a dataset name the same city up to letter case. */
  predicate CitiesDistinct(ds: seq<WeatherData>) {
    forall i, j :: 0 <= i < j < |ds| ==> !EqualsIgnoreCase(ds[i].city, ds[j].city)
  }

  /** A forecast of three days labelled Mon, Tue, Wed in that order. */
  predicate ThreeDayForecast(w: WeatherData) {
    |w.forecast| == 3
    && w.forecast[0].day == "Mon"
    && w.forecast[1].day == "Tue"
    && w.forecast[2].day == "Wed"
  }

  /** Every forecast day's minimum is at most its maximum. */
  predicate MinAtMostMax(w: WeatherData) {
    forall k :: 0 <= k < |w.forecast| ==> w.forecast[k].minTemp <= w.forecast[k].maxTemp
  }

  /** The current-conditions fields are in range. */
  predicate PlausibleCurrent(w: WeatherData) {
    w.country == "India" && 0 <= w.humidity <= 100 && 0 <= w.aqi
  }

  /** Five records, in this order. */
  lemma DatasetCities()
    ensures |IndianCitiesWeather| == 5
    ensures IndianCitiesWeather[0].city == "Delhi" && IndianCitiesWeather[1].city == "Mumbai"
    ensures IndianCitiesWeather[2].city == "Bangalore" && IndianCitiesWeather[3].city == "Chennai"
    ensures IndianCitiesWeather[4].city == "Kolkata"
  {
  }

  /** Two strings whose lengths or folded first characters differ are not equal up to case. */
  lemma DifferentUpToCase(a: string, b: string)
    requires |a| != |b| || (0 < |a| && 0 < |b| && LowerChar(a[0]) != LowerChar(b[0]))
    ensures !EqualsIgnoreCase(a, b)
  {
  }

  /** City names in the dataset are pairwise distinct up to letter case. */
  lemma DatasetCitiesDistinct()
    ensures CitiesDistinct(IndianCitiesWeather)
  {
    var ds := IndianCitiesWeather;
    forall i, j | 0 <= i < j < |ds|
      ensures !EqualsIgnoreCase(ds[i].city, ds[j].city)
    {
      DifferentUpToCase(ds[i].city, ds[j].city);
    }
  }

  /** The default city is the first record, and no other record matches it. */
  lemma DefaultCityIsFirst()
    ensures EqualsIgnoreCase(IndianCitiesWeather[0].city, DefaultCity)
    ensures forall i :: 0 < i < |IndianCitiesWeather| ==> !EqualsIgnoreCase(IndianCitiesWeather[i].city, DefaultCity)
  {
    DatasetCitiesDistinct();
  }

  /** Every record's forecast has three days, Mon, Tue, Wed. */
  lemma DatasetForecastDays()
    ensures forall i :: 0 <= i < |IndianCitiesWeather| ==> ThreeDayForecast(IndianCitiesWeather[i])
  {
  }

  /** Every forecast day in the dataset has minTemp <= maxTemp. */
  lemma DatasetMinAtMostMax()
    ensures forall i :: 0 <= i < |IndianCitiesWeather| ==> MinAtMostMax(IndianCitiesWeather[i])
  {
  }

  /** Every record is in India, with humidity in 0..100 and a non-negative AQI. */
  lemma DatasetPlausible()
    ensures forall i :: 0 <= i < |IndianCitiesWeather| ==> PlausibleCurrent(IndianCitiesWeather[i])
  {
  }
}
