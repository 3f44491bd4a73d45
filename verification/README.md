# Mausam India — search, dataset and weather-icon model

A Dafny model of the logic in the Mausam India weather page. The page keeps two
pieces of React state: the search term and the displayed `WeatherData` record, which may be null.
On first render the record is the dataset entry whose city equals the default city, ignoring letter case.
Submitting the search form does one of three things:
- an empty term does nothing;
- a term that names a city, ignoring case, displays the first such record;
- any other term leaves the display alone and shows one destructive "City not found" toast.

The dataset is a constant list of five Indian cities, each with a three-day forecast.
The weather icon is a switch from a condition string to one of five icons, with the sun as the fallback.

Modules:
- `Wrappers`: `Option`, standing in for `undefined`/`null`.
- `Text`: `toLowerCase` as an ASCII fold, and case-insensitive equality.
- `Types`: `WeatherCondition`, `DailyForecast`, `WeatherData` and the condition labels.
- `WeatherDataset`: `IndianCitiesWeather`, `DefaultCity` and their invariants.
- `WeatherIcon`: the condition-to-icon switch and its inverse.
- `Home`: the page state, `find`, the initial state, the input's `onChange` and `handleSearch`.

Toasts are modelled as an append-only log in the state: emitting a toast appends one `Toast` value.

## Model

| member | source | states |
|---|---|---|
| Text.LowerChar | src/app/page.tsx:27 | the folded character is never an upper-case ASCII letter; a character that is not upper-case is kept, and an upper-case letter becomes the matching lower-case letter |
| Text.ToLower | src/app/page.tsx:27 | the lower-cased string has the input's length and contains no upper-case ASCII letter; at each position it holds the input's character, or that capital's own small letter |
| Text.EqualsIgnoreCaseIsCaseVariant | src/app/page.tsx:27 | two strings are equal after lower-casing exactly when they have the same length and agree position by position up to the case of a letter |
| Text.ToLowerIdempotent | src/app/page.tsx:27 | lower-casing an already lower-cased string changes nothing |
| Text.EqualsIgnoreCaseEquivalence | src/app/page.tsx:27 | the case-insensitive comparison is reflexive, symmetric and transitive |
| Types.ParseCondition | src/lib/types.ts:22 | a string parses to a condition exactly when it is that condition's label; otherwise it names no condition |
| Types.ParseLabel | src/lib/types.ts:22 | every condition's label parses back to that condition, so the five labels are distinct |
| WeatherIcon.IconForLabel | src/components/weather/weather-icon.tsx:10-22 | a string naming a condition gets the icon that stands for that condition; any other string gets the sun |
| WeatherIcon.Render | src/components/weather/weather-icon.tsx:9-22 | the rendered icon stands for the parsed condition, or is the sun when the string names no condition; the remaining props reach the icon unchanged |
| WeatherIcon.IconTable | src/components/weather/weather-icon.tsx:10-20 | Sunny→Sun, Cloudy→Cloudy, Rainy→CloudRain, Windy→Wind, Partly Cloudy→CloudSun |
| WeatherIcon.IconRoundTrip | src/components/weather/weather-icon.tsx:10-20 | the condition-to-icon map and the icon-to-condition map are inverse bijections |
| WeatherIcon.IconInjective | src/components/weather/weather-icon.tsx:10-20 | two conditions get the same icon if and only if they are the same condition |
| WeatherIcon.UnknownLabelIsSun | src/components/weather/weather-icon.tsx:21-22 | any string other than the five labels falls back to the sun icon |
| WeatherDataset.DatasetCities | src/lib/weather-data.ts:3-74 | the dataset has five records: Delhi, Mumbai, Bangalore, Chennai, Kolkata, in that order |
| WeatherDataset.DatasetCitiesDistinct | src/lib/weather-data.ts:5-61 | no two records name the same city up to letter case |
| WeatherDataset.DefaultCityIsFirst | src/lib/weather-data.ts:76 | the default city matches the first record and no other record |
| WeatherDataset.DatasetForecastDays | src/lib/weather-data.ts:12-72 | every record has exactly three forecast days labelled Mon, Tue, Wed in order |
| WeatherDataset.DatasetMinAtMostMax | src/lib/weather-data.ts:13-71 | every forecast day has minTemp at most maxTemp |
| WeatherDataset.DatasetPlausible | src/lib/weather-data.ts:6-67 | every record has country India, humidity within 0..100 and a non-negative AQI |
| Home.FindFrom | src/app/page.tsx:26-28 | the result is the first index at or after the start whose city matches the term up to case; none means no index from the start on matches |
| Home.Find | src/app/page.tsx:26-28 | `find` returns the record at the first matching index; it returns nothing exactly when no record matches |
| Home.NotFound | src/app/page.tsx:32-36 | the not-found toast is destructive, titled "City not found", and its description quotes the search term verbatim inside the fixed sentence |
| Home.Init | src/app/page.tsx:16-19 | the initial term is empty, no toasts exist, and the record is the first one matching the default city, or null exactly when none matches |
| Home.EditTerm | src/app/page.tsx:58 | typing replaces the search term and leaves the displayed record and the toasts alone |
| Home.Search | src/app/page.tsx:23-38 | the term never changes. An empty term changes nothing. A hit displays the first matching record and adds no toast. A miss keeps the display and appends exactly one "City not found" toast. The displayed record is always the previous one or a dataset member |
| Home.MatchIsFound | src/app/page.tsx:26-30 | with distinct city names, any record matching the term is the one `find` returns |
| Home.SearchCaseInsensitive | src/app/page.tsx:26-30 | with distinct city names, a non-empty term equal to a city up to case displays that city's record and changes nothing else |
| Home.SearchHitIdempotent | src/app/page.tsx:23-38 | repeating a search that found a city leaves the state as the first search did |
| Home.SearchMissTwice | src/app/page.tsx:31-36 | two missing searches keep the display and add exactly two not-found toasts |
| Home.InitialShowsDefaultCity | src/app/page.tsx:17-19 | with the shipped dataset the page starts on the Delhi record, so the initial record is never null |
| Home.SearchEveryDatasetCity | src/app/page.tsx:26-30 | for every shipped city and any spelling of its name up to case, search displays that city and adds no toast |
| Home.AtlantisAbsent | src/lib/weather-data.ts:5-61 | no shipped city equals "Atlantis" up to case |
| Home.SearchAtlantis | src/app/page.tsx:31-36 | searching "Atlantis" from the initial state keeps Delhi on screen and emits exactly one not-found toast |
| Home.SearchMixedCase | src/app/page.tsx:26-30 | searching "mUMBAI" from the initial state displays Mumbai |

## Left out

- Text.ToLower: JavaScript `toLowerCase` applies Unicode case mapping; the model folds only ASCII 'A'..'Z'. So a term like "\u212Aolkata" (KELVIN SIGN first), which the browser lower-cases to "kolkata" and so finds, is a miss in the model and adds the not-found toast. Unicode lower-casing can also change a string's length (U+0130 becomes two UTF-16 code units), while the model keeps the length.
- JavaScript numbers are modelled as unbounded integers. Every value in the dataset is integral, and the modelled code does no arithmetic on them.
- `e.preventDefault()` in `handleSearch` is a browser side effect with no bearing on the state.
- The toast's own lifetime (display, dismissal) belongs to the toaster library. The model keeps only the emitted notifications.
- All JSX layout of `Home` (src/app/page.tsx:40-127) is pure rendering. The forecast is rendered in list order, and that order is the dataset order stated by `WeatherDataset.DatasetForecastDays`.
- The lucide-react icon components are foreign. An icon is modelled as a tag, with the props it receives.
- src/ai/flows/explain-weather-insights.ts and src/components/weather/ai-assistant.tsx are not part of this model. They make one call to an external generative-text service, with a loading flag and toasts.
- src/components/weather/weather-charts.tsx is not part of this model. It is chart rendering, with date labels taken from the wall clock.
- Nothing is left out of the records: `aqi` is required and `rainAlert` optional on both of them (src/lib/types.ts:1-20), as in the model.
