/**
 The `Home` page's state and its search transition. The state is what the
 page keeps in React state (the search term and the displayed record) plus
 the toasts it has emitted so far; rendering is not modelled.
 */
module Home {
  import opened Wrappers
  import opened Text
  import opened Types
  import opened WeatherDataset

  datatype ToastVariant = Destructive

  /** A notification handed to the toaster. */
  datatype Toast = Toast(variant: ToastVariant, title: string, description: string)

  datatype State = State(searchTerm: string, weatherData: Option<WeatherData>, toasts: seq<Toast>)

  /** The fixed text around the search term in the not-found description. */
  const NotFoundOpening: string := "Weather data for \""
  const NotFoundClosing: string := "\" is not available. Please try another Indian city."

  /** The toast shown when a search finds no city; its description quotes the term. */
  function NotFound(term: string): (t: Toast)
    ensures t.variant == Destructive && t.title == "City not found"
    ensures |t.description| == |NotFoundOpening| + |term| + |NotFoundClosing|
    ensures t.description[..|NotFoundOpening|] == NotFoundOpening
    ensures t.description[|NotFoundOpening|..|NotFoundOpening| + |term|] == term
    ensures t.description[|NotFoundOpening| + |term|..] == NotFoundClosing
  {
    Toast(Destructive, "City not found", NotFoundOpening + term + NotFoundClosing)
  }

  /** The predicate handed to `find`: the record's city equals the term up to case. */
  predicate Matches(w: WeatherData, term: string) {
    EqualsIgnoreCase(w.city, term)
  }

  /** `i` is the first index of `ds` whose record matches `term`. */
  ghost predicate IsFirstMatch(ds: seq<WeatherData>, term: string, i: int) {
    0 <= i < |ds| && Matches(ds[i], term) && forall j :: 0 <= j < i ==> !Matches(ds[j], term)
  }

  ghost predicate NoMatch(ds: seq<WeatherData>, term: string) {
    forall j :: 0 <= j < |ds| ==> !Matches(ds[j], term)
  }

  /** The first index at or after `k` whose record matches `term`. */
  function FindFrom(ds: seq<WeatherData>, term: string, k: nat): (r: Option<nat>)
    requires k <= |ds|
    ensures r.Some? ==> k <= r.value < |ds| && Matches(ds[r.value], term)
    ensures r.Some? ==> forall j :: k <= j < r.value ==> !Matches(ds[j], term)
    ensures r.None? ==> forall j :: k <= j < |ds| ==> !Matches(ds[j], term)
    decreases |ds| - k
  {
    if k == |ds| then None
    else if Matches(ds[k], term) then Some(k)
    else FindFrom(ds, term, k + 1)
  }

  /** The first record of `ds` whose city equals `term` up to case, if any. */
  function Find(ds: seq<WeatherData>, term: string): (r: Option<WeatherData>)
    ensures r.Some? ==> exists i :: IsFirstMatch(ds, term, i) && ds[i] == r.value
    ensures r.None? <==> NoMatch(ds, term)
  {
    match FindFrom(ds, term, 0)
    case Some(i) => assert IsFirstMatch(ds, term, i); Some(ds[i])
    case None => None
  }

  /** The state on first render: empty term, the default city's record (or null), no toasts. */
  function Init(ds: seq<WeatherData>, defaultCity: string): (s: State)
    ensures s.searchTerm == "" && s.toasts == []
    ensures s.weatherData.Some? ==> exists i :: IsFirstMatch(ds, defaultCity, i) && ds[i] == s.weatherData.value
    ensures s.weatherData.None? <==> NoMatch(ds, defaultCity)
  {
    State("", Find(ds, defaultCity), [])
  }

  /** The input's `onChange`: only the search term changes. */
  function EditTerm(s: State, text: string): (r: State)
    ensures r.searchTerm == text
    ensures r.weatherData == s.weatherData && r.toasts == s.toasts
  {
    s.(searchTerm := text)
  }

  /** `handleSearch`: submitting the search form. */
  function Search(s: State, ds: seq<WeatherData>): (r: State)
    ensures r.searchTerm == s.searchTerm
    ensures s.searchTerm == "" ==> r == s
    ensures s.searchTerm != "" && !NoMatch(ds, s.searchTerm) ==>
      r.toasts == s.toasts
      && r.weatherData.Some?
      && exists i :: IsFirstMatch(ds, s.searchTerm, i) && ds[i] == r.weatherData.value
    ensures s.searchTerm != "" && NoMatch(ds, s.searchTerm) ==>
      r.weatherData == s.weatherData && r.toasts == s.toasts + [NotFound(s.searchTerm)]
    ensures r.weatherData == s.weatherData || (r.weatherData.Some? && r.weatherData.value in ds)
  {
    if s.searchTerm == "" then s
    else
      match Find(ds, s.searchTerm)
      case Some(found) => s.(weatherData := Some(found))
      case None => s.(toasts := s.toasts + [NotFound(s.searchTerm)])
  }

  /** In a dataset with distinct city names a matching record is the only match, so `find` returns it. */
  lemma MatchIsFound(ds: seq<WeatherData>, term: string, i: int)
    requires CitiesDistinct(ds)
    requires 0 <= i < |ds| && Matches(ds[i], term)
    ensures Find(ds, term) == Some(ds[i])
  {
  }

  /** A term equal to a city's name up to letter case displays that city's record and emits nothing. */
  lemma SearchCaseInsensitive(s: State, ds: seq<WeatherData>, i: int)
    requires CitiesDistinct(ds)
    requires 0 <= i < |ds|
    requires s.searchTerm != "" && EqualsIgnoreCase(s.searchTerm, ds[i].city)
    ensures Search(s, ds) == s.(weatherData := Some(ds[i]))
  {
    MatchIsFound(ds, s.searchTerm, i);
  }

  /** Repeating a search that hit changes nothing more. */
  lemma SearchHitIdempotent(s: State, ds: seq<WeatherData>)
    requires !NoMatch(ds, s.searchTerm)
    ensures Search(Search(s, ds), ds) == Search(s, ds)
  {
  }

  /** Each search that misses adds exactly one toast and keeps the display. */
  lemma SearchMissTwice(s: State, ds: seq<WeatherData>)
    requires s.searchTerm != "" && NoMatch(ds, s.searchTerm)
    ensures Search(Search(s, ds), ds).weatherData == s.weatherData
    ensures Search(Search(s, ds), ds).toasts == s.toasts + [NotFound(s.searchTerm), NotFound(s.searchTerm)]
  {
  }

  /** On the shipped dataset the page starts on Delhi. */
  lemma InitialShowsDefaultCity()
    ensures Init(IndianCitiesWeather, DefaultCity).weatherData == Some(IndianCitiesWeather[0])
  {
    DatasetCitiesDistinct();
    DefaultCityIsFirst();
    MatchIsFound(IndianCitiesWeather, DefaultCity, 0);
  }

  /** Every city of the shipped dataset is found by any spelling of its name up to case. */
  lemma SearchEveryDatasetCity(s: State, i: int)
    requires 0 <= i < |IndianCitiesWeather|
    requires s.searchTerm != "" && EqualsIgnoreCase(s.searchTerm, IndianCitiesWeather[i].city)
    ensures Search(s, IndianCitiesWeather).weatherData == Some(IndianCitiesWeather[i])
    ensures Search(s, IndianCitiesWeather).toasts == s.toasts
  {
    DatasetCitiesDistinct();
    SearchCaseInsensitive(s, IndianCitiesWeather, i);
  }

  /** No city of the shipped dataset is called "Atlantis", whatever the case. */
  lemma AtlantisAbsent()
    ensures NoMatch(IndianCitiesWeather, "Atlantis")
  {
    var ds := IndianCitiesWeather;
    forall j | 0 <= j < |ds|
      ensures !Matches(ds[j], "Atlantis")
    {
      DifferentUpToCase(ds[j].city, "Atlantis");
    }
  }

  /** Searching "Atlantis" from the initial state keeps Delhi on screen and emits one toast. */
  lemma SearchAtlantis()
    ensures var s := EditTerm(Init(IndianCitiesWeather, DefaultCity), "Atlantis");
            var r := Search(s, IndianCitiesWeather);
            r.weatherData == Some(IndianCitiesWeather[0]) && r.toasts == [NotFound("Atlantis")]
  {
    InitialShowsDefaultCity();
    AtlantisAbsent();
    var s := EditTerm(Init(IndianCitiesWeather, DefaultCity), "Atlantis");
    assert s.searchTerm == "Atlantis" && s.toasts == [];
  }

  /** Searching "mUMBAI" from the initial state switches to Mumbai. */
  lemma SearchMixedCase()
    ensures var s := EditTerm(Init(IndianCitiesWeather, DefaultCity), "mUMBAI");
            Search(s, IndianCitiesWeather).weatherData == Some(IndianCitiesWeather[1])
  {
    var s := EditTerm(Init(IndianCitiesWeather, DefaultCity), "mUMBAI");
    assert EqualsIgnoreCase(s.searchTerm, IndianCitiesWeather[1].city);
    SearchEveryDatasetCity(s, 1);
  }
}
