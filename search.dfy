/**
 * The page: the search box, the loading spinner, the error banner and the
 * weather display, and `handleSearch`, which takes the box's text through
 * geocoding, the two weather requests, processing and display.
 *
 * Network requests are not performed: the caller passes a `World` that says
 * what each request answers. `Page` is the visible state of the page; the
 * class `WeatherPage` holds it in fields that its methods update in place, and
 * each method is proved to leave the state a pure function of the old one.
 */
module Search {
  import opened Text
  import opened Glyphs
  import opened CurrentWeather
  import opened Forecast

  /** The key the app ships with; a search with it stops at a configuration error. */
  const PlaceholderKey := "YOUR_OPENWEATHERMAP_API_KEY"
  const CrossMark := "\U{274C}"
  const MissingKeyMessage := CrossMark + " Error: Please set your OpenWeatherMap API key in app.js"
  const LocationNotFound := "Location not found"
  const WeatherFailed := "Failed to fetch weather"
  const ForecastFailed := "Failed to fetch forecast"

  datatype Option<T> = None | Some(value: T)

  /** A settled promise: fulfilled with a value, or rejected with an error message. */
  datatype Result<T> = Ok(value: T) | Err(message: string)

  /** What `fetch` settles with: a response (its `ok` flag and its parsed JSON body), or
      a rejection, such as a network error, with its message. */
  datatype Response<T> = Reply(ok: bool, body: T) | Rejected(message: string)

  /** One entry of the geocoding answer. */
  datatype Place = Place(lat: real, lon: real, name: string, country: string)

  /** The answers the three endpoints give during one search, and the order the two
      weather requests settle in when both of them fail. */
  datatype World = World(
    geocode: string -> Response<seq<Place>>,
    current: (real, real) -> Response<RawCurrent>,
    forecast: (real, real) -> Response<RawForecast>,
    currentRejectsFirst: bool,
    dayOf: int -> DayKey)

  // ---------------------------------------------------------------------
  // The three requests, as interpretations of their responses
  // ---------------------------------------------------------------------

  /** `fetchCoordinates(location)`: the first place found, or "Location not found" for an
      error status or an empty answer; a rejection is passed on unchanged. */
  function FetchCoordinates(response: Response<seq<Place>>): (r: Result<Place>)
    ensures r.Ok? <==> response.Reply? && response.ok && |response.body| > 0
    ensures r.Ok? ==> r.value == response.body[0]
    ensures response.Reply? && r.Err? ==> r.message == LocationNotFound
    ensures response.Rejected? ==> r == Err(response.message)
  {
    match response
    case Rejected(message) => Err(message)
    case Reply(ok, places) =>
      if !ok then Err(LocationNotFound)
      else if |places| == 0 then Err(LocationNotFound)
      else Ok(places[0])
  }

  /** `fetchCurrentWeather(lat, lon)`: the payload, or "Failed to fetch weather" for an
      error status; a rejection is passed on unchanged. */
  function FetchCurrentWeather(response: Response<RawCurrent>): (r: Result<RawCurrent>)
    ensures r.Ok? <==> response.Reply? && response.ok
    ensures r.Ok? ==> r.value == response.body
    ensures response.Reply? && r.Err? ==> r.message == WeatherFailed
    ensures response.Rejected? ==> r == Err(response.message)
  {
    match response
    case Rejected(message) => Err(message)
    case Reply(ok, data) => if !ok then Err(WeatherFailed) else Ok(data)
  }

  /** `fetchForecast(lat, lon)`: the payload, or "Failed to fetch forecast" for an error
      status; a rejection is passed on unchanged. */
  function FetchForecast(response: Response<RawForecast>): (r: Result<RawForecast>)
    ensures r.Ok? <==> response.Reply? && response.ok
    ensures r.Ok? ==> r.value == response.body
    ensures response.Reply? && r.Err? ==> r.message == ForecastFailed
    ensures response.Rejected? ==> r == Err(response.message)
  {
    match response
    case Rejected(message) => Err(message)
    case Reply(ok, data) => if !ok then Err(ForecastFailed) else Ok(data)
  }

  /** `Promise.all([a, b])`: both values when both are fulfilled, otherwise the rejection
      that settles first (`aFirst` says which one that is when both reject). */
  function All<A, B>(a: Result<A>, b: Result<B>, aFirst: bool): (r: Result<(A, B)>)
    ensures r.Ok? <==> a.Ok? && b.Ok?
    ensures r.Ok? ==> r.value == (a.value, b.value)
    ensures a.Err? && (b.Ok? || aFirst) ==> r == Err(a.message)
    ensures b.Err? && (a.Ok? || !aFirst) ==> r == Err(b.message)
  {
    if a.Err? && (b.Ok? || aFirst) then Err(a.message)
    else if b.Err? then Err(b.message)
    else Ok((a.value, b.value))
  }

  /** The awaited part of `handleSearch`: the coordinates, then both weather payloads. */
  function Fetch(location: string, w: World): Result<(RawCurrent, RawForecast)>
  {
    match FetchCoordinates(w.geocode(location))
    case Err(message) => Err(message)
    case Ok(c) =>
      All(FetchCurrentWeather(w.current(c.lat, c.lon)), FetchForecast(w.forecast(c.lat, c.lon)),
          w.currentRejectsFirst)
  }

  /** A search succeeds exactly when geocoding finds a place and both weather requests
      answer with an ok status; an error message is the one of a failing request. */
  lemma FetchOutcome(location: string, w: World)
    ensures var coords := FetchCoordinates(w.geocode(location));
      && (Fetch(location, w).Ok? <==>
            coords.Ok? && FetchCurrentWeather(w.current(coords.value.lat, coords.value.lon)).Ok?
                       && FetchForecast(w.forecast(coords.value.lat, coords.value.lon)).Ok?)
      && (coords.Err? ==> Fetch(location, w) == Err(coords.message))
    ensures Fetch(location, w).Err? ==>
      var m := Fetch(location, w).message;
      var coords := FetchCoordinates(w.geocode(location));
      || m == LocationNotFound || m == WeatherFailed || m == ForecastFailed
      || (w.geocode(location).Rejected? && m == w.geocode(location).message)
      || (coords.Ok? && w.current(coords.value.lat, coords.value.lon).Rejected?
            && m == w.current(coords.value.lat, coords.value.lon).message)
      || (coords.Ok? && w.forecast(coords.value.lat, coords.value.lon).Rejected?
            && m == w.forecast(coords.value.lat, coords.value.lon).message)
  {
  }

  /** When geocoding fails the weather endpoints do not matter: no weather request is made. */
  lemma GeocodeFailureStops(location: string, w: World, w': World)
    requires w'.geocode == w.geocode
    requires FetchCoordinates(w.geocode(location)).Err?
    ensures Fetch(location, w') == Fetch(location, w)
  {
  }

  // ---------------------------------------------------------------------
  // What the page shows
  // ---------------------------------------------------------------------

  /** The main weather region: the processed conditions and their glyph. */
  datatype Panel = Panel(conditions: Conditions, glyph: string)

  /** One forecast item of `displayForecast`: the date (in milliseconds), the glyph, the
      high and low, the description. */
  datatype Card = Card(date: int, glyph: string, high: int, low: int, description: string)

  /** The visible state: the search box's text, which of the three regions are not
      `hidden`, the error text, the main region and the forecast items. */
  datatype Page = Page(
    input: string, loadingShown: bool, errorShown: bool, displayShown: bool,
    errorText: string, panel: Option<Panel>, cards: seq<Card>)

  function CardOf(day: DaySummary): Card
  {
    Card(day.date, WeatherEmoji(day.icon), day.high, day.low, day.description)
  }

  /** The forecast items for a forecast, appended one by one. */
  function Cards(forecast: seq<DaySummary>): (cards: seq<Card>)
    ensures |cards| == |forecast|
  {
    if forecast == [] then []
    else Cards(forecast[..|forecast| - 1]) + [CardOf(forecast[|forecast| - 1])]
  }

  /** There is one item per day, in the forecast's order, showing that day. */
  lemma {:induction false} CardsMatch(forecast: seq<DaySummary>)
    ensures |Cards(forecast)| == |forecast|
    ensures forall i :: 0 <= i < |forecast| ==> Cards(forecast)[i] == CardOf(forecast[i])
  {
    if forecast != [] {
      var n := |forecast| - 1;
      CardsMatch(forecast[..n]);
      assert forall i :: 0 <= i < n ==> forecast[..n][i] == forecast[i];
    }
  }

  /** The page while the requests are awaited: spinner shown, error hidden, and the
      previous display, if any, left as it was. */
  function Pending(p: Page): Page
  {
    p.(loadingShown := true, errorShown := false)
  }

  /** The `catch` block: spinner and display hidden, the error shown with the message. */
  function Failed(p: Page, message: string): Page
  {
    p.(loadingShown := false, displayShown := false, errorShown := true,
       errorText := CrossMark + " " + message)
  }

  /** `displayWeather(weatherData, forecastData)`, followed by clearing the search box. */
  function Shown(p: Page, weather: Conditions, forecast: seq<DaySummary>): Page
  {
    p.(panel := Some(Panel(weather, WeatherEmoji(weather.icon))), cards := Cards(forecast),
       errorShown := false, loadingShown := false, displayShown := true, input := "")
  }

  /** The page once the awaited requests have settled with `fetched`. */
  function Settled(p: Page, fetched: Result<(RawCurrent, RawForecast)>, dayOf: int -> DayKey): Page
  {
    match fetched
    case Err(message) => Failed(p, message)
    case Ok((current, forecast)) => Shown(p, ProcessCurrentWeather(current), ForecastOf(forecast.list, dayOf))
  }

  /** The page after `handleSearch` has run to completion. */
  function AfterSearch(p: Page, apiKey: string, w: World): Page
  {
    var location := Trim(p.input);
    if location == "" then p
    else if apiKey == PlaceholderKey then p.(errorText := MissingKeyMessage, errorShown := true)
    else Settled(Pending(p), Fetch(location, w), w.dayOf)
  }

  // ---------------------------------------------------------------------
  // Properties of a search
  // ---------------------------------------------------------------------

  /** A blank search box (empty, or whitespace only) makes the search do nothing. */
  lemma BlankSearchIgnored(p: Page, apiKey: string, w: World)
    requires forall i :: 0 <= i < |p.input| ==> IsJsWhitespace(p.input[i])
    ensures AfterSearch(p, apiKey, w) == p
  {
    TrimEmptyIffBlank(p.input);
  }

  /** With text in the box, the search is not ignored. */
  lemma NonBlankSearchActs(p: Page, apiKey: string, w: World)
    requires exists i :: 0 <= i < |p.input| && !IsJsWhitespace(p.input[i])
    ensures AfterSearch(p, apiKey, w).errorShown || AfterSearch(p, apiKey, w).displayShown
  {
    TrimEmptyIffBlank(p.input);
    var location := Trim(p.input);
    assert location != "";
    if apiKey != PlaceholderKey {
      match Fetch(location, w)
      case Err(message) =>
        assert AfterSearch(p, apiKey, w) == Failed(Pending(p), message);
      case Ok((current, forecast)) =>
        assert AfterSearch(p, apiKey, w).displayShown;
    }
  }

  /** With the placeholder key the configuration error is shown, nothing else changes, and
      no request is made: the outcome does not depend on the endpoints. */
  lemma MissingKeyStops(p: Page, w: World, w': World)
    requires Trim(p.input) != ""
    ensures AfterSearch(p, PlaceholderKey, w) == p.(errorText := MissingKeyMessage, errorShown := true)
    ensures AfterSearch(p, PlaceholderKey, w') == AfterSearch(p, PlaceholderKey, w)
  {
  }

  /** A failing request hides the spinner and the display, shows the error prefixed with
      the cross mark, and keeps the search box's text and the previous results. */
  lemma FailedSearch(p: Page, apiKey: string, w: World)
    requires Trim(p.input) != "" && apiKey != PlaceholderKey
    requires Fetch(Trim(p.input), w).Err?
    ensures var q := AfterSearch(p, apiKey, w);
      && !q.loadingShown && !q.displayShown && q.errorShown
      && q.errorText == CrossMark + " " + Fetch(Trim(p.input), w).message
      && q.input == p.input && q.panel == p.panel && q.cards == p.cards
  {
  }

  /** A successful search hides the error and the spinner, shows the display with the
      processed conditions and at most five forecast items, one per distinct day, each
      with its low at most its high, and clears the search box. */
  lemma SuccessfulSearch(p: Page, apiKey: string, w: World)
    requires Trim(p.input) != "" && apiKey != PlaceholderKey
    requires Fetch(Trim(p.input), w).Ok?
    ensures var q := AfterSearch(p, apiKey, w);
      var (current, forecast) := Fetch(Trim(p.input), w).value;
      var days := ForecastOf(forecast.list, w.dayOf);
      && !q.errorShown && !q.loadingShown && q.displayShown && q.input == ""
      && q.panel == Some(Panel(ProcessCurrentWeather(current), WeatherEmoji(ProcessCurrentWeather(current).icon)))
      && |q.cards| == |days| <= MaxDays
      && (forall i :: 0 <= i < |q.cards| ==> q.cards[i] == CardOf(days[i]) && q.cards[i].low <= q.cards[i].high)
      && (forall i, j :: 0 <= i < j < |q.cards| ==> w.dayOf(q.cards[i].date) != w.dayOf(q.cards[j].date))
  {
    var (current, forecast) := Fetch(Trim(p.input), w).value;
    var days := ForecastOf(forecast.list, w.dayOf);
    CardsMatch(days);
    ForecastLength(forecast.list, w.dayOf);
    DistinctDays(forecast.list, w.dayOf);
    forall i | 0 <= i < |days| ensures days[i].low <= days[i].high {
      HighLowOfDay(forecast.list, w.dayOf, i);
    }
  }

  /** While the requests are awaited the spinner is shown and the error hidden, but a
      display from an earlier search stays visible. */
  lemma PendingKeepsDisplay(p: Page)
    ensures Pending(p).loadingShown && !Pending(p).errorShown
    ensures Pending(p).displayShown == p.displayShown
    ensures Pending(p).input == p.input && Pending(p).panel == p.panel
  {
  }

  // ---------------------------------------------------------------------
  // The page object
  // ---------------------------------------------------------------------

  class WeatherPage {
    const apiKey: string
    var input: string
    var loadingShown: bool
    var errorShown: bool
    var displayShown: bool
    var errorText: string
    var panel: Option<Panel>
    var cards: seq<Card>

    function State(): Page
      reads this
    {
      Page(input, loadingShown, errorShown, displayShown, errorText, panel, cards)
    }

    /** A page in the given state, configured with the given key. */
    constructor (apiKey: string, initial: Page)
      ensures this.apiKey == apiKey && State() == initial
    {
      this.apiKey := apiKey;
      input := initial.input;
      loadingShown := initial.loadingShown;
      errorShown := initial.errorShown;
      displayShown := initial.displayShown;
      errorText := initial.errorText;
      panel := initial.panel;
      cards := initial.cards;
    }

    method ShowError(message: string)
      modifies this
      ensures State() == old(State()).(errorText := message, errorShown := true)
    {
      errorText := message;
      errorShown := true;
    }

    method HideError()
      modifies this
      ensures State() == old(State()).(errorShown := false)
    {
      errorShown := false;
    }

    method ShowLoading()
      modifies this
      ensures State() == old(State()).(loadingShown := true)
    {
      loadingShown := true;
    }

    method HideLoading()
      modifies this
      ensures State() == old(State()).(loadingShown := false)
    {
      loadingShown := false;
    }

    method ShowWeatherDisplay()
      modifies this
      ensures State() == old(State()).(displayShown := true)
    {
      displayShown := true;
    }

    method HideWeatherDisplay()
      modifies this
      ensures State() == old(State()).(displayShown := false)
    {
      displayShown := false;
    }

    /** The page-load handler: spinner and display hidden. */
    method Loaded()
      modifies this
      ensures State() == old(State()).(loadingShown := false, displayShown := false)
    {
      HideLoading();
      HideWeatherDisplay();
    }

    /** `displayForecast(forecastData)`: empties the container, then appends one item per day. */
    method DisplayForecast(forecastData: seq<DaySummary>)
      modifies this
      ensures State() == old(State()).(cards := Cards(forecastData))
    {
      cards := [];
      var i := 0;
      while i < |forecastData|
        invariant 0 <= i <= |forecastData|
        invariant State() == old(State()).(cards := Cards(forecastData[..i]))
      {
        var day := forecastData[i];
        cards := cards + [CardOf(day)];
        assert forecastData[..i + 1][..i] == forecastData[..i];
        i := i + 1;
      }
      assert forecastData[..i] == forecastData;
    }

    /** `displayWeather(weatherData, forecastData)`. */
    method DisplayWeather(weatherData: Conditions, forecastData: seq<DaySummary>)
      modifies this
      ensures State() == old(State()).(panel := Some(Panel(weatherData, WeatherEmoji(weatherData.icon))),
                                       cards := Cards(forecastData), errorShown := false,
                                       loadingShown := false, displayShown := true)
    {
      panel := Some(Panel(weatherData, WeatherEmoji(weatherData.icon)));
      DisplayForecast(forecastData);
      HideError();
      HideLoading();
      ShowWeatherDisplay();
    }

    /** The `catch` block of `handleSearch`. */
    method SearchFailed(message: string)
      modifies this
      ensures State() == Failed(old(State()), message)
    {
      HideLoading();
      HideWeatherDisplay();
      ShowError(CrossMark + " " + message);
    }

    /** `handleSearch`, run to completion against the answers `w` gives. */
    method HandleSearch(w: World)
      modifies this
      ensures State() == AfterSearch(old(State()), apiKey, w)
    {
      var location := Trim(input);
      if location == "" {
        return;
      }
      if apiKey == PlaceholderKey {
        ShowError(MissingKeyMessage);
        return;
      }
      ShowLoading();
      HideError();
      var coords := FetchCoordinates(w.geocode(location));
      if coords.Err? {
        SearchFailed(coords.message);
        return;
      }
      var lat, lon := coords.value.lat, coords.value.lon;
      var both := All(FetchCurrentWeather(w.current(lat, lon)), FetchForecast(w.forecast(lat, lon)),
                      w.currentRejectsFirst);
      if both.Err? {
        SearchFailed(both.message);
        return;
      }
      var (currentWeatherData, forecastData) := both.value;
      ShowResults(currentWeatherData, forecastData, w.dayOf);
    }

    /** The end of the `try` block of `handleSearch`: process both payloads, display them
        and clear the search box. */
    method ShowResults(currentWeatherData: RawCurrent, forecastData: RawForecast, dayOf: int -> DayKey)
      modifies this
      ensures State() == Settled(old(State()), Ok((currentWeatherData, forecastData)), dayOf)
    {
      var weatherData := ProcessCurrentWeather(currentWeatherData);
      var forecast := ProcessForecast(forecastData, dayOf);
      DisplayWeather(weatherData, forecast);
      input := "";
    }
  }
}
