# Weather dashboard — a Dafny model

This project models the logic of a single-page weather app, `app.js`. The user types a place into a search box. The app does three things:

1. It geocodes the place and fetches the current conditions and a 3-hourly, five-day forecast.
2. It reduces the current payload to a display record and the forecast samples to one summary per calendar day (at most five).
3. It shows the results, with one glyph per weather category, or shows an error banner.

Modules:

- `JsMath`: JavaScript's `Math.round`, plus `Math.max` / `Math.min` over a non-empty list, on exact reals.
- `Text`: `String.prototype.trim`, using ECMAScript's whitespace set, and `toLowerCase` for ASCII.
- `Glyphs`:
  - `getWeatherEmoji`, as a case analysis;
  - its copy `getWeatherIcon`, as the table itself;
  - a proof that the two agree on every input.
- `CurrentWeather`: `processCurrentWeather`, which rounds the temperatures, converts m/s to km/h and metres to km, and builds a "name, country" label.
- `Forecast`: `processForecast`.
  - Its specification is declarative:
    - `Days` gives the distinct day keys in first-seen order;
    - `SamplesOn` gives a day's samples, in input order;
    - `FirstIndex` gives a day's first sample;
    - `GroupOf` gives a day's group.
  - The app's `forEach` over the `dailyForecasts` dictionary is the method `FillDailyForecasts`. It is proved to build `Dictionary`, the dictionary after each sample in turn, and `Dictionary` is proved to hold exactly the groups of `GroupOf`.
  - `Object.values` is modelled as reading the keys in insertion order (`toDateString` keys are never integer-like); that insertion order is proved to be first-seen order.
  - The `slice(0, 5).map(...)` reduction is the function `Summaries`.
- `Search`: the page.
  - The three fetch functions are modelled as interpretations of their responses, and `Promise.all` as `All`.
  - `handleSearch` and the show/hide helpers are methods of the class `WeatherPage`. Its fields are the search box's text, the three visibility flags, the error text and the displayed data.
  - Each method is proved to leave the page in a state given by a pure function of the old state. `AfterSearch` is that function for a whole search.

The day of a forecast sample is `new Date(dt * 1000).toDateString()`, which depends on the local time zone. The model takes it as a parameter, `dayOf`: a function from a millisecond timestamp to a day key. The network is a parameter as well: a `World` gives each endpoint's answer for one search.

For 8500 m of visibility, the code shows 9 km, because `Math.round(8.5)` is 9. The model follows the code (`CurrentWeather.ParisExample`).

## Model

| member | source | states |
|---|---|---|
| JsMath.Round | app.js:105-106 | `Math.round` returns the integer within half a unit of x, with halves rounded up |
| JsMath.RoundHalves | app.js:105 | halves go towards +infinity, also for negative values: 2.5 → 3, -2.5 → -2, -2.6 → -3 |
| JsMath.RoundMonotone | app.js:151-152 | rounding keeps order, so a rounded minimum never exceeds a rounded maximum |
| JsMath.RoundOfInt | app.js:105 | rounding an integral value gives that value back |
| JsMath.SeqMax | app.js:151 | `Math.max(...temps)` is one of the temperatures and bounds all of them from above |
| JsMath.SeqMin | app.js:152 | `Math.min(...temps)` is one of the temperatures and bounds all of them from below |
| JsMath.MinAtMostMax | app.js:151-152 | min ≤ max, and both equal the single element of a one-element list |
| Text.TrimStart | app.js:349 | trimming the front drops only whitespace and stops at the first non-blank |
| Text.TrimEnd | app.js:349 | trimming the back drops only whitespace and stops at the last non-blank |
| Text.Trim | app.js:349 | `s.trim()`, the end trimmed after the front: never longer than `s`, and the result neither starts nor ends with whitespace; TrimEmptyIffBlank and TrimKeepsTidy state when it is empty and when it changes nothing |
| Text.TrimEmptyIffBlank | app.js:349-350 | the trimmed box is empty exactly when every character in it is whitespace |
| Text.TrimKeepsTidy | app.js:349 | text with no blank at either end trims to itself |
| Text.ToLower | app.js:108 | lower-casing keeps the length, turns each upper-case ASCII letter into its lower-case counterpart, leaves no upper-case ASCII letter and keeps every other character |
| Text.ToLowerIdempotent | app.js:139 | lower-casing an icon key again changes nothing |
| Glyphs.WeatherEmoji | app.js:201-221 | a non-empty glyph for every input; the fallback glyph exactly for strings outside the 15 categories |
| Glyphs.WeatherIcon | app.js:170-196 | the table entry for each of the 15 categories and the fallback for any other string |
| Glyphs.IconAgreesWithEmoji | app.js:173-191 | the two copies of the table give the same glyph for every input |
| Glyphs.GlyphExamples | app.js:202-220 | examples: clear → sun; haze and fog share the fog glyph; the lookup is case-sensitive |
| CurrentWeather.KmPerHour | app.js:110 | the wind speed in km/h is within half a unit of speed × 3.6 |
| CurrentWeather.Kilometres | app.js:112 | `Math.round(v / 1000)` equals the integer formula (v + 500) / 1000 for every v |
| CurrentWeather.ProcessCurrentWeather | app.js:102-119 | the label is name + ", " + country; temperatures and wind are within half a unit of the raw values; description, humidity and pressure pass through; icon is the lower-cased `main`; the timestamp is dt × 1000 |
| CurrentWeather.ParisExample | app.js:104-114 | example: 21.6 °C → 22, 5.2 m/s → 19 km/h, 8500 m → 9 km, label "Paris, FR" |
| Forecast.Days | app.js:130-146 | there are no more day keys than samples |
| Forecast.DaysDistinct | app.js:134 | no day key is listed twice |
| Forecast.DaysMembers | app.js:130-135 | a key is listed exactly when some sample has that day |
| Forecast.FirstIndex | app.js:134-141 | a listed day has a first sample: one of that day, with no earlier sample of that day |
| Forecast.SamplesOnMembers | app.js:144-145 | a day's samples are exactly the input samples of that day |
| Forecast.SamplesOnFirst | app.js:134-141 | an occurring day has samples, and the first of them is the day's first sample |
| Forecast.GroupsNonEmpty | app.js:144-145 | every group has at least one temperature and one description |
| Forecast.Grouped | app.js:149 | `Object.values(dailyForecasts)`: one group per distinct day, the group of the i-th day first seen at index i |
| Forecast.Summarize | app.js:149-155 | low ≤ high; date, icon and first description come from the group |
| Forecast.Summaries | app.js:149 | `slice(0, 5)` keeps min(5, number of groups) groups |
| Forecast.ForecastOf | app.js:126-159 | the value `processForecast` returns: the first five groups summarised; ForecastLength, ForecastEntry, DistinctDays and HighLowOfDay state what it holds |
| Forecast.GroupOfLast | app.js:134-145 | after one more sample, a day's group is the previous group, or a new group for a new day, with the sample's temperature and condition appended exactly when the sample is of that day |
| Forecast.Created | app.js:134-141 | the object literal stored for a new day: the sample's date and lower-cased `main`, with no temperatures or texts yet |
| Forecast.Pushed | app.js:143-144 | the two `push` calls: the sample's temperature and its `main` text appended, nothing else of the group changed |
| Forecast.GroupStep | app.js:130-146 | one turn of the `forEach` turns a dictionary holding the groups of the earlier samples into one holding the groups of one more sample |
| Forecast.Dictionary | app.js:130-146 | `dailyForecasts` after each turn of the `forEach`: every entry has had at least one push and holds as many temperatures as texts; DictionaryHoldsGroups states its keys and values |
| Forecast.DictionaryHoldsGroups | app.js:127-146 | the dictionary has an entry for exactly the days that occur, and each entry is that day's group |
| Forecast.DictionaryKey | app.js:134 | a day has a dictionary entry exactly when it occurs among the samples seen so far |
| Forecast.ValuesInOrder | app.js:149 | reading the dictionary in key insertion order gives the groups in first-seen order |
| Forecast.FillDailyForecasts | app.js:127-146 | the loop leaves the dictionary of all samples, and its keys in insertion order |
| Forecast.GroupByDay | app.js:127-149 | `Object.values(dailyForecasts)` is the list of groups in first-seen order |
| Forecast.ProcessForecast | app.js:126-159 | the result is the specified forecast: at most five summaries, of pairwise distinct days |
| Forecast.ForecastLength | app.js:130-149 | min(5, distinct days) summaries; no samples give no summaries |
| Forecast.ForecastEntry | app.js:134-154 | summary i is of the i-th day first seen. Its date is that day's first sample's timestamp, its icon that sample's lower-cased condition and its description that sample's condition. Its high and low are the rounded max and min of the day's temperatures |
| Forecast.DistinctDays | app.js:131-149 | the summaries are of pairwise distinct days |
| Forecast.DaysInFirstSeenOrder | app.js:134-149 | the days are ordered by the positions of their first samples |
| Forecast.FirstDayFirst | app.js:130-149 | the first summary is of the first sample's day |
| Forecast.HighLowOfDay | app.js:151-152 | high and low are each the rounded temperature of one of the day's samples and bound the rounded temperature of every sample of that day; low ≤ high; a single-sample day has high = low |
| Forecast.SampleOfDayTemp | app.js:144 | each temperature of a day comes from a sample of that day |
| Forecast.DayTempOfSample | app.js:144 | each sample's temperature is among its day's temperatures |
| Forecast.PrefixKeepsDays | app.js:134-141 | more samples keep the days already seen in their positions, and keep their first samples |
| Forecast.FirstSampleWins | app.js:134-154 | later samples change neither the date, nor the icon, nor the description of a day already summarised |
| Forecast.AllTempsOfGroups | app.js:144 | the groups' temperatures laid end to end are the days' temperatures laid end to end |
| Forecast.ConcatOverBump | app.js:144 | appending one temperature to one day adds it once to the days laid end to end |
| Forecast.TempsOnLast | app.js:144 | the last sample's temperature is appended to its own day only |
| Forecast.ConcatOverPrevLast | app.js:144 | over the days seen before, the last sample adds its temperature once if its day is among them, and not at all otherwise |
| Forecast.ConcatOverNewDayLast | app.js:134-144 | a last sample of a new day adds that day, holding only its temperature |
| Forecast.ConcatOverDaysLast | app.js:144 | each sample adds its temperature exactly once to the grouped temperatures |
| Forecast.PartitionOnDays | app.js:130-146 | the days' temperatures together are the input's temperatures, as a multiset |
| Forecast.GroupsPartitionTemps | app.js:130-146 | every input temperature lands in exactly one group |
| Forecast.TwoDayExample | app.js:126-159 | example: two days of samples give two summaries with the right extremes, icons and descriptions, in first-seen order |
| Search.FetchCoordinates | app.js:25-46 | the first place found; "Location not found" for a failed status or an empty answer; a rejection's message is passed on |
| Search.FetchCurrentWeather | app.js:54-68 | the payload; "Failed to fetch weather" for a failed status; a rejection's message is passed on |
| Search.FetchForecast | app.js:76-90 | the payload; "Failed to fetch forecast" for a failed status; a rejection's message is passed on |
| Search.All | app.js:367-370 | both values when both requests succeed, otherwise the rejection that settles first |
| Search.Fetch | app.js:364-370 | the two awaits: geocoding first, and the weather requests only with its coordinates; FetchOutcome and GeocodeFailureStops state its outcome |
| Search.FetchOutcome | app.js:364-370 | the requests succeed exactly when geocoding finds a place and both weather requests succeed; every error message is one of the app's three messages or a rejection's message |
| Search.GeocodeFailureStops | app.js:364 | when geocoding fails, the weather endpoints do not affect the outcome |
| Search.CardOf | app.js:272-287 | the forecast item of one summary: its date, `getWeatherEmoji(day.icon)`, high, low and description |
| Search.Cards | app.js:268-288 | the items `displayForecast` appends, one per summary: as many items as summaries |
| Search.CardsMatch | app.js:268-288 | one forecast item per summary, in order, showing that summary with its glyph |
| Search.Pending | app.js:360-361 | `showLoading()` then `hideError()`: spinner shown, banner hidden, everything else (an earlier display included) kept |
| Search.Failed | app.js:382-385 | the `catch` block: spinner and display hidden, banner shown with "❌ " + message |
| Search.Shown | app.js:373-380 | `displayWeather` then clearing the box: panel and cards set, banner and spinner hidden, display shown, box empty |
| Search.Settled | app.js:364-386 | the page once the awaits settle: Failed with the error message, or Shown with the processed current weather and forecast |
| Search.AfterSearch | app.js:346-388 | the page after a search: unchanged for a blank box, the configuration error for the placeholder key, otherwise Settled(Pending(p), Fetch(...)); BlankSearchIgnored, MissingKeyStops, FailedSearch and SuccessfulSearch state its cases |
| Search.BlankSearchIgnored | app.js:349-350 | an empty or whitespace-only box changes nothing on the page |
| Search.NonBlankSearchActs | app.js:349-387 | a search with text always ends with the error banner or the display shown |
| Search.MissingKeyStops | app.js:353-357 | with the placeholder key, the configuration error is shown, nothing else changes, and the endpoints do not affect the outcome |
| Search.FailedSearch | app.js:382-385 | a failed search hides the spinner and the display, shows "❌ " + message, and keeps the box's text and the earlier results |
| Search.SuccessfulSearch | app.js:259-261 | a successful search hides the error and the spinner, shows the display with the processed data, clears the box, and shows at most five forecast items of distinct days, each with low ≤ high |
| Search.PendingKeepsDisplay | app.js:359-361 | while the requests are awaited, the spinner is shown and the error hidden, but an earlier display stays visible |
| Search.WeatherPage.constructor | app.js:1-11 | the page starts in a given state with a given key |
| Search.WeatherPage.ShowError | app.js:298-301 | sets the error text and shows the banner; nothing else changes |
| Search.WeatherPage.HideError | app.js:306-308 | hides the banner; nothing else changes |
| Search.WeatherPage.ShowLoading | app.js:313-315 | shows the spinner; nothing else changes |
| Search.WeatherPage.HideLoading | app.js:320-322 | hides the spinner; nothing else changes |
| Search.WeatherPage.ShowWeatherDisplay | app.js:327-329 | shows the display; nothing else changes |
| Search.WeatherPage.HideWeatherDisplay | app.js:334-336 | hides the display; nothing else changes |
| Search.WeatherPage.Loaded | app.js:394-399 | page load hides the spinner and the display |
| Search.WeatherPage.DisplayForecast | app.js:268-288 | replaces the forecast items with one item per summary |
| Search.WeatherPage.DisplayWeather | app.js:232-262 | shows the conditions with their glyph and the forecast items, hides error and spinner, and shows the display |
| Search.WeatherPage.SearchFailed | app.js:382-385 | the `catch` block: spinner and display hidden, error shown with "❌ " + message |
| Search.WeatherPage.ShowResults | app.js:373-380 | processes both payloads, displays them and clears the box |
| Search.WeatherPage.HandleSearch | app.js:346-388 | the page after a search is `AfterSearch` of the page before |

## Left out

- HTTP requests:
  - URL building, `encodeURIComponent` and JSON parsing are not modelled. A `World` gives each endpoint's parsed answer or its rejection.
  - A body that does not parse, and a payload missing fields (for example an empty `weather` list, whose `TypeError` the `catch` block would show), are not modelled.
- Concurrency:
  - `Promise.all` is modelled by its outcome only. When both weather requests reject, the flag `currentRejectsFirst` stands for the unknown settling order.
  - Two searches that overlap in time are not modelled. A search is modelled from start to finish, with `Pending` as the state while it waits.
  - The app sets no time-out. A request that never settles leaves the page in `Pending` for good, with the spinner shown; a `World` always answers, so the model cannot express this.
- Time and locale:
  - `Date`, `toDateString`, `toLocaleDateString` and the time zone are not modelled. The day key is the parameter `dayOf`.
  - Timestamps stay in milliseconds, including the dates on the forecast items.
- DOM text:
  - the formatted strings of `displayWeather` and `displayForecast` (units, `°`, the locale date);
  - the `uvIndex: 'N/A'` field;
  - the per-group `humidity`, which is never read;
  - `event.preventDefault()` and the console output.
- The page's initial visibility comes from its HTML, which is not part of this model; the constructor takes the initial state as a parameter.
- Numbers: temperatures and speeds are exact reals. IEEE rounding of `× 3.6`, `/ 1000` and `Math.max`/`Math.min` is not modelled.
- Text.ToLower: ASCII letters only. JavaScript's full Unicode case mapping is not modelled.
- Glyphs.WeatherEmoji: keys inherited from `Object.prototype` (such as "constructor") are not modelled. In the app they find a function rather than the fallback glyph.
- Glyphs.WeatherIcon: the `async` wrapper and its unreachable `catch` are not modelled; the model gives the value the promise resolves to. Keys inherited from `Object.prototype` (such as "constructor") are not modelled either: in the app `iconMap["constructor"]` is truthy and is returned instead of the fallback glyph.
- The API key: app.js:2 hard-codes the placeholder `'YOUR_OPENWEATHERMAP_API_KEY'`, so as written every non-blank search stops at the configuration error. The model takes the key as a parameter of `Search.WeatherPage` so that the paths after the key check can be stated.
- CurrentWeather.ProcessCurrentWeather: the unused `coords` parameter is dropped.
