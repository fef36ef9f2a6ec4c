/**
 * `processForecast`: forecast samples grouped by calendar day (in the order
 * each day is first seen), cut to five days and reduced to a high, a low, an
 * icon key and a description per day.
 *
 * The calendar day of a sample is `new Date(item.dt * 1000).toDateString()`;
 * the model takes the millisecond timestamp -> day-key function as the
 * parameter `dayOf`.
 *
 * The specification is declarative: `Days` is the list of distinct day keys
 * in order of first occurrence, `SamplesOn` the samples of one day in input
 * order and `FirstIndex` the position of a day's first sample. `GroupByDay`
 * is the app's loop over a dictionary and is proved to build exactly those
 * groups.
 */
module Forecast {
  import opened JsMath
  import opened Text

  type DayKey = string

  /** The number of day summaries the app keeps. */
  const MaxDays := 5

  /** One entry of the forecast payload's `list`: `dt` in seconds, its
      `main.temp`, and the `main` text of its first `weather` entry. */
  datatype Sample = Sample(dt: int, temp: real, main: string)
  datatype RawForecast = RawForecast(list: seq<Sample>)

  /** One entry of the `dailyForecasts` dictionary. */
  datatype DayGroup = DayGroup(date: int, temps: seq<real>, descriptions: seq<string>, icon: string)

  /** One element of the array `processForecast` returns; `date` in milliseconds. */
  datatype DaySummary = DaySummary(date: int, high: int, low: int, icon: string, description: string)

  /** The millisecond timestamp of `new Date(item.dt * 1000)`. */
  function DateOf(s: Sample): int
  {
    s.dt * 1000
  }

  function KeyOf(s: Sample, dayOf: int -> DayKey): DayKey
  {
    dayOf(DateOf(s))
  }

  // ---------------------------------------------------------------------
  // Specification of the grouping
  // ---------------------------------------------------------------------

  /** The distinct day keys of `samples`, each once, in order of first occurrence. */
  function Days(samples: seq<Sample>, dayOf: int -> DayKey): (days: seq<DayKey>)
    ensures |days| <= |samples|
  {
    if samples == [] then []
    else
      var prev := Days(samples[..|samples| - 1], dayOf);
      var k := KeyOf(samples[|samples| - 1], dayOf);
      if k in prev then prev else prev + [k]
  }

  predicate Distinct(ks: seq<DayKey>)
  {
    forall i, j :: 0 <= i < j < |ks| ==> ks[i] != ks[j]
  }

  /** No day is listed twice. */
  lemma {:induction false} DaysDistinct(samples: seq<Sample>, dayOf: int -> DayKey)
    ensures Distinct(Days(samples, dayOf))
  {
    if samples != [] {
      DaysDistinct(samples[..|samples| - 1], dayOf);
    }
  }

  /** `Days` holds the day of every sample and nothing else. */
  lemma {:induction false} DaysMembers(samples: seq<Sample>, dayOf: int -> DayKey)
    ensures forall k :: k in Days(samples, dayOf) <==>
      exists i :: 0 <= i < |samples| && KeyOf(samples[i], dayOf) == k
  {
    if samples != [] {
      var n := |samples| - 1;
      var prefix := samples[..n];
      DaysMembers(prefix, dayOf);
      assert forall i :: 0 <= i < n ==> prefix[i] == samples[i];
      forall k | k in Days(samples, dayOf)
        ensures exists i :: 0 <= i < |samples| && KeyOf(samples[i], dayOf) == k
      {
        if k !in Days(prefix, dayOf) {
          assert KeyOf(samples[n], dayOf) == k;
        } else {
          var i :| 0 <= i < n && KeyOf(prefix[i], dayOf) == k;
          assert KeyOf(samples[i], dayOf) == k;
        }
      }
      forall k | exists i :: 0 <= i < |samples| && KeyOf(samples[i], dayOf) == k
        ensures k in Days(samples, dayOf)
      {
        var i :| 0 <= i < |samples| && KeyOf(samples[i], dayOf) == k;
        if i < n {
          assert KeyOf(prefix[i], dayOf) == k;
        }
      }
    }
  }

  /** The samples whose day is `k`, in input order. */
  function SamplesOn(samples: seq<Sample>, dayOf: int -> DayKey, k: DayKey): seq<Sample>
  {
    if samples == [] then []
    else
      var last := samples[|samples| - 1];
      SamplesOn(samples[..|samples| - 1], dayOf, k) + (if KeyOf(last, dayOf) == k then [last] else [])
  }

  /** The position of the first sample of day `k`. */
  function FirstIndex(samples: seq<Sample>, dayOf: int -> DayKey, k: DayKey): (i: nat)
    requires k in Days(samples, dayOf)
    ensures i < |samples| && KeyOf(samples[i], dayOf) == k
    ensures forall j :: 0 <= j < i ==> KeyOf(samples[j], dayOf) != k
  {
    var n := |samples| - 1;
    var prefix := samples[..n];
    assert forall j :: 0 <= j < n ==> prefix[j] == samples[j];
    if k in Days(prefix, dayOf) then FirstIndex(prefix, dayOf, k)
    else
      DaysMembers(prefix, dayOf);
      n
  }

  function TempsOf(ss: seq<Sample>): seq<real>
  {
    seq(|ss|, i requires 0 <= i < |ss| => ss[i].temp)
  }

  function MainsOf(ss: seq<Sample>): seq<string>
  {
    seq(|ss|, i requires 0 <= i < |ss| => ss[i].main)
  }

  /** Appending a sample appends its temperature and its condition text. */
  lemma OfAppend(ss: seq<Sample>, x: Sample)
    ensures TempsOf(ss + [x]) == TempsOf(ss) + [x.temp]
    ensures MainsOf(ss + [x]) == MainsOf(ss) + [x.main]
  {
  }

  /** The group of day `k`: date and icon from its first sample, every temperature
      and every condition text of the day in input order. */
  function GroupOf(samples: seq<Sample>, dayOf: int -> DayKey, k: DayKey): DayGroup
    requires k in Days(samples, dayOf)
  {
    var first := samples[FirstIndex(samples, dayOf, k)];
    var day := SamplesOn(samples, dayOf, k);
    DayGroup(DateOf(first), TempsOf(day), MainsOf(day), ToLower(first.main))
  }

  /** `Object.values(dailyForecasts)` once every sample has been seen. */
  function Grouped(samples: seq<Sample>, dayOf: int -> DayKey): (groups: seq<DayGroup>)
    ensures |groups| == |Days(samples, dayOf)|
  {
    var days := Days(samples, dayOf);
    seq(|days|, i requires 0 <= i < |days| => GroupOf(samples, dayOf, days[i]))
  }

  // ---------------------------------------------------------------------
  // Reduction to day summaries
  // ---------------------------------------------------------------------

  predicate NonEmptyGroup(g: DayGroup)
  {
    |g.temps| > 0 && |g.descriptions| > 0
  }

  /** The `map` callback: rounded maximum and minimum, the icon, the first description. */
  function Summarize(g: DayGroup): (d: DaySummary)
    requires NonEmptyGroup(g)
    ensures d.low <= d.high
    ensures d.date == g.date && d.icon == g.icon && d.description == g.descriptions[0]
  {
    MinAtMostMax(g.temps);
    RoundMonotone(SeqMin(g.temps), SeqMax(g.temps));
    DaySummary(g.date, Round(SeqMax(g.temps)), Round(SeqMin(g.temps)), g.icon, g.descriptions[0])
  }

  /** `.slice(0, 5).map(...)`. */
  function Summaries(groups: seq<DayGroup>): (ds: seq<DaySummary>)
    requires forall i :: 0 <= i < |groups| ==> NonEmptyGroup(groups[i])
    ensures |ds| == if |groups| < MaxDays then |groups| else MaxDays
  {
    var kept := groups[..if |groups| < MaxDays then |groups| else MaxDays];
    seq(|kept|, i requires 0 <= i < |kept| => Summarize(kept[i]))
  }

  /** What `processForecast` returns for a sample list. */
  function ForecastOf(samples: seq<Sample>, dayOf: int -> DayKey): seq<DaySummary>
  {
    GroupsNonEmpty(samples, dayOf);
    Summaries(Grouped(samples, dayOf))
  }

  // ---------------------------------------------------------------------
  // Facts about SamplesOn and FirstIndex
  // ---------------------------------------------------------------------

  /** A day that does not occur has no samples. */
  lemma {:induction false} SamplesOnAbsent(samples: seq<Sample>, dayOf: int -> DayKey, k: DayKey)
    requires k !in Days(samples, dayOf)
    ensures SamplesOn(samples, dayOf, k) == []
  {
    if samples != [] {
      var prefix := samples[..|samples| - 1];
      assert forall i :: 0 <= i < |prefix| ==> prefix[i] == samples[i];
      SamplesOnAbsent(prefix, dayOf, k);
    }
  }

  /** Every sample of `SamplesOn(samples, k)` is a sample of `samples` of day `k`, and
      every sample of day `k` is among them. */
  lemma {:induction false} SamplesOnMembers(samples: seq<Sample>, dayOf: int -> DayKey, k: DayKey)
    ensures forall x :: x in SamplesOn(samples, dayOf, k) ==> x in samples && KeyOf(x, dayOf) == k
    ensures forall i :: 0 <= i < |samples| && KeyOf(samples[i], dayOf) == k ==>
              samples[i] in SamplesOn(samples, dayOf, k)
  {
    if samples != [] {
      var n := |samples| - 1;
      var prefix := samples[..n];
      SamplesOnMembers(prefix, dayOf, k);
      assert samples == prefix + [samples[n]];
      forall i | 0 <= i < |samples| && KeyOf(samples[i], dayOf) == k
        ensures samples[i] in SamplesOn(samples, dayOf, k)
      {
        if i < n {
          assert prefix[i] == samples[i];
        }
      }
    }
  }

  /** A day that occurs has samples, the first of them being the one at `FirstIndex`. */
  lemma {:induction false} SamplesOnFirst(samples: seq<Sample>, dayOf: int -> DayKey, k: DayKey)
    requires k in Days(samples, dayOf)
    ensures |SamplesOn(samples, dayOf, k)| > 0
    ensures SamplesOn(samples, dayOf, k)[0] == samples[FirstIndex(samples, dayOf, k)]
  {
    var n := |samples| - 1;
    var prefix := samples[..n];
    assert forall j :: 0 <= j < n ==> prefix[j] == samples[j];
    if k in Days(prefix, dayOf) {
      SamplesOnFirst(prefix, dayOf, k);
    } else {
      SamplesOnAbsent(prefix, dayOf, k);
    }
  }

  /** Every group built from an actual day has at least one temperature and description. */
  lemma GroupsNonEmpty(samples: seq<Sample>, dayOf: int -> DayKey)
    ensures forall i :: 0 <= i < |Grouped(samples, dayOf)| ==> NonEmptyGroup(Grouped(samples, dayOf)[i])
  {
    var days := Days(samples, dayOf);
    forall i | 0 <= i < |days| ensures NonEmptyGroup(Grouped(samples, dayOf)[i]) {
      SamplesOnFirst(samples, dayOf, days[i]);
    }
  }

  // ---------------------------------------------------------------------
  // One more sample: how the specification moves, for the loop below.
  // Each lemma looks at a non-empty list as its first `n` samples and its last one.
  // ---------------------------------------------------------------------

  /** The group the loop creates when it first meets a day. */
  function Created(x: Sample): DayGroup
  {
    DayGroup(DateOf(x), [], [], ToLower(x.main))
  }

  /** The group after pushing one sample's temperature and condition text. */
  function Pushed(g: DayGroup, x: Sample): DayGroup
  {
    g.(temps := g.temps + [x.temp], descriptions := g.descriptions + [x.main])
  }

  /** The group of a day once the last sample is seen: the group of the samples before
      it (or a new one, for a new day), extended by the last sample if it is of that day. */
  lemma GroupOfLast(samples: seq<Sample>, dayOf: int -> DayKey, k: DayKey)
    requires samples != []
    requires var n := |samples| - 1; k in Days(samples[..n], dayOf) || k == KeyOf(samples[n], dayOf)
    ensures k in Days(samples, dayOf)
    ensures var n := |samples| - 1;
      var init, last := samples[..n], samples[n];
      GroupOf(samples, dayOf, k) ==
        if k !in Days(init, dayOf) then Pushed(Created(last), last)
        else if KeyOf(last, dayOf) == k then Pushed(GroupOf(init, dayOf, k), last)
        else GroupOf(init, dayOf, k)
  {
    var n := |samples| - 1;
    var init, last := samples[..n], samples[n];
    var day := SamplesOn(init, dayOf, k);
    if k in Days(init, dayOf) {
      var i := FirstIndex(init, dayOf, k);
      assert FirstIndex(samples, dayOf, k) == i;
      assert samples[i] == init[i];
      if KeyOf(last, dayOf) == k {
        assert SamplesOn(samples, dayOf, k) == day + [last];
        OfAppend(day, last);
      } else {
        assert SamplesOn(samples, dayOf, k) == day;
      }
    } else {
      assert FirstIndex(samples, dayOf, k) == n;
      SamplesOnAbsent(init, dayOf, k);
      assert SamplesOn(samples, dayOf, k) == [] + [last];
      OfAppend([], last);
    }
  }

  /** One turn of the loop: if the dictionary held the groups of the samples before the
      last, then after creating the group of the last sample's day when it is missing
      and pushing the sample onto it, it holds the groups of all the samples. */
  lemma GroupStep(samples: seq<Sample>, dayOf: int -> DayKey,
                  before: map<DayKey, DayGroup>, after: map<DayKey, DayGroup>)
    requires samples != []
    requires var init := samples[..|samples| - 1];
      && (forall k :: k in before <==> k in Days(init, dayOf))
      && (forall k :: k in before ==> before[k] == GroupOf(init, dayOf, k))
    requires var item := samples[|samples| - 1]; var day := KeyOf(item, dayOf);
      && (forall k :: k in after <==> k in before || k == day)
      && (forall k :: k in after && k != day ==> after[k] == before[k])
      && day in after
      && after[day] == Pushed(if day in before then before[day] else Created(item), item)
    ensures forall k :: k in after <==> k in Days(samples, dayOf)
    ensures forall k :: k in after ==> after[k] == GroupOf(samples, dayOf, k)
  {
    forall k | k in after
      ensures after[k] == GroupOf(samples, dayOf, k)
    {
      GroupOfLast(samples, dayOf, k);
    }
  }

  /** The `dailyForecasts` dictionary after the samples have been seen one by one:
      every entry has had at least one push, and as many temperatures as texts. */
  function Dictionary(samples: seq<Sample>, dayOf: int -> DayKey): (dict: map<DayKey, DayGroup>)
    ensures forall k :: k in dict ==> |dict[k].temps| > 0 && |dict[k].temps| == |dict[k].descriptions|
  {
    if samples == [] then map[]
    else
      var dict := Dictionary(samples[..|samples| - 1], dayOf);
      var item := samples[|samples| - 1];
      var day := KeyOf(item, dayOf);
      dict[day := Pushed(if day in dict then dict[day] else Created(item), item)]
  }

  /** The dictionary holds one entry per day, and that entry is the day's group. */
  lemma {:induction false} DictionaryHoldsGroups(samples: seq<Sample>, dayOf: int -> DayKey)
    ensures forall k :: k in Dictionary(samples, dayOf) <==> k in Days(samples, dayOf)
    ensures forall k :: k in Dictionary(samples, dayOf) ==>
      Dictionary(samples, dayOf)[k] == GroupOf(samples, dayOf, k)
  {
    if samples != [] {
      var init := samples[..|samples| - 1];
      DictionaryHoldsGroups(init, dayOf);
      GroupStep(samples, dayOf, Dictionary(init, dayOf), Dictionary(samples, dayOf));
    }
  }

  /** A day has an entry in the dictionary exactly when it occurs. */
  lemma DictionaryKey(samples: seq<Sample>, dayOf: int -> DayKey, k: DayKey)
    ensures k in Dictionary(samples, dayOf) <==> k in Days(samples, dayOf)
  {
    DictionaryHoldsGroups(samples, dayOf);
  }

  /** Reading the finished dictionary in key insertion order gives `Grouped`. */
  lemma ValuesInOrder(samples: seq<Sample>, dayOf: int -> DayKey,
                      dict: map<DayKey, DayGroup>, order: seq<DayKey>, values: seq<DayGroup>)
    requires order == Days(samples, dayOf)
    requires forall k :: k in dict <==> k in order
    requires forall k :: k in dict ==> dict[k] == GroupOf(samples, dayOf, k)
    requires |values| == |order| && forall j :: 0 <= j < |order| ==> values[j] == dict[order[j]]
    ensures values == Grouped(samples, dayOf)
  {
  }

  // ---------------------------------------------------------------------
  // The app's loop
  // ---------------------------------------------------------------------

  /** The `forEach` of `processForecast`: fills the `dailyForecasts` dictionary, one
      group per day. `order` records the dictionary's key insertion order. */
  method FillDailyForecasts(samples: seq<Sample>, dayOf: int -> DayKey)
    returns (dailyForecasts: map<DayKey, DayGroup>, order: seq<DayKey>)
    ensures dailyForecasts == Dictionary(samples, dayOf)
    ensures order == Days(samples, dayOf)
  {
    dailyForecasts, order := map[], [];
    var i := 0;
    while i < |samples|
      invariant 0 <= i <= |samples|
      invariant dailyForecasts == Dictionary(samples[..i], dayOf)
      invariant order == Days(samples[..i], dayOf)
    {
      var item := samples[i];
      var date := item.dt * 1000;
      var day := dayOf(date);
      DictionaryKey(samples[..i], dayOf, day);
      ghost var before := dailyForecasts;
      if day !in dailyForecasts {
        dailyForecasts := dailyForecasts[day := Created(item)];
        order := order + [day];
      }
      dailyForecasts := dailyForecasts[day := Pushed(dailyForecasts[day], item)];
      assert samples[..i + 1][..i] == samples[..i];
      assert dailyForecasts == before[day := Pushed(if day in before then before[day] else Created(item), item)];
      i := i + 1;
    }
    assert samples[..i] == samples;
  }

  /** The grouping half of `processForecast`: the dictionary loop, then
      `Object.values`, which lists the groups in key insertion order because
      `toDateString` keys are never integer-like. */
  method GroupByDay(samples: seq<Sample>, dayOf: int -> DayKey) returns (values: seq<DayGroup>)
    ensures values == Grouped(samples, dayOf)
  {
    var dailyForecasts, order := FillDailyForecasts(samples, dayOf);
    DictionaryHoldsGroups(samples, dayOf);
    values := seq(|order|, j requires 0 <= j < |order| => dailyForecasts[order[j]]);
    ValuesInOrder(samples, dayOf, dailyForecasts, order, values);
  }

  /** `processForecast(rawData)`. */
  method ProcessForecast(raw: RawForecast, dayOf: int -> DayKey) returns (forecast: seq<DaySummary>)
    ensures forecast == ForecastOf(raw.list, dayOf)
    ensures |forecast| <= MaxDays
    ensures forall i, j :: 0 <= i < j < |forecast| ==> dayOf(forecast[i].date) != dayOf(forecast[j].date)
  {
    var values := GroupByDay(raw.list, dayOf);
    GroupsNonEmpty(raw.list, dayOf);
    forecast := Summaries(values);
    DistinctDays(raw.list, dayOf);
  }

  // ---------------------------------------------------------------------
  // Properties of the result
  // ---------------------------------------------------------------------

  /** Length: as many summaries as distinct days, but at most five; none for no samples. */
  lemma ForecastLength(samples: seq<Sample>, dayOf: int -> DayKey)
    ensures var n := |Days(samples, dayOf)|;
      |ForecastOf(samples, dayOf)| == if n < MaxDays then n else MaxDays
    ensures |ForecastOf(samples, dayOf)| <= MaxDays
    ensures samples == [] ==> ForecastOf(samples, dayOf) == []
  {
  }

  /** Summary `i` describes day `Days(samples)[i]`: its date is the date of that day's
      first sample, its icon that sample's lower-cased condition and its description
      that sample's condition text, whatever the later samples of the day say; its
      high and low are the rounded extremes of the day's temperatures. */
  lemma ForecastEntry(samples: seq<Sample>, dayOf: int -> DayKey, i: nat)
    requires i < |ForecastOf(samples, dayOf)|
    ensures i < |Days(samples, dayOf)|
    ensures var k := Days(samples, dayOf)[i];
      var first := samples[FirstIndex(samples, dayOf, k)];
      var temps := TempsOf(SamplesOn(samples, dayOf, k));
      var d := ForecastOf(samples, dayOf)[i];
      && |temps| > 0
      && d.date == DateOf(first)
      && d.icon == ToLower(first.main)
      && d.description == first.main
      && d.high == Round(SeqMax(temps))
      && d.low == Round(SeqMin(temps))
  {
    var k := Days(samples, dayOf)[i];
    SamplesOnFirst(samples, dayOf, k);
    GroupsNonEmpty(samples, dayOf);
    var g := Grouped(samples, dayOf)[i];
    assert g == GroupOf(samples, dayOf, k);
    assert ForecastOf(samples, dayOf)[i] == Summarize(g);
    var day := SamplesOn(samples, dayOf, k);
    assert MainsOf(day)[0] == day[0].main;
  }

  /** The summaries are of pairwise distinct days. */
  lemma DistinctDays(samples: seq<Sample>, dayOf: int -> DayKey)
    ensures var f := ForecastOf(samples, dayOf);
      forall i, j :: 0 <= i < j < |f| ==> dayOf(f[i].date) != dayOf(f[j].date)
  {
    var f := ForecastOf(samples, dayOf);
    var days := Days(samples, dayOf);
    DaysDistinct(samples, dayOf);
    forall i, j | 0 <= i < j < |f| ensures dayOf(f[i].date) != dayOf(f[j].date) {
      ForecastEntry(samples, dayOf, i);
      ForecastEntry(samples, dayOf, j);
      assert dayOf(f[i].date) == days[i];
      assert dayOf(f[j].date) == days[j];
    }
  }

  /** `Days` lists the days in the order of their first samples. */
  lemma {:induction false} DaysInFirstSeenOrder(samples: seq<Sample>, dayOf: int -> DayKey)
    ensures var days := Days(samples, dayOf);
      forall i, j :: 0 <= i < j < |days| ==>
        FirstIndex(samples, dayOf, days[i]) < FirstIndex(samples, dayOf, days[j])
  {
    if samples != [] {
      var n := |samples| - 1;
      var init := samples[..n];
      DaysInFirstSeenOrder(init, dayOf);
      var prev := Days(init, dayOf);
      var days := Days(samples, dayOf);
      forall i, j | 0 <= i < j < |days|
        ensures FirstIndex(samples, dayOf, days[i]) < FirstIndex(samples, dayOf, days[j])
      {
        assert days[i] == prev[i];
        assert FirstIndex(samples, dayOf, days[i]) == FirstIndex(init, dayOf, prev[i]);
        if j < |prev| {
          assert days[j] == prev[j];
          assert FirstIndex(samples, dayOf, days[j]) == FirstIndex(init, dayOf, prev[j]);
        } else {
          assert FirstIndex(samples, dayOf, days[j]) == n;
        }
      }
    }
  }

  /** The first summary's day is the day of the first sample. */
  lemma FirstDayFirst(samples: seq<Sample>, dayOf: int -> DayKey)
    requires samples != []
    ensures |ForecastOf(samples, dayOf)| > 0
    ensures dayOf(ForecastOf(samples, dayOf)[0].date) == KeyOf(samples[0], dayOf)
  {
    var days := Days(samples, dayOf);
    var k0 := KeyOf(samples[0], dayOf);
    DaysMembers(samples, dayOf);
    assert k0 in days;
    var j :| 0 <= j < |days| && days[j] == k0;
    assert FirstIndex(samples, dayOf, k0) == 0;
    DaysInFirstSeenOrder(samples, dayOf);
    assert days[0] == k0;
    ForecastEntry(samples, dayOf, 0);
  }

  /** High and low range over the samples of the day: each is the rounded temperature
      of one of its samples and bounds the rounded temperature of all of them; so
      `low <= high`, and a day with a single sample has `high == low`. */
  lemma HighLowOfDay(samples: seq<Sample>, dayOf: int -> DayKey, i: nat)
    requires i < |ForecastOf(samples, dayOf)|
    ensures i < |Days(samples, dayOf)|
    ensures var k := Days(samples, dayOf)[i];
      var d := ForecastOf(samples, dayOf)[i];
      && d.low <= d.high
      && (exists j :: 0 <= j < |samples| && KeyOf(samples[j], dayOf) == k && Round(samples[j].temp) == d.high)
      && (exists j :: 0 <= j < |samples| && KeyOf(samples[j], dayOf) == k && Round(samples[j].temp) == d.low)
      && (forall j :: 0 <= j < |samples| && KeyOf(samples[j], dayOf) == k ==>
            d.low <= Round(samples[j].temp) <= d.high)
      && (|SamplesOn(samples, dayOf, k)| == 1 ==>
            d.high == d.low == Round(SamplesOn(samples, dayOf, k)[0].temp))
  {
    ForecastEntry(samples, dayOf, i);
    var k := Days(samples, dayOf)[i];
    var temps := TempsOf(SamplesOn(samples, dayOf, k));
    var d := ForecastOf(samples, dayOf)[i];
    MinAtMostMax(temps);
    RoundMonotone(SeqMin(temps), SeqMax(temps));
    var hi :| 0 <= hi < |temps| && temps[hi] == SeqMax(temps);
    var lo :| 0 <= lo < |temps| && temps[lo] == SeqMin(temps);
    var jh := SampleOfDayTemp(samples, dayOf, k, hi);
    var jl := SampleOfDayTemp(samples, dayOf, k, lo);
    forall j | 0 <= j < |samples| && KeyOf(samples[j], dayOf) == k
      ensures d.low <= Round(samples[j].temp) <= d.high
    {
      var m := DayTempOfSample(samples, dayOf, k, j);
      RoundMonotone(SeqMin(temps), samples[j].temp);
      RoundMonotone(samples[j].temp, SeqMax(temps));
    }
  }

  /** Each temperature of a day is the temperature of one of the day's samples. */
  lemma SampleOfDayTemp(samples: seq<Sample>, dayOf: int -> DayKey, k: DayKey, m: nat) returns (j: nat)
    requires m < |TempsOf(SamplesOn(samples, dayOf, k))|
    ensures j < |samples| && KeyOf(samples[j], dayOf) == k
    ensures samples[j].temp == TempsOf(SamplesOn(samples, dayOf, k))[m]
  {
    var day := SamplesOn(samples, dayOf, k);
    SamplesOnMembers(samples, dayOf, k);
    assert day[m] in samples;
    j :| 0 <= j < |samples| && samples[j] == day[m];
  }

  /** The temperature of each sample of a day is among the day's temperatures. */
  lemma DayTempOfSample(samples: seq<Sample>, dayOf: int -> DayKey, k: DayKey, j: nat) returns (m: nat)
    requires j < |samples| && KeyOf(samples[j], dayOf) == k
    ensures m < |TempsOf(SamplesOn(samples, dayOf, k))|
    ensures TempsOf(SamplesOn(samples, dayOf, k))[m] == samples[j].temp
  {
    var day := SamplesOn(samples, dayOf, k);
    SamplesOnMembers(samples, dayOf, k);
    assert samples[j] in day;
    m :| 0 <= m < |day| && day[m] == samples[j];
  }

  /** Later samples leave the earlier days in place: for a prefix of the samples, the
      days it has seen keep their positions and the positions of their first samples. */
  lemma {:induction false} PrefixKeepsDays(samples: seq<Sample>, dayOf: int -> DayKey, m: nat)
    requires m <= |samples|
    ensures var days := Days(samples[..m], dayOf);
      var days' := Days(samples, dayOf);
      && |days| <= |days'|
      && days'[..|days|] == days
      && (forall k :: k in days ==>
            (k in days' && FirstIndex(samples, dayOf, k) == FirstIndex(samples[..m], dayOf, k)))
    decreases |samples| - m
  {
    if m < |samples| {
      var n := |samples| - 1;
      var init := samples[..n];
      assert init[..m] == samples[..m];
      PrefixKeepsDays(init, dayOf, m);
      var days := Days(samples[..m], dayOf);
      var prev := Days(init, dayOf);
      assert Days(samples, dayOf)[..|prev|] == prev;
      assert Days(samples, dayOf)[..|days|] == prev[..|days|];
    } else {
      assert samples[..m] == samples;
    }
  }

  /** "First sample wins": for a day already summarised, more samples change neither
      its date, nor its icon, nor its description. */
  lemma FirstSampleWins(samples: seq<Sample>, later: seq<Sample>, dayOf: int -> DayKey, i: nat)
    requires i < |ForecastOf(samples, dayOf)|
    ensures i < |ForecastOf(samples + later, dayOf)|
    ensures var d := ForecastOf(samples, dayOf)[i];
      var d' := ForecastOf(samples + later, dayOf)[i];
      d'.date == d.date && d'.icon == d.icon && d'.description == d.description
  {
    var all := samples + later;
    assert all[..|samples|] == samples;
    PrefixKeepsDays(all, dayOf, |samples|);
    ForecastEntry(samples, dayOf, i);
    var days := Days(samples, dayOf);
    var days' := Days(samples + later, dayOf);
    assert days'[i] == days[i];
    ForecastLength(samples + later, dayOf);
    ForecastEntry(samples + later, dayOf, i);
    var fi := FirstIndex(samples, dayOf, days[i]);
    assert (samples + later)[fi] == samples[fi];
  }

  // ---------------------------------------------------------------------
  // Every sample lands in exactly one group
  // ---------------------------------------------------------------------

  /** The temperatures of several groups, laid end to end. */
  function AllTemps(groups: seq<DayGroup>): seq<real>
  {
    if groups == [] then [] else AllTemps(groups[..|groups| - 1]) + groups[|groups| - 1].temps
  }

  /** The temperatures of each day. */
  function TempsOn(samples: seq<Sample>, dayOf: int -> DayKey): DayKey -> seq<real>
  {
    k => TempsOf(SamplesOn(samples, dayOf, k))
  }

  /** `f(k)` for the keys `ks`, laid end to end. */
  function ConcatOver(ks: seq<DayKey>, f: DayKey -> seq<real>): seq<real>
  {
    if ks == [] then [] else ConcatOver(ks[..|ks| - 1], f) + f(ks[|ks| - 1])
  }

  lemma {:induction false} AllTempsOfGroups(samples: seq<Sample>, dayOf: int -> DayKey,
                                            groups: seq<DayGroup>, ks: seq<DayKey>)
    requires |groups| == |ks|
    requires forall i :: 0 <= i < |ks| ==> groups[i].temps == TempsOf(SamplesOn(samples, dayOf, ks[i]))
    ensures AllTemps(groups) == ConcatOver(ks, TempsOn(samples, dayOf))
  {
    if ks != [] {
      var n := |ks| - 1;
      AllTempsOfGroups(samples, dayOf, groups[..n], ks[..n]);
    }
  }

  /** Dropping the last of distinct keys leaves distinct keys without it. */
  lemma DistinctFront(ks: seq<DayKey>)
    requires Distinct(ks) && ks != []
    ensures Distinct(ks[..|ks| - 1]) && ks[|ks| - 1] !in ks[..|ks| - 1]
  {
    var front := ks[..|ks| - 1];
    forall i | 0 <= i < |front| ensures front[i] == ks[i] {
    }
  }

  /** If `g` is `f` with `t` appended for the one key `key`, then over distinct keys the
      concatenation of `g` has `t` once more than that of `f` when `key` is among them. */
  lemma {:induction false} ConcatOverBump(ks: seq<DayKey>, f: DayKey -> seq<real>, g: DayKey -> seq<real>,
                                          key: DayKey, t: real)
    requires Distinct(ks)
    requires forall k :: g(k) == f(k) + (if k == key then [t] else [])
    ensures multiset(ConcatOver(ks, g)) ==
      multiset(ConcatOver(ks, f)) + (if key in ks then multiset{t} else multiset{})
  {
    if ks != [] {
      var n := |ks| - 1;
      var front, kn := ks[..n], ks[n];
      assert ks == front + [kn];
      DistinctFront(ks);
      ConcatOverBump(front, f, g, key, t);
      assert g(kn) == f(kn) + (if kn == key then [t] else []);
    }
  }

  /** The last sample appends its temperature to its own day and to no other. */
  lemma TempsOnLast(samples: seq<Sample>, dayOf: int -> DayKey)
    requires samples != []
    ensures var n := |samples| - 1;
      forall k :: TempsOn(samples, dayOf)(k) ==
        TempsOn(samples[..n], dayOf)(k) + (if k == KeyOf(samples[n], dayOf) then [samples[n].temp] else [])
  {
    var n := |samples| - 1;
    var init, last := samples[..n], samples[n];
    forall k ensures TempsOf(SamplesOn(samples, dayOf, k)) ==
      TempsOf(SamplesOn(init, dayOf, k)) + (if k == KeyOf(last, dayOf) then [last.temp] else [])
    {
      OfAppend(SamplesOn(init, dayOf, k), last);
    }
  }

  /** The groups partition the samples: laid end to end, their temperatures are the
      input's temperatures, each exactly once (as a multiset). */
  lemma {:induction false} GroupsPartitionTemps(samples: seq<Sample>, dayOf: int -> DayKey)
    ensures multiset(AllTemps(Grouped(samples, dayOf))) == multiset(TempsOf(samples))
  {
    AllTempsOfGroups(samples, dayOf, Grouped(samples, dayOf), Days(samples, dayOf));
    PartitionOnDays(samples, dayOf);
  }

  /** Over the days seen before the last sample, the last sample adds its temperature
      once if its day is among them and not at all otherwise. */
  lemma ConcatOverPrevLast(samples: seq<Sample>, dayOf: int -> DayKey)
    requires samples != []
    ensures var n := |samples| - 1; var prev := Days(samples[..n], dayOf);
      multiset(ConcatOver(prev, TempsOn(samples, dayOf))) ==
        multiset(ConcatOver(prev, TempsOn(samples[..n], dayOf))) +
        (if KeyOf(samples[n], dayOf) in prev then multiset{samples[n].temp} else multiset{})
  {
    var n := |samples| - 1;
    DaysDistinct(samples[..n], dayOf);
    TempsOnLast(samples, dayOf);
    ConcatOverBump(Days(samples[..n], dayOf), TempsOn(samples[..n], dayOf), TempsOn(samples, dayOf),
                   KeyOf(samples[n], dayOf), samples[n].temp);
  }

  /** A last sample of a new day adds the new day, holding just that sample's temperature. */
  lemma ConcatOverNewDayLast(samples: seq<Sample>, dayOf: int -> DayKey)
    requires samples != []
    requires var n := |samples| - 1; KeyOf(samples[n], dayOf) !in Days(samples[..n], dayOf)
    ensures var n := |samples| - 1; var g := TempsOn(samples, dayOf);
      ConcatOver(Days(samples, dayOf), g) == ConcatOver(Days(samples[..n], dayOf), g) + [samples[n].temp]
  {
    var n := |samples| - 1;
    var init, last := samples[..n], samples[n];
    var k, prev := KeyOf(last, dayOf), Days(init, dayOf);
    var ks := prev + [k];
    assert ks[..|prev|] == prev;
    SamplesOnAbsent(init, dayOf, k);
    OfAppend([], last);
    assert SamplesOn(samples, dayOf, k) == [] + [last];
  }

  /** The last sample adds its temperature exactly once to the days laid end to end. */
  lemma ConcatOverDaysLast(samples: seq<Sample>, dayOf: int -> DayKey)
    requires samples != []
    ensures var n := |samples| - 1;
      multiset(ConcatOver(Days(samples, dayOf), TempsOn(samples, dayOf))) ==
      multiset(ConcatOver(Days(samples[..n], dayOf), TempsOn(samples[..n], dayOf))) + multiset{samples[n].temp}
  {
    ConcatOverPrevLast(samples, dayOf);
    var n := |samples| - 1;
    if KeyOf(samples[n], dayOf) !in Days(samples[..n], dayOf) {
      ConcatOverNewDayLast(samples, dayOf);
    }
  }

  lemma TempsOfLast(ss: seq<Sample>)
    requires ss != []
    ensures TempsOf(ss) == TempsOf(ss[..|ss| - 1]) + [ss[|ss| - 1].temp]
  {
  }

  lemma {:induction false} PartitionOnDays(samples: seq<Sample>, dayOf: int -> DayKey)
    ensures multiset(ConcatOver(Days(samples, dayOf), TempsOn(samples, dayOf))) == multiset(TempsOf(samples))
  {
    if samples != [] {
      var n := |samples| - 1;
      PartitionOnDays(samples[..n], dayOf);
      ConcatOverDaysLast(samples, dayOf);
      TempsOfLast(samples);
    }
  }

  // ---------------------------------------------------------------------
  // A worked example
  // ---------------------------------------------------------------------

  /** The day key of the example: Thu Jan 01 1970 before 86 400 000 ms, Fri Jan 02 1970 from then on. */
  function ExampleDay(ms: int): DayKey
  {
    if ms < 86400000 then "Thu Jan 01 1970" else "Fri Jan 02 1970"
  }

  /** Two days: the first at 10, 15 and 12 degrees, the second at 5 and 9. */
  const ExampleSamples := [Sample(0, 10.0, "Clear"), Sample(10800, 15.0, "Clouds"),
                           Sample(21600, 12.0, "Rain"), Sample(86400, 5.0, "Snow"),
                           Sample(97200, 9.0, "Clear")]

  lemma ExamplePrefixes()
    ensures var s := ExampleSamples;
      && s[..1][..0] == [] && s[..2][..1] == s[..1] && s[..3][..2] == s[..2]
      && s[..4][..3] == s[..3] && s[..|s| - 1] == s[..4]
  {
  }

  lemma ExampleDays()
    ensures var s := ExampleSamples;
      && Days(s[..3], ExampleDay) == ["Thu Jan 01 1970"]
      && Days(s[..4], ExampleDay) == ["Thu Jan 01 1970", "Fri Jan 02 1970"]
      && Days(s, ExampleDay) == ["Thu Jan 01 1970", "Fri Jan 02 1970"]
  {
    var s, f := ExampleSamples, ExampleDay;
    ExamplePrefixes();
    assert Days(s[..1], f) == ["Thu Jan 01 1970"];
    assert Days(s[..2], f) == ["Thu Jan 01 1970"];
    assert Days(s[..3], f) == ["Thu Jan 01 1970"];
    assert Days(s[..4], f) == ["Thu Jan 01 1970", "Fri Jan 02 1970"];
  }

  lemma ExampleSamplesOn()
    ensures var s := ExampleSamples;
      && SamplesOn(s, ExampleDay, "Thu Jan 01 1970") == s[..3]
      && SamplesOn(s, ExampleDay, "Fri Jan 02 1970") == s[3..]
  {
    var s, f := ExampleSamples, ExampleDay;
    var d1, d2 := "Thu Jan 01 1970", "Fri Jan 02 1970";
    ExamplePrefixes();
    assert SamplesOn(s[..1], f, d1) == s[..1];
    assert SamplesOn(s[..2], f, d1) == s[..2];
    assert SamplesOn(s[..3], f, d1) == s[..3];
    assert SamplesOn(s[..4], f, d1) == s[..3];
    ExampleDays();
    SamplesOnAbsent(s[..3], f, d2);
    assert SamplesOn(s[..4], f, d2) == s[3..4];
  }

  lemma ExampleFirstIndex()
    ensures Days(ExampleSamples, ExampleDay) == ["Thu Jan 01 1970", "Fri Jan 02 1970"]
    ensures FirstIndex(ExampleSamples, ExampleDay, "Thu Jan 01 1970") == 0
    ensures FirstIndex(ExampleSamples, ExampleDay, "Fri Jan 02 1970") == 3
  {
    var s, f := ExampleSamples, ExampleDay;
    var d1, d2 := "Thu Jan 01 1970", "Fri Jan 02 1970";
    ExamplePrefixes();
    ExampleDays();
    assert FirstIndex(s[..4], f, d2) == 3;
    assert FirstIndex(s[..1], f, d1) == 0;
    assert FirstIndex(s[..2], f, d1) == 0;
    assert FirstIndex(s[..3], f, d1) == 0;
    assert FirstIndex(s[..4], f, d1) == 0;
  }

  lemma ExampleColumns()
    ensures var s := ExampleSamples;
      && TempsOf(s[..3]) == [10.0, 15.0, 12.0] && TempsOf(s[3..]) == [5.0, 9.0]
      && MainsOf(s[..3]) == ["Clear", "Clouds", "Rain"] && MainsOf(s[3..]) == ["Snow", "Clear"]
  {
  }

  lemma ExampleLower()
    ensures ToLower("Clear") == "clear" && ToLower("Snow") == "snow"
  {
  }

  lemma ExampleFirstGroup()
    ensures "Thu Jan 01 1970" in Days(ExampleSamples, ExampleDay)
    ensures GroupOf(ExampleSamples, ExampleDay, "Thu Jan 01 1970") ==
      DayGroup(0, [10.0, 15.0, 12.0], ["Clear", "Clouds", "Rain"], "clear")
  {
    var s := ExampleSamples;
    ExampleFirstIndex();
    ExampleSamplesOn();
    ExampleColumns();
    ExampleLower();
    assert s[0].main == "Clear";
  }

  lemma ExampleSecondGroup()
    ensures "Fri Jan 02 1970" in Days(ExampleSamples, ExampleDay)
    ensures GroupOf(ExampleSamples, ExampleDay, "Fri Jan 02 1970") ==
      DayGroup(86400000, [5.0, 9.0], ["Snow", "Clear"], "snow")
  {
    var s := ExampleSamples;
    ExampleFirstIndex();
    ExampleSamplesOn();
    ExampleColumns();
    ExampleLower();
    assert s[3].main == "Snow";
  }

  lemma ExampleGroups()
    ensures Grouped(ExampleSamples, ExampleDay) ==
      [DayGroup(0, [10.0, 15.0, 12.0], ["Clear", "Clouds", "Rain"], "clear"),
       DayGroup(86400000, [5.0, 9.0], ["Snow", "Clear"], "snow")]
  {
    var s, f := ExampleSamples, ExampleDay;
    ExampleFirstIndex();
    ExampleFirstGroup();
    ExampleSecondGroup();
    var g := Grouped(s, f);
    assert |g| == 2;
  }

  lemma ExampleExtremes()
    ensures SeqMax([10.0, 15.0, 12.0]) == 15.0 && SeqMin([10.0, 15.0, 12.0]) == 10.0
    ensures SeqMax([5.0, 9.0]) == 9.0 && SeqMin([5.0, 9.0]) == 5.0
  {
  }

  /** Each day is summarised by the extremes of its temperatures and by its first
      sample's condition, the days in the order they were first seen. */
  lemma TwoDayExample()
    ensures ForecastOf(ExampleSamples, ExampleDay) ==
      [DaySummary(0, 15, 10, "clear", "Clear"), DaySummary(86400000, 9, 5, "snow", "Snow")]
  {
    ExampleGroups();
    ExampleExtremes();
    var g := Grouped(ExampleSamples, ExampleDay);
    GroupsNonEmpty(ExampleSamples, ExampleDay);
    assert g[..2] == g;
    RoundOfInt(15);
    RoundOfInt(10);
    RoundOfInt(9);
    RoundOfInt(5);
    assert Summarize(g[0]) == DaySummary(0, 15, 10, "clear", "Clear");
    assert Summarize(g[1]) == DaySummary(86400000, 9, 5, "snow", "Snow");
  }
}
