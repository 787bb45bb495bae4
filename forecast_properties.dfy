/**
 * What the day grouping promises about its result: every item lands in the
 * one bucket labelled with its date, in input order, no item is lost, the
 * labels are distinct and in order of first appearance; and, per bucket, the
 * temperature bounds, the most frequent category and the icon choice.
 */
module ForecastProperties {
  import opened Seqs
  import opened WeatherForecast

  // ---------------------------------------------------------------------
  // The buckets
  // ---------------------------------------------------------------------

  /** The positions in `list` of the items labelled `date`, ascending. */
  function Positions(list: seq<ForecastItem>, key: int -> string, date: string): (ps: seq<nat>)
    ensures forall i :: 0 <= i < |ps| ==> ps[i] < |list| && key(list[ps[i]].dt) == date
    ensures forall i, j :: 0 <= i < j < |ps| ==> ps[i] < ps[j]
    ensures forall n :: 0 <= n < |list| && key(list[n].dt) == date ==> n in ps
  {
    if list == [] then []
    else
      var last := |list| - 1;
      Positions(list[..last], key, date) + (if key(list[last].dt) == date then [last] else [])
  }

  /**
   * A bucket is the input list filtered by date label: its `i`-th item is the
   * input item at the `i`-th position carrying that label.
   */
  lemma {:induction false} ItemsOnPositions(list: seq<ForecastItem>, key: int -> string, date: string)
    ensures |ItemsOn(list, key, date)| == |Positions(list, key, date)|
    ensures forall i :: 0 <= i < |Positions(list, key, date)| ==>
      ItemsOn(list, key, date)[i] == list[Positions(list, key, date)[i]]
  {
    if list != [] {
      var p := list[..|list| - 1];
      ItemsOnPositions(p, key, date);
    }
  }

  /** The `i`-th summary of `DaysFor` is that of the `i`-th label. */
  lemma {:induction false} DaysForAt(list: seq<ForecastItem>, key: int -> string, ks: seq<string>, i: nat)
    requires i < |ks|
    ensures DaysFor(list, key, ks)[i] == DayOf(list, key, ks[i])
  {
    if i < |ks| - 1 {
      DaysForAt(list, key, ks[..|ks| - 1], i);
    }
  }

  /** The `i`-th day carries the `i`-th label and that label's non-empty bucket. */
  lemma ForecastDay(list: seq<ForecastItem>, key: int -> string, i: nat)
    requires i < |Forecast(list, key)|
    ensures Forecast(list, key)[i].date == DayKeys(list, key)[i]
    ensures Forecast(list, key)[i].items == ItemsOn(list, key, DayKeys(list, key)[i])
    ensures |Forecast(list, key)[i].items| > 0
  {
    DayKeysAreDates(list, key);
    DaysForAt(list, key, DayKeys(list, key), i);
    assert DayKeys(list, key)[i] in Dates(list, key);
  }

  /**
   * The `i`-th day is the summary of the `i`-th label's bucket, so the
   * per-day lemmas below apply to the days of the forecast.
   */
  lemma ForecastDayIsSummary(list: seq<ForecastItem>, key: int -> string, i: nat)
    requires i < |Forecast(list, key)|
    ensures |ItemsOn(list, key, DayKeys(list, key)[i])| > 0
    ensures Forecast(list, key)[i] == Summary(DayKeys(list, key)[i], ItemsOn(list, key, DayKeys(list, key)[i]))
  {
    ForecastDay(list, key, i);
    DaysForAt(list, key, DayKeys(list, key), i);
  }

  /** An empty list has no days. */
  lemma EmptyForecast(key: int -> string)
    ensures Forecast([], key) == []
  {
  }

  /**
   * The day labels are labels of input items, pairwise distinct, and ordered
   * by the position of their first item.
   */
  lemma ForecastDateOrder(list: seq<ForecastItem>, key: int -> string)
    ensures forall i :: 0 <= i < |Forecast(list, key)| ==> Forecast(list, key)[i].date in Dates(list, key)
    ensures forall i, j :: 0 <= i < j < |Forecast(list, key)| ==>
      Forecast(list, key)[i].date != Forecast(list, key)[j].date
    ensures forall i, j :: 0 <= i < j < |Forecast(list, key)| ==>
      FirstIndex(Dates(list, key), Forecast(list, key)[i].date)
        < FirstIndex(Dates(list, key), Forecast(list, key)[j].date)
  {
    var days, ks := Forecast(list, key), DayKeys(list, key);
    forall i | 0 <= i < |days| ensures days[i].date == ks[i] {
      ForecastDay(list, key, i);
    }
    DayKeysAreDates(list, key);
    DedupDistinct(Dates(list, key));
    DedupFirstAppearance(Dates(list, key));
  }

  /**
   * Every input item is in the bucket labelled with its date, and in no
   * other: any day holding it carries its label, so there is exactly one.
   */
  lemma EveryItemInOneDay(list: seq<ForecastItem>, key: int -> string, n: nat)
    requires n < |list|
    ensures exists i ::
      && 0 <= i < |Forecast(list, key)|
      && Forecast(list, key)[i].date == key(list[n].dt)
      && list[n] in Forecast(list, key)[i].items
    ensures forall i :: 0 <= i < |Forecast(list, key)| && list[n] in Forecast(list, key)[i].items ==>
      Forecast(list, key)[i].date == key(list[n].dt)
    ensures forall i, j ::
      && 0 <= i < |Forecast(list, key)| && 0 <= j < |Forecast(list, key)|
      && list[n] in Forecast(list, key)[i].items && list[n] in Forecast(list, key)[j].items
      ==> i == j
  {
    var days, ks, d := Forecast(list, key), DayKeys(list, key), key(list[n].dt);
    assert Dates(list, key)[n] == d;
    DedupMembership(Dates(list, key), d);
    var i :| 0 <= i < |ks| && ks[i] == d;
    ForecastDay(list, key, i);
    var ps := Positions(list, key, d);
    var k :| 0 <= k < |ps| && ps[k] == n;
    ItemsOnPositions(list, key, d);
    assert days[i].items[k] == list[n];
    forall j | 0 <= j < |days| && list[n] in days[j].items ensures days[j].date == d {
      ForecastDay(list, key, j);
    }
    ForecastDateOrder(list, key);
  }

  /** The number of items over all days. */
  function TotalItems(days: seq<DailyForecast>): nat {
    if days == [] then 0
    else TotalItems(days[..|days| - 1]) + |days[|days| - 1].items|
  }

  lemma {:induction false} TotalItemsOfDaysFor(list: seq<ForecastItem>, key: int -> string, ks: seq<string>)
    ensures TotalItems(DaysFor(list, key, ks)) == Occurrences(Dates(list, key), ks)
  {
    if ks != [] {
      var p := ks[..|ks| - 1];
      var days := DaysFor(list, key, ks);
      TotalItemsOfDaysFor(list, key, p);
      assert days[..|days| - 1] == DaysFor(list, key, p);
    }
  }

  /** The grouping neither loses nor duplicates an item. */
  lemma ForecastKeepsEveryItem(list: seq<ForecastItem>, key: int -> string)
    ensures TotalItems(Forecast(list, key)) == |list|
  {
    DayKeysAreDates(list, key);
    TotalItemsOfDaysFor(list, key, DayKeys(list, key));
    OccurrencesOfDedup(Dates(list, key));
  }

  // ---------------------------------------------------------------------
  // The per-day summary
  // ---------------------------------------------------------------------

  /** The day's bounds bound every item's temperature and are attained. */
  lemma SummaryTemperatures(date: string, items: seq<ForecastItem>)
    requires |items| > 0
    ensures forall i :: 0 <= i < |items| ==>
      Summary(date, items).minTemp <= items[i].temp <= Summary(date, items).maxTemp
    ensures exists i :: 0 <= i < |items| && Summary(date, items).minTemp == items[i].temp
    ensures exists i :: 0 <= i < |items| && Summary(date, items).maxTemp == items[i].temp
    ensures |items| == 1 ==> Summary(date, items).minTemp == Summary(date, items).maxTemp == items[0].temp
  {
    MinTempIsMinimum(items);
    MaxTempIsMaximum(items);
  }

  /**
   * The day's category is a category of one of its items and occurs at least
   * as often as any other; a different category that occurs as often first
   * occurs earlier, since the tally lists categories in order of first
   * occurrence and the last of the most frequent ones wins.
   */
  lemma MainWeatherIsMostFrequent(date: string, items: seq<ForecastItem>)
    requires |items| > 0
    ensures Summary(date, items).mainWeather in Mains(items)
    ensures forall c :: c in Mains(items) ==>
      Count(Mains(items), c) <= Count(Mains(items), Summary(date, items).mainWeather)
    ensures forall c ::
      && c in Mains(items) && c != Summary(date, items).mainWeather
      && Count(Mains(items), c) == Count(Mains(items), Summary(date, items).mainWeather)
      ==> FirstIndex(Mains(items), c) < FirstIndex(Mains(items), Summary(date, items).mainWeather)
  {
    var ms := Mains(items);
    var cats, counts := Dedup(ms), Tally(items);
    CategoriesTallied(items);
    var k := MostFrequentIndex(cats, counts);
    MostFrequentIndexIsLastMaximum(cats, counts);
    TallyOfCounts(ms);
    var main := cats[k];
    assert Summary(date, items).mainWeather == main;
    DedupFirstAppearance(ms);
    forall c | c in ms
      ensures Count(ms, c) <= Count(ms, main)
      ensures c != main && Count(ms, c) == Count(ms, main) ==> FirstIndex(ms, c) < FirstIndex(ms, main)
    {
      DedupMembership(ms, c);
      var j :| 0 <= j < |cats| && cats[j] == c;
      assert counts[c] == Count(ms, c) && counts[main] == Count(ms, main);
    }
  }

  /**
   * The day's icon is that of the first item of the day's category, or the
   * first item's icon when that one is the empty string.
   */
  lemma DayIconChoice(date: string, items: seq<ForecastItem>)
    requires |items| > 0
    ensures Summary(date, items).mainWeather in Mains(items)
    ensures var f := FirstIndex(Mains(items), Summary(date, items).mainWeather);
      Summary(date, items).icon == if items[f].icon != "" then items[f].icon else items[0].icon
  {
    MainWeatherIsMostFrequent(date, items);
    var main := Summary(date, items).mainWeather;
    var f := FirstIndex(Mains(items), main);
    assert items[f].weatherMain == main;
    FindMainIsFirst(items, main);
    match FindMain(items, main)
    case Some(g) =>
      assert Mains(items)[g] == main;
    case None =>
      assert false;
  }

  /** An item of the given category; the other fields do not matter to the tally. */
  function Item(main: string): ForecastItem {
    ForecastItem(0, 0.0, main, "", 0.0, false, false)
  }

  /** Of two categories occurring once each (`["Clouds", "Rain"]`), the second wins. */
  lemma TieExampleTwo(date: string, a: string, b: string)
    requires a != b
    ensures Summary(date, [Item(a), Item(b)]).mainWeather == b
  {
    var items := [Item(a), Item(b)];
    var ms := Mains(items);
    assert ms == [a] + [b];
    CountAppend([a], b, a);
    CountAppend([a], b, b);
    assert FirstIndex(ms, a) == 0;
    MainWeatherIsMostFrequent(date, items);
  }

  /** The more frequent category wins whatever its position (`["Clouds", "Rain", "Rain"]`). */
  lemma MajorityExample(date: string, a: string, b: string)
    requires a != b
    ensures Summary(date, [Item(a), Item(b), Item(b)]).mainWeather == b
  {
    var items := [Item(a), Item(b), Item(b)];
    var ms := Mains(items);
    assert ms == [a, b] + [b];
    assert [a, b] == [a] + [b];
    CountAppend([a, b], b, a);
    CountAppend([a, b], b, b);
    CountAppend([a], b, a);
    CountAppend([a], b, b);
    MainWeatherIsMostFrequent(date, items);
  }

  /**
   * A tie goes to the category entered last into the tally, which is the one
   * whose first occurrence is later, not the one that occurs last
   * (`["Rain", "Clouds", "Clouds", "Rain"]` gives "Clouds").
   */
  lemma TieExampleFour(date: string, a: string, b: string)
    requires a != b
    ensures Summary(date, [Item(a), Item(b), Item(b), Item(a)]).mainWeather == b
  {
    var items := [Item(a), Item(b), Item(b), Item(a)];
    var ms := Mains(items);
    assert ms == [a, b, b] + [a];
    assert [a, b, b] == [a, b] + [b];
    assert [a, b] == [a] + [b];
    CountAppend([a, b, b], a, a);
    CountAppend([a, b, b], a, b);
    CountAppend([a, b], b, a);
    CountAppend([a, b], b, b);
    CountAppend([a], b, a);
    CountAppend([a], b, b);
    assert FirstIndex(ms, a) == 0;
    MainWeatherIsMostFrequent(date, items);
  }
}
