/**
 * The day grouping of the five-day forecast and its per-day summary.
 *
 * A flat list of three-hourly forecast items is folded into buckets keyed by
 * the date label of each item's timestamp. Buckets appear in the order in
 * which their label first occurs. Each bucket gets its minimum and maximum
 * temperature, the weather category that occurs most often (of several such,
 * the one entered last into the tally), and an icon. The date label
 * function, locale formatting in the source, is the parameter `key`.
 */
module WeatherForecast {
  import opened Wrappers
  import opened Seqs

  /**
   * A forecast item, reduced to what the grouping and the day header read:
   * the timestamp, `main.temp`, `weather[0].main`, `weather[0].icon`, the
   * probability of precipitation and whether `rain` and `snow` are present.
   */
  datatype ForecastItem = ForecastItem(
    dt: int,
    temp: real,
    weatherMain: string,
    icon: string,
    pop: real,
    hasRain: bool,
    hasSnow: bool)

  /** One day of the forecast as the grouping returns it. */
  datatype DailyForecast = DailyForecast(
    date: string,
    items: seq<ForecastItem>,
    minTemp: real,
    maxTemp: real,
    mainWeather: string,
    icon: string)

  // ---------------------------------------------------------------------
  // Specification of the grouping
  // ---------------------------------------------------------------------

  /** The date label of every item, in input order. */
  function Dates(list: seq<ForecastItem>, key: int -> string): seq<string> {
    seq(|list|, i requires 0 <= i < |list| => key(list[i].dt))
  }

  /** The bucket labels: each date label once, in order of first appearance. */
  function DayKeys(list: seq<ForecastItem>, key: int -> string): seq<string> {
    Dedup(Dates(list, key))
  }

  /** The items whose date label is `date`, in input order. */
  function ItemsOn(list: seq<ForecastItem>, key: int -> string, date: string): (items: seq<ForecastItem>)
    ensures |items| == Count(Dates(list, key), date)
    ensures forall i :: 0 <= i < |items| ==> key(items[i].dt) == date
  {
    if list == [] then []
    else
      var p := list[..|list| - 1];
      assert Dates(list, key)[..|list| - 1] == Dates(p, key);
      ItemsOn(p, key, date) + (if key(list[|list| - 1].dt) == date then [list[|list| - 1]] else [])
  }

  /** The weather category of every item, in order. */
  function Mains(items: seq<ForecastItem>): seq<string> {
    seq(|items|, i requires 0 <= i < |items| => items[i].weatherMain)
  }

  /** Taking one more item adds its category at the end. */
  lemma MainsSnoc(items: seq<ForecastItem>, i: nat)
    requires i < |items|
    ensures Mains(items[..i + 1]) == Mains(items[..i]) + [items[i].weatherMain]
  {
  }

  /** Taking one more item adds its date label at the end. */
  lemma DatesSnoc(list: seq<ForecastItem>, key: int -> string, i: nat)
    requires i < |list|
    ensures Dates(list[..i + 1], key) == Dates(list[..i], key) + [key(list[i].dt)]
  {
  }

  /**
   * The tally of a list of categories, one entry at a time: an absent
   * category counts as 0 before it is incremented.
   */
  function TallyOf(ms: seq<string>): (counts: map<string, nat>)
    ensures forall c :: c in counts <==> c in ms
  {
    if ms == [] then map[]
    else
      var p, w := ms[..|ms| - 1], ms[|ms| - 1];
      var counts := TallyOf(p);
      assert ms == p + [w];
      counts[w := (if w in counts then counts[w] else 0) + 1]
  }

  /** Each tally entry is the number of occurrences of its category. */
  lemma {:induction false} TallyOfCounts(ms: seq<string>)
    ensures forall c :: c in TallyOf(ms) ==> TallyOf(ms)[c] == Count(ms, c)
  {
    if ms != [] {
      var p, w := ms[..|ms| - 1], ms[|ms| - 1];
      assert ms == p + [w];
      TallyOfCounts(p);
      forall c ensures Count(ms, c) == Count(p, c) + (if w == c then 1 else 0) {
        CountAppend(p, w, c);
      }
    }
  }

  /** The tally of the categories of a bucket's items. */
  function Tally(items: seq<ForecastItem>): map<string, nat> {
    TallyOf(Mains(items))
  }

  // ---------------------------------------------------------------------
  // The per-day summary: pure parts
  // ---------------------------------------------------------------------

  /** `Math.min(...temps)`. */
  function MinTemp(items: seq<ForecastItem>): real
    requires |items| > 0
  {
    if |items| == 1 then items[0].temp
    else
      var m := MinTemp(items[..|items| - 1]);
      var t := items[|items| - 1].temp;
      if t < m then t else m
  }

  /** `Math.max(...temps)`. */
  function MaxTemp(items: seq<ForecastItem>): real
    requires |items| > 0
  {
    if |items| == 1 then items[0].temp
    else
      var m := MaxTemp(items[..|items| - 1]);
      var t := items[|items| - 1].temp;
      if t > m then t else m
  }

  /** `MinTemp` is at most every temperature and equals one of them. */
  lemma {:induction false} MinTempIsMinimum(items: seq<ForecastItem>)
    requires |items| > 0
    ensures forall i :: 0 <= i < |items| ==> MinTemp(items) <= items[i].temp
    ensures exists i :: 0 <= i < |items| && MinTemp(items) == items[i].temp
  {
    if |items| > 1 {
      var p := items[..|items| - 1];
      MinTempIsMinimum(p);
      var i :| 0 <= i < |p| && MinTemp(p) == p[i].temp;
      var last := |items| - 1;
      if items[last].temp < MinTemp(p) {
        assert MinTemp(items) == items[last].temp;
      } else {
        assert items[i] == p[i] && MinTemp(items) == items[i].temp;
      }
    } else {
      assert MinTemp(items) == items[0].temp;
    }
  }

  /** `MaxTemp` is at least every temperature and equals one of them. */
  lemma {:induction false} MaxTempIsMaximum(items: seq<ForecastItem>)
    requires |items| > 0
    ensures forall i :: 0 <= i < |items| ==> items[i].temp <= MaxTemp(items)
    ensures exists i :: 0 <= i < |items| && MaxTemp(items) == items[i].temp
  {
    if |items| > 1 {
      var p := items[..|items| - 1];
      MaxTempIsMaximum(p);
      var i :| 0 <= i < |p| && MaxTemp(p) == p[i].temp;
      var last := |items| - 1;
      if items[last].temp > MaxTemp(p) {
        assert MaxTemp(items) == items[last].temp;
      } else {
        assert items[i] == p[i] && MaxTemp(items) == items[i].temp;
      }
    } else {
      assert MaxTemp(items) == items[0].temp;
    }
  }

  /**
   * The tally entry that the pairwise `reduce` keeps: it replaces the entry it
   * holds by the next one unless the one it holds has the strictly larger
   * count. The result has the largest count, and every later entry has a
   * strictly smaller one, so of several entries with the largest count the
   * last wins.
   */
  function MostFrequentIndex(cats: seq<string>, counts: map<string, nat>): (k: nat)
    requires |cats| > 0
    requires forall i :: 0 <= i < |cats| ==> cats[i] in counts
    ensures k < |cats|
  {
    if |cats| == 1 then 0
    else
      var a := MostFrequentIndex(cats[..|cats| - 1], counts);
      var b := |cats| - 1;
      if counts[cats[a]] > counts[cats[b]] then a else b
  }

  /**
   * The kept entry has the largest count, and every later entry has a
   * strictly smaller one: of several entries with the largest count the last
   * wins.
   */
  lemma {:induction false} MostFrequentIndexIsLastMaximum(cats: seq<string>, counts: map<string, nat>)
    requires |cats| > 0
    requires forall i :: 0 <= i < |cats| ==> cats[i] in counts
    ensures var k := MostFrequentIndex(cats, counts);
      && (forall j :: 0 <= j < |cats| ==> counts[cats[j]] <= counts[cats[k]])
      && (forall j :: k < j < |cats| ==> counts[cats[j]] < counts[cats[k]])
  {
    if |cats| > 1 {
      MostFrequentIndexIsLastMaximum(cats[..|cats| - 1], counts);
    }
  }

  /** `items.find(...)`: the first item of category `main`, by index. */
  function FindMain(items: seq<ForecastItem>, main: string): (r: Option<nat>)
    ensures r.Some? ==> r.value < |items|
  {
    if items == [] then None
    else if items[0].weatherMain == main then Some(0)
    else
      match FindMain(items[1..], main)
      case None => None
      case Some(i) => Some(i + 1)
  }

  /** `FindMain` finds the first item of the category, and fails only when there is none. */
  lemma {:induction false} FindMainIsFirst(items: seq<ForecastItem>, main: string)
    ensures var r := FindMain(items, main);
      && (r.Some? ==> items[r.value].weatherMain == main)
      && (r.Some? ==> forall j :: 0 <= j < r.value ==> items[j].weatherMain != main)
      && (r.None? ==> forall j :: 0 <= j < |items| ==> items[j].weatherMain != main)
  {
    if items != [] && items[0].weatherMain != main {
      FindMainIsFirst(items[1..], main);
    }
  }

  /**
   * `iconItem?.weather[0].icon || items[0].weather[0].icon`: the icon of the
   * first item of the chosen category, unless there is none or its icon is
   * the empty string.
   */
  function DayIcon(items: seq<ForecastItem>, main: string): string
    requires |items| > 0
  {
    match FindMain(items, main)
    case Some(i) => if items[i].icon != "" then items[i].icon else items[0].icon
    case None => items[0].icon
  }

  /** A non-empty bucket has categories, and each of them is in the tally. */
  lemma CategoriesTallied(items: seq<ForecastItem>)
    requires |items| > 0
    ensures |Dedup(Mains(items))| > 0
    ensures forall i :: 0 <= i < |Dedup(Mains(items))| ==> Dedup(Mains(items))[i] in Tally(items)
  {
    var cats := Dedup(Mains(items));
    DedupMembership(Mains(items), Mains(items)[0]);
    forall i | 0 <= i < |cats| ensures cats[i] in Tally(items) {
      DedupMembership(Mains(items), cats[i]);
    }
  }

  /** The summary of one bucket. */
  function Summary(date: string, items: seq<ForecastItem>): DailyForecast
    requires |items| > 0
  {
    CategoriesTallied(items);
    var cats := Dedup(Mains(items));
    var main := cats[MostFrequentIndex(cats, Tally(items))];
    DailyForecast(date, items, MinTemp(items), MaxTemp(items), main, DayIcon(items, main))
  }

  /**
   * The summary of the bucket labelled `date`. A label that no item carries
   * has no bucket and never reaches this function from `Forecast`; it gets
   * an empty day so that `DaysFor` needs no precondition.
   */
  function DayOf(list: seq<ForecastItem>, key: int -> string, date: string): DailyForecast {
    var items := ItemsOn(list, key, date);
    if items == [] then DailyForecast(date, [], 0.0, 0.0, "", "")
    else Summary(date, items)
  }

  /** The summaries of the buckets labelled `ks`, in the order of `ks`. */
  function DaysFor(list: seq<ForecastItem>, key: int -> string, ks: seq<string>): (days: seq<DailyForecast>)
    ensures |days| == |ks|
  {
    if ks == [] then []
    else DaysFor(list, key, ks[..|ks| - 1]) + [DayOf(list, key, ks[|ks| - 1])]
  }

  lemma DayKeysAreDates(list: seq<ForecastItem>, key: int -> string)
    ensures forall j :: 0 <= j < |DayKeys(list, key)| ==> DayKeys(list, key)[j] in Dates(list, key)
  {
    forall j | 0 <= j < |DayKeys(list, key)| ensures DayKeys(list, key)[j] in Dates(list, key) {
      DedupMembership(Dates(list, key), DayKeys(list, key)[j]);
    }
  }

  /** What `groupForecastByDay` returns. */
  function Forecast(list: seq<ForecastItem>, key: int -> string): (days: seq<DailyForecast>)
    ensures |days| == |DayKeys(list, key)|
  {
    DaysFor(list, key, DayKeys(list, key))
  }

  // ---------------------------------------------------------------------
  // The operations
  // ---------------------------------------------------------------------

  /** One more item extends its own date's bucket, and adds its date if new. */
  lemma GroupStep(list: seq<ForecastItem>, key: int -> string, i: nat)
    requires i < |list|
    ensures forall d ::
      ItemsOn(list[..i + 1], key, d) == ItemsOn(list[..i], key, d) + (if key(list[i].dt) == d then [list[i]] else [])
    ensures var ks, date := DayKeys(list[..i], key), key(list[i].dt);
      DayKeys(list[..i + 1], key) == if date in ks then ks else ks + [date]
    ensures key(list[i].dt) !in DayKeys(list[..i], key) ==> ItemsOn(list[..i], key, key(list[i].dt)) == []
  {
    TakeSnoc(list, i);
    DatesSnoc(list, key, i);
    DedupAppend(Dates(list[..i], key), key(list[i].dt));
    DedupMembership(Dates(list[..i], key), key(list[i].dt));
  }

  /**
   * The `reduce` that fills the `Record<string, ForecastItem[]>`: `dates` is
   * the record's key order, `groups` its contents.
   */
  method GroupByDate(list: seq<ForecastItem>, key: int -> string)
    returns (dates: seq<string>, groups: map<string, seq<ForecastItem>>)
    ensures dates == DayKeys(list, key)
    ensures forall d :: d in groups <==> d in dates
    ensures forall d :: d in groups ==> groups[d] == ItemsOn(list, key, d)
  {
    dates, groups := [], map[];
    for i := 0 to |list|
      invariant dates == DayKeys(list[..i], key)
      invariant forall d :: d in groups <==> d in dates
      invariant forall d :: d in groups ==> groups[d] == ItemsOn(list[..i], key, d)
    {
      var item := list[i];
      var date := key(item.dt);
      GroupStep(list, key, i);
      if date !in groups {
        groups := groups[date := []];
        dates := dates + [date];
      }
      groups := groups[date := groups[date] + [item]];
    }
    assert list[..|list|] == list;
  }

  /** One step of the tally fold, on the specification side. */
  lemma TallyStep(ms: seq<string>, w: string)
    ensures var before := TallyOf(ms);
      && TallyOf(ms + [w]) == before[w := (if w in before then before[w] else 0) + 1]
      && Dedup(ms + [w]) == if w in before then Dedup(ms) else Dedup(ms) + [w]
  {
    assert (ms + [w])[..|ms|] == ms;
    DedupAppend(ms, w);
    DedupMembership(ms, w);
  }

  /** The `reduce` that fills `weatherCounts`: key order and counts. */
  method TallyWeather(items: seq<ForecastItem>) returns (cats: seq<string>, counts: map<string, nat>)
    ensures cats == Dedup(Mains(items))
    ensures counts == Tally(items)
  {
    cats, counts := [], map[];
    for i := 0 to |items|
      invariant cats == Dedup(Mains(items[..i]))
      invariant counts == TallyOf(Mains(items[..i]))
    {
      var weather := items[i].weatherMain;
      MainsSnoc(items, i);
      TallyStep(Mains(items[..i]), weather);
      if weather !in counts {
        cats := cats + [weather];
        counts := counts[weather := 1];
      } else {
        counts := counts[weather := counts[weather] + 1];
      }
    }
    assert items[..|items|] == items;
  }

  /** The `map` callback applied to one bucket. */
  method SummarizeDay(date: string, items: seq<ForecastItem>) returns (day: DailyForecast)
    requires |items| > 0
    ensures day == Summary(date, items)
  {
    var cats, counts := TallyWeather(items);
    CategoriesTallied(items);
    var main := cats[MostFrequentIndex(cats, counts)];
    day := DailyForecast(date, items, MinTemp(items), MaxTemp(items), main, DayIcon(items, main));
  }

  /**
   * One step of the `map` over the `Record`'s entries: the entry for the
   * `i`-th key is that date's non-empty bucket, and its summary is the next
   * day of the forecast.
   */
  lemma ForecastStep(list: seq<ForecastItem>, key: int -> string,
                     dates: seq<string>, groups: map<string, seq<ForecastItem>>, i: nat)
    requires dates == DayKeys(list, key) && i < |dates|
    requires forall d :: d in groups <==> d in dates
    requires forall d :: d in groups ==> groups[d] == ItemsOn(list, key, d)
    ensures dates[i] in groups && |groups[dates[i]]| > 0
    ensures DaysFor(list, key, dates[..i + 1])
      == DaysFor(list, key, dates[..i]) + [Summary(dates[i], groups[dates[i]])]
  {
    DayKeysAreDates(list, key);
    TakeSnoc(dates, i);
  }

  /** `groupForecastByDay`. */
  method GroupForecastByDay(list: seq<ForecastItem>, key: int -> string) returns (days: seq<DailyForecast>)
    ensures days == Forecast(list, key)
  {
    var dates, groups := GroupByDate(list, key);
    days := [];
    for i := 0 to |dates|
      invariant days == DaysFor(list, key, dates[..i])
    {
      ForecastStep(list, key, dates, groups, i);
      var day := SummarizeDay(dates[i], groups[dates[i]]);
      days := days + [day];
    }
    assert dates[..|dates|] == dates;
  }

  /** The "Rain Expected" chip: some item has rain, snow, or a positive chance of precipitation. */
  function RainExpected(items: seq<ForecastItem>): (r: bool)
    ensures r <==> exists i :: 0 <= i < |items| && (items[i].hasRain || items[i].hasSnow || items[i].pop > 0.0)
  {
    if items == [] then false
    else
      (items[0].hasRain || items[0].hasSnow || items[0].pop > 0.0) || RainExpected(items[1..])
  }
}
