/**
 * The five-day forecast: the 3-hourly entries of a forecast answer are grouped
 * by date, the dates are sorted, each day gets its lowest minimum, highest
 * maximum and a representative entry, and the first five days are kept.
 * Also the one-open-at-a-time toggle of the day cards.
 */
module Forecast {
  import opened Wrappers
  import opened Strings

  /** One 3-hourly entry: its `dt_txt` ("yyyy-MM-dd HH:mm:ss") and `main.temp_min` / `main.temp_max`. */
  datatype Entry = Entry(dtTxt: string, tempMin: int, tempMax: int)

  /** The `list` property of the `data` prop. */
  datatype ListField = ListMissing | ListNotArray | ListArray(entries: seq<Entry>)

  /** The `data` prop: absent (or falsy), or an object with a `list`. */
  datatype ForecastData = NoData | Data(list: ListField)

  /** One output day: its date key, representative entry, and temperature range. */
  datatype DailyForecast = DailyForecast(date: string, item: Entry, min: int, max: int)

  /** What the component shows: the "Forecast data unavailable." message or the days. */
  datatype ForecastView = Unavailable | Days(days: seq<DailyForecast>)

  /** The date an entry belongs to: the "yyyy-MM-dd" part of its `dt_txt`. */
  function DateKey(e: Entry): string {
    Prefix(e.dtTxt, 10)
  }

  /** The date keys that occur in `list`. */
  function KeysOf(list: seq<Entry>): set<string> {
    set e | e in list :: DateKey(e)
  }

  /** The entries of `list` with date key `k`, in their original order. */
  function WithKey(list: seq<Entry>, k: string): seq<Entry> {
    if list == [] then []
    else WithKey(list[..|list| - 1], k) + (if DateKey(list[|list| - 1]) == k then [list[|list| - 1]] else [])
  }

  /** A group holds exactly the entries of the list with its date key. */
  lemma {:induction false} WithKeyMembers(list: seq<Entry>, k: string, e: Entry)
    ensures e in WithKey(list, k) <==> e in list && DateKey(e) == k
  {
    if list != [] {
      var init := list[..|list| - 1];
      WithKeyMembers(init, k, e);
      assert list == init + [list[|list| - 1]];
    }
  }

  /** Appending an entry extends its own group and no other. */
  lemma WithKeySnoc(list: seq<Entry>, e: Entry, k: string)
    ensures WithKey(list + [e], k) == WithKey(list, k) + (if DateKey(e) == k then [e] else [])
  {
    assert (list + [e])[..|list|] == list;
  }

  predicate Distinct(s: seq<string>) {
    forall i, j :: 0 <= i < j < |s| ==> s[i] != s[j]
  }

  /**
   * The `grouped` reduce: one pass over the list that appends each entry to
   * the group of its date key, creating the group the first time the key is
   * seen. `order` is the order in which keys were created, as
   * `Object.entries` lists them. Every entry lands in the group of its own key
   * and in no other, in its original order.
   */
  method GroupByDate(list: seq<Entry>) returns (order: seq<string>, groups: map<string, seq<Entry>>)
    ensures Distinct(order)
    ensures forall k :: k in groups <==> k in order
    ensures forall k :: k in order <==> k in KeysOf(list)
    ensures forall k :: k in groups ==> groups[k] == WithKey(list, k) && groups[k] != []
  {
    order, groups := [], map[];
    for i := 0 to |list|
      invariant Distinct(order)
      invariant forall k :: k in groups <==> k in order
      invariant forall k :: k in order <==> k in KeysOf(list[..i])
      invariant forall k :: k in groups ==> groups[k] == WithKey(list[..i], k) && groups[k] != []
    {
      var entry := list[i];
      var k := DateKey(entry);
      assert list[..i + 1] == list[..i] + [entry];
      assert KeysOf(list[..i + 1]) == KeysOf(list[..i]) + {k};
      forall k' ensures WithKey(list[..i + 1], k') == WithKey(list[..i], k') + (if k == k' then [entry] else []) {
        WithKeySnoc(list[..i], entry, k');
      }
      if k in groups {
        groups := groups[k := groups[k] + [entry]];
      } else {
        if WithKey(list[..i], k) != [] {
          WithKeyMembers(list[..i], k, WithKey(list[..i], k)[0]);
        }
        order := order + [k];
        groups := groups[k := [entry]];
      }
    }
    assert list[..|list|] == list;
  }

  predicate Ascending(s: seq<string>) {
    forall i, j :: 0 <= i < j < |s| ==> Less(s[i], s[j])
  }

  /** Inserts a new key into an ascending list of keys. */
  function Insert(k: string, s: seq<string>): (r: seq<string>)
    requires Ascending(s) && k !in s
    ensures Ascending(r)
    ensures multiset(r) == multiset(s) + multiset{k}
  {
    if s == [] then [k]
    else if Less(k, s[0]) then
      assert forall j :: 0 < j < |s| ==> Less(k, s[j]) by {
        forall j | 0 < j < |s| ensures Less(k, s[j]) { LessTransitive(k, s[0], s[j]); }
      }
      [k] + s
    else
      LessTotal(k, s[0]);
      var t := Insert(k, s[1..]);
      assert s == [s[0]] + s[1..];
      assert forall j :: 0 <= j < |t| ==> Less(s[0], t[j]) by {
        forall j | 0 <= j < |t| ensures Less(s[0], t[j]) {
          assert t[j] in multiset(t);
          if t[j] != k {
            assert t[j] in multiset(s[1..]);
            var m :| 0 <= m < |s[1..]| && s[1..][m] == t[j];
            assert s[m + 1] == t[j];
          }
        }
      }
      [s[0]] + t
  }

  /**
   * `Object.entries(grouped).sort(...)` on the keys: since keys are distinct the
   * comparator never answers 0, so every sorting algorithm gives this order.
   */
  function SortKeys(keys: seq<string>): (r: seq<string>)
    requires Distinct(keys)
    ensures Ascending(r)
    ensures multiset(r) == multiset(keys)
  {
    if keys == [] then []
    else
      var rest := SortKeys(keys[1..]);
      assert keys == [keys[0]] + keys[1..];
      assert keys[0] !in multiset(keys[1..]);
      Insert(keys[0], rest)
  }

  /** `Math.min(...items.map(i => i.main.temp_min))`. */
  function MinTemp(items: seq<Entry>): (r: int)
    requires items != []
    ensures forall e :: e in items ==> r <= e.tempMin
    ensures exists e :: e in items && r == e.tempMin
  {
    if |items| == 1 then items[0].tempMin
    else
      var rest := MinTemp(items[1..]);
      assert items == [items[0]] + items[1..];
      if items[0].tempMin <= rest then items[0].tempMin else rest
  }

  /** `Math.max(...items.map(i => i.main.temp_max))`. */
  function MaxTemp(items: seq<Entry>): (r: int)
    requires items != []
    ensures forall e :: e in items ==> e.tempMax <= r
    ensures exists e :: e in items && r == e.tempMax
  {
    if |items| == 1 then items[0].tempMax
    else
      var rest := MaxTemp(items[1..]);
      assert items == [items[0]] + items[1..];
      if items[0].tempMax >= rest then items[0].tempMax else rest
  }

  /** The entry for midday, `dt_txt.includes("12:00:00")`. */
  predicate IsNoon(e: Entry) {
    Includes(e.dtTxt, "12:00:00")
  }

  /** `items.findIndex(IsNoon)`, with `None` for -1. */
  function FindNoon(items: seq<Entry>): (r: Option<nat>)
    ensures r.Some? ==> r.value < |items| && IsNoon(items[r.value])
    ensures r.Some? ==> forall j :: 0 <= j < r.value ==> !IsNoon(items[j])
    ensures r.None? ==> forall j :: 0 <= j < |items| ==> !IsNoon(items[j])
  {
    if items == [] then None
    else if IsNoon(items[0]) then Some(0)
    else
      match FindNoon(items[1..])
      case None => None
      case Some(i) => Some(i + 1)
  }

  /**
   * The day's representative entry: the first midday entry, otherwise the
   * entry in the middle of the group. It always belongs to the group.
   */
  function Representative(items: seq<Entry>): (r: Entry)
    requires items != []
    ensures r in items
    ensures (exists j :: 0 <= j < |items| && IsNoon(items[j])) ==>
      exists i :: 0 <= i < |items| && r == items[i] && IsNoon(r) && forall j :: 0 <= j < i ==> !IsNoon(items[j])
    ensures (forall j :: 0 <= j < |items| ==> !IsNoon(items[j])) ==> r == items[|items| / 2]
  {
    match FindNoon(items)
    case Some(i) => items[i]
    case None => items[|items| / 2]
  }

  /** The summary of one day: its date, representative entry and temperature range. */
  function Summarize(date: string, items: seq<Entry>): (r: DailyForecast)
    requires items != []
    ensures r.date == date && r.item == Representative(items) && r.item in items
    ensures forall e :: e in items ==> r.min <= e.tempMin && e.tempMax <= r.max
    ensures (exists e :: e in items && r.min == e.tempMin) && (exists e :: e in items && r.max == e.tempMax)
  {
    DailyForecast(date, Representative(items), MinTemp(items), MaxTemp(items))
  }

  /** `.slice(0, 5)`. */
  function TakeFive(days: seq<DailyForecast>): (r: seq<DailyForecast>)
    ensures |r| == if |days| < 5 then |days| else 5
    ensures r == days[..|r|]
  {
    if |days| <= 5 then days else days[..5]
  }

  /** What a day of the output promises about the group of its date. */
  predicate SummarizesGroup(d: DailyForecast, list: seq<Entry>) {
    var items := WithKey(list, d.date);
    && d.date in KeysOf(list)
    && items != [] && d.item == Representative(items)
    && d.item in items && DateKey(d.item) == d.date
    && (forall e :: e in items ==> d.min <= e.tempMin && e.tempMax <= d.max)
    && (exists e :: e in items && d.min == e.tempMin)
    && (exists e :: e in items && d.max == e.tempMax)
  }

  /** Output dates strictly ascend, so no date appears twice. */
  predicate AscendingDates(days: seq<DailyForecast>) {
    forall i, j :: 0 <= i < j < |days| ==> Less(days[i].date, days[j].date)
  }

  /** Every date of the list is shown, or five days are shown and all of them come before it. */
  predicate EarliestDates(days: seq<DailyForecast>, list: seq<Entry>) {
    forall k :: k in KeysOf(list) ==>
      (exists i :: 0 <= i < |days| && days[i].date == k)
      || (|days| == 5 && forall i :: 0 <= i < |days| ==> Less(days[i].date, k))
  }

  /** The `map` step: one summary per sorted date, from that date's group. */
  function Summaries(sorted: seq<string>, grouped: map<string, seq<Entry>>): (r: seq<DailyForecast>)
    requires forall k :: k in sorted ==> k in grouped && grouped[k] != []
    ensures |r| == |sorted|
    ensures forall i :: 0 <= i < |r| ==> r[i] == Summarize(sorted[i], grouped[sorted[i]])
  {
    if sorted == [] then []
    else [Summarize(sorted[0], grouped[sorted[0]])] + Summaries(sorted[1..], grouped)
  }

  /** The first five summaries of the sorted dates: as many as there are dates, up to five. */
  lemma FirstFiveCount(list: seq<Entry>, sorted: seq<string>, grouped: map<string, seq<Entry>>)
    requires Ascending(sorted)
    requires forall k :: k in sorted <==> k in KeysOf(list)
    requires forall k :: k in sorted ==> k in grouped && grouped[k] != []
    ensures |TakeFive(Summaries(sorted, grouped))| == (if |KeysOf(list)| < 5 then |KeysOf(list)| else 5)
    ensures AscendingDates(TakeFive(Summaries(sorted, grouped)))
  {
    DistinctCount(sorted, KeysOf(list));
  }

  /** Each of the first five summaries summarizes the group of its date. */
  lemma FirstFiveSummarize(list: seq<Entry>, sorted: seq<string>, grouped: map<string, seq<Entry>>)
    requires forall k :: k in sorted ==> k in KeysOf(list)
    requires forall k :: k in KeysOf(list) ==> k in grouped && grouped[k] == WithKey(list, k) && grouped[k] != []
    ensures forall i :: 0 <= i < |TakeFive(Summaries(sorted, grouped))| ==>
      SummarizesGroup(TakeFive(Summaries(sorted, grouped))[i], list)
  {
    var days := TakeFive(Summaries(sorted, grouped));
    forall i | 0 <= i < |days|
      ensures SummarizesGroup(days[i], list)
    {
      var d := Summarize(sorted[i], grouped[sorted[i]]);
      assert days[i] == d;
      WithKeyMembers(list, sorted[i], d.item);
    }
  }

  /** The first five summaries of the sorted dates are the earliest dates of the list. */
  lemma FirstFiveEarliest(list: seq<Entry>, sorted: seq<string>, grouped: map<string, seq<Entry>>)
    requires Ascending(sorted)
    requires forall k :: k in sorted <==> k in KeysOf(list)
    requires forall k :: k in sorted ==> k in grouped && grouped[k] != []
    ensures EarliestDates(TakeFive(Summaries(sorted, grouped)), list)
  {
    var days := TakeFive(Summaries(sorted, grouped));
    assert forall i :: 0 <= i < |days| ==> days[i].date == sorted[i];
    forall k | k in KeysOf(list)
      ensures (exists i :: 0 <= i < |days| && days[i].date == k)
              || (|days| == 5 && forall i :: 0 <= i < |days| ==> Less(days[i].date, k))
    {
      var j :| 0 <= j < |sorted| && sorted[j] == k;
      if j < |days| {
        assert days[j].date == k;
      } else {
        assert |days| == 5;
        forall i | 0 <= i < |days|
          ensures Less(days[i].date, k)
        {
          assert days[i].date == sorted[i];
        }
      }
    }
  }

  /**
   * The daily forecast pipeline of the component. Without a `data` prop with a
   * `list` array the view is unavailable. Otherwise the output days have
   * strictly ascending, hence distinct, dates; there are at most five of them
   * and they are the earliest five dates of the list: every date of the list
   * that is left out comes after all five shown. Each day summarizes the
   * entries of its own date.
   */
  method DailyForecasts(data: ForecastData) returns (view: ForecastView)
    ensures view.Unavailable? <==> !(data.Data? && data.list.ListArray?)
    ensures view.Days? ==>
      var list := data.list.entries;
      && |view.days| == (if |KeysOf(list)| < 5 then |KeysOf(list)| else 5)
      && AscendingDates(view.days)
      && (forall i :: 0 <= i < |view.days| ==> SummarizesGroup(view.days[i], list))
      && EarliestDates(view.days, list)
  {
    if data.NoData? || !data.list.ListArray? {
      return Unavailable;
    }
    var list := data.list.entries;
    var order, grouped := GroupByDate(list);
    var sorted := SortKeys(order);
    assert forall k :: k in sorted <==> k in KeysOf(list) by {
      forall k ensures k in sorted <==> k in KeysOf(list) {
        assert k in sorted <==> k in multiset(sorted);
        assert k in order <==> k in multiset(order);
      }
    }
    FirstFiveCount(list, sorted, grouped);
    FirstFiveSummarize(list, sorted, grouped);
    FirstFiveEarliest(list, sorted, grouped);
    view := Days(TakeFive(Summaries(sorted, grouped)));
  }

  /** An ascending list of keys holding exactly the keys of a set has one entry per key. */
  lemma {:induction false} DistinctCount(s: seq<string>, keys: set<string>)
    requires Ascending(s)
    requires forall k :: k in s <==> k in keys
    ensures |s| == |keys|
    decreases |s|
  {
    if s != [] {
      var rest := s[1..];
      assert forall k :: k in rest <==> k in keys - {s[0]} by {
        forall k ensures k in rest <==> k in keys - {s[0]} {
          if k in rest {
            var m :| 0 <= m < |rest| && rest[m] == k;
            assert Less(s[0], s[m + 1]);
            LessIrreflexive(s[0]);
          }
          if k in keys - {s[0]} {
            var m :| 0 <= m < |s| && s[m] == k;
            assert m != 0;
            assert rest[m - 1] == k;
          }
        }
      }
      DistinctCount(rest, keys - {s[0]});
    } else {
      assert keys == {};
    }
  }

  /** The component's `openIndex` state: which day card shows its details. */
  class DayCards {
    var openIndex: Option<int>

    constructor ()
      ensures openIndex == None
    {
      openIndex := None;
    }

    predicate IsOpen(index: int)
      reads this
    {
      openIndex == Some(index)
    }

    /**
     * `toggleDetails`: closes the card if it was open, opens it (and closes any
     * other) if not. At most one card is open afterwards.
     */
    method ToggleDetails(index: int)
      modifies this
      ensures IsOpen(index) <==> !old(IsOpen(index))
      ensures forall j :: IsOpen(j) ==> j == index
    {
      openIndex := if openIndex == Some(index) then None else Some(index);
    }
  }
}
