/**
 * The Home screen's logic: grouping a forecast list into days
 * (`calculateDailyTemperatures`), the day navigation, the entries handed to the
 * Details screen on a card press, and the background image lookup.
 *
 * `dayKey` stands for `new Date(dt * 1000).toLocaleDateString("pt-BR")` in the
 * device's time zone: any function from a Unix time to a day string.
 */
module HomeScreen {
  import opened Wrappers
  import opened Text
  import opened Forecast

  // ---------------------------------------------------------------------------
  // Days of a forecast list
  // ---------------------------------------------------------------------------

  /** The distinct day keys of `list`, in order of first occurrence. */
  function DistinctDays(list: seq<ForecastItem>, dayKey: int -> string): seq<string>
  {
    if list == [] then []
    else
      var before := DistinctDays(list[..|list| - 1], dayKey);
      var k := dayKey(list[|list| - 1].dt);
      if k in before then before else before + [k]
  }

  /**
   * The entries of `list` whose day is `date`, in list order: the day's group,
   * and the `filter` of `handleCardPress`.
   */
  function DayForecasts(list: seq<ForecastItem>, dayKey: int -> string, date: string): seq<ForecastItem>
  {
    if list == [] then []
    else
      var last := list[|list| - 1];
      DayForecasts(list[..|list| - 1], dayKey, date) + if dayKey(last.dt) == date then [last] else []
  }

  /** The index of the first entry of `list` on day `date`. */
  function FirstIndex(list: seq<ForecastItem>, dayKey: int -> string, date: string): (r: nat)
    requires date in DistinctDays(list, dayKey)
    ensures r < |list|
  {
    var n := |list|;
    if date in DistinctDays(list[..n - 1], dayKey) then FirstIndex(list[..n - 1], dayKey, date) else n - 1
  }

  // ---------------------------------------------------------------------------
  // Per-day accumulation
  // ---------------------------------------------------------------------------

  /** A value of the `dailyData` dictionary. */
  datatype DayAccumulator = DayAccumulator(temps: seq<real>, minTemp: real, maxTemp: real, weather: Option<WeatherCondition>)

  /** One element of the returned array (before `toFixed(1)` rounding). */
  datatype DaySummary = DaySummary(date: string, tempMin: real, tempMax: real, tempAvg: real, weather: Option<WeatherCondition>)

  function Min(a: real, b: real): real { if a <= b then a else b }
  function Max(a: real, b: real): real { if a >= b then a else b }

  function Temps(entries: seq<ForecastItem>): (r: seq<real>)
    ensures |r| == |entries|
  {
    if entries == [] then [] else Temps(entries[..|entries| - 1]) + [entries[|entries| - 1].main.temp]
  }

  function Sum(xs: seq<real>): real
  {
    if xs == [] then 0.0 else Sum(xs[..|xs| - 1]) + xs[|xs| - 1]
  }

  function LowestMin(entries: seq<ForecastItem>): real
    requires entries != []
  {
    var n := |entries|;
    if n == 1 then entries[0].main.tempMin else Min(LowestMin(entries[..n - 1]), entries[n - 1].main.tempMin)
  }

  function HighestMax(entries: seq<ForecastItem>): real
    requires entries != []
  {
    var n := |entries|;
    if n == 1 then entries[0].main.tempMax else Max(HighestMax(entries[..n - 1]), entries[n - 1].main.tempMax)
  }

  /** What `dailyData[date]` holds once the entries of that day have been seen. */
  function Accumulated(entries: seq<ForecastItem>): DayAccumulator
    requires entries != []
  {
    DayAccumulator(Temps(entries), LowestMin(entries), HighestMax(entries), FirstWeather(entries[0]))
  }

  /** The `map` over `Object.keys(dailyData)`: averages the temperatures of one day. */
  function Summarize(date: string, acc: DayAccumulator): DaySummary
    requires acc.temps != []
  {
    DaySummary(date, acc.minTemp, acc.maxTemp, Sum(acc.temps) / |acc.temps| as real, acc.weather)
  }

  /** The grouping `calculateDailyTemperatures` computes, day by day. */
  function DailySummaries(list: seq<ForecastItem>, dayKey: int -> string): (r: seq<DaySummary>)
    ensures |r| == |DistinctDays(list, dayKey)|
  {
    var days := DistinctDays(list, dayKey);
    seq(|days|, j requires 0 <= j < |days| =>
      DistinctDaysHaveEntries(list, dayKey, days[j]);
      Summarize(days[j], Accumulated(DayForecasts(list, dayKey, days[j]))))
  }

  /** The record `forEach` creates for a new day: no temperatures yet, the entry's bounds and weather. */
  function NewAccumulator(x: ForecastItem): DayAccumulator
  {
    DayAccumulator([], x.main.tempMin, x.main.tempMax, FirstWeather(x))
  }

  /** The `push` and the two `Math.min` / `Math.max` updates of one entry. */
  function Push(acc: DayAccumulator, x: ForecastItem): DayAccumulator
  {
    DayAccumulator(acc.temps + [x.main.temp], Min(acc.minTemp, x.main.tempMin), Max(acc.maxTemp, x.main.tempMax), acc.weather)
  }

  /** `dailyData` after the `forEach` body has handled entry `x` of day `date`. */
  function Absorb(data: map<string, DayAccumulator>, x: ForecastItem, date: string): map<string, DayAccumulator>
  {
    data[date := Push(if date in data then data[date] else NewAccumulator(x), x)]
  }

  /** The `forEach` body creates the day's record when missing, then updates it. */
  lemma AbsorbSteps(data: map<string, DayAccumulator>, x: ForecastItem, date: string)
    ensures
      var created := if date in data then data else data[date := NewAccumulator(x)];
      created[date := Push(created[date], x)] == Absorb(data, x, date)
  {
    if date !in data {
      var created := data[date := NewAccumulator(x)];
      assert created[date := Push(created[date], x)] == data[date := Push(NewAccumulator(x), x)];
    }
  }

  /** `calculateDailyTemperatures`: one pass over the list filling the `dailyData` dictionary. */
  method CalculateDailyTemperatures(list: seq<ForecastItem>, dayKey: int -> string) returns (days: seq<DaySummary>)
    ensures days == DailySummaries(list, dayKey)
  {
    var dailyData: map<string, DayAccumulator> := map[];
    var order: seq<string> := [];  // the insertion order of `dailyData`'s keys
    var i := 0;
    while i < |list|
      invariant 0 <= i <= |list|
      invariant Tracks(list[..i], dayKey, dailyData, order)
    {
      ghost var data0, order0 := dailyData, order;
      var item := list[i];
      var date := dayKey(item.dt);
      if date !in dailyData {
        dailyData := dailyData[date := NewAccumulator(item)];
        order := order + [date];
      }
      dailyData := dailyData[date := Push(dailyData[date], item)];
      AbsorbSteps(data0, item, date);
      assert list[..i + 1] == list[..i] + [item];
      TracksStep(list[..i], item, dayKey, data0, order0);
      i := i + 1;
    }
    assert list[..|list|] == list;
    TracksSummaries(list, dayKey, dailyData, order);
    days := seq(|order|, j requires 0 <= j < |order| => Summarize(order[j], dailyData[order[j]]));
  }

  /** Once the whole list is seen, the `map` over the keys gives `DailySummaries`. */
  lemma TracksSummaries(list: seq<ForecastItem>, dayKey: int -> string, data: map<string, DayAccumulator>, order: seq<string>)
    requires Tracks(list, dayKey, data, order)
    ensures |order| == |DailySummaries(list, dayKey)|
    ensures forall j :: 0 <= j < |order| ==> order[j] in data && data[order[j]].temps != []
    ensures forall j :: 0 <= j < |order| ==> Summarize(order[j], data[order[j]]) == DailySummaries(list, dayKey)[j]
  {
    forall j | 0 <= j < |order|
      ensures order[j] in data && data[order[j]].temps != []
      ensures Summarize(order[j], data[order[j]]) == DailySummaries(list, dayKey)[j]
    {
      assert order[j] in data && Describes(list, dayKey, data, order[j]);
      DailySummaryAt(list, dayKey, j);
    }
  }

  /** The loop's invariant: `dailyData` and its key order describe the entries seen so far. */
  ghost predicate Tracks(seen: seq<ForecastItem>, dayKey: int -> string, data: map<string, DayAccumulator>, order: seq<string>)
  {
    && order == DistinctDays(seen, dayKey)
    && (forall d :: d in data <==> d in order)
    && (forall d :: d in data ==> Describes(seen, dayKey, data, d))
  }

  /** `data[d]` is what the entries of day `d` among `seen` accumulate to. */
  ghost predicate Describes(seen: seq<ForecastItem>, dayKey: int -> string, data: map<string, DayAccumulator>, d: string)
    requires d in data
  {
    DayForecasts(seen, dayKey, d) != [] && data[d] == Accumulated(DayForecasts(seen, dayKey, d))
  }

  /** One iteration of the `forEach` body keeps the invariant. */
  lemma TracksStep(seen: seq<ForecastItem>, x: ForecastItem, dayKey: int -> string, data: map<string, DayAccumulator>, order: seq<string>)
    requires Tracks(seen, dayKey, data, order)
    ensures
      var date := dayKey(x.dt);
      Tracks(seen + [x], dayKey, Absorb(data, x, date), if date in data then order else order + [date])
  {
    var date := dayKey(x.dt);
    var data' := Absorb(data, x, date);
    DistinctDaysSnoc(seen, x, dayKey);
    KeysStep(data, order, x, date);
    forall d | d in data'
      ensures Describes(seen + [x], dayKey, data', d)
    {
      DescribesStep(seen, x, dayKey, data, d);
    }
  }

  /** The keys of `dailyData` and the insertion order stay in step. */
  lemma KeysStep(data: map<string, DayAccumulator>, order: seq<string>, x: ForecastItem, date: string)
    requires forall d :: d in data <==> d in order
    ensures forall d :: d in Absorb(data, x, date) <==> d in (if date in data then order else order + [date])
  {
  }

  /** After one more entry, each record still describes its day. */
  lemma DescribesStep(seen: seq<ForecastItem>, x: ForecastItem, dayKey: int -> string, data: map<string, DayAccumulator>, d: string)
    requires forall e :: e in data ==> Describes(seen, dayKey, data, e)
    requires dayKey(x.dt) !in data ==> dayKey(x.dt) !in DistinctDays(seen, dayKey)
    requires d in Absorb(data, x, dayKey(x.dt))
    ensures Describes(seen + [x], dayKey, Absorb(data, x, dayKey(x.dt)), d)
  {
    var date := dayKey(x.dt);
    if d != date {
      DescribesOtherDay(seen, x, dayKey, data, d);
    } else if date in data {
      DescribesKnownDay(seen, x, dayKey, data);
    } else {
      DescribesNewDay(seen, x, dayKey, data);
    }
  }

  /** A day other than the entry's keeps its entries and its record. */
  lemma DescribesOtherDay(seen: seq<ForecastItem>, x: ForecastItem, dayKey: int -> string, data: map<string, DayAccumulator>, d: string)
    requires d in data && Describes(seen, dayKey, data, d)
    requires d != dayKey(x.dt)
    ensures d in Absorb(data, x, dayKey(x.dt)) && Describes(seen + [x], dayKey, Absorb(data, x, dayKey(x.dt)), d)
  {
    DayForecastsSnoc(seen, x, dayKey, d);
    assert DayForecasts(seen + [x], dayKey, d) == DayForecasts(seen, dayKey, d);
    assert Absorb(data, x, dayKey(x.dt))[d] == data[d];
  }

  /** The entry's day, already present, absorbs the entry. */
  lemma DescribesKnownDay(seen: seq<ForecastItem>, x: ForecastItem, dayKey: int -> string, data: map<string, DayAccumulator>)
    requires dayKey(x.dt) in data && Describes(seen, dayKey, data, dayKey(x.dt))
    ensures Describes(seen + [x], dayKey, Absorb(data, x, dayKey(x.dt)), dayKey(x.dt))
  {
    var date := dayKey(x.dt);
    DayForecastsSnoc(seen, x, dayKey, date);
    AccumulatedSnoc(DayForecasts(seen, dayKey, date), x);
  }

  /** A new day starts from the entry alone. */
  lemma DescribesNewDay(seen: seq<ForecastItem>, x: ForecastItem, dayKey: int -> string, data: map<string, DayAccumulator>)
    requires dayKey(x.dt) !in data && dayKey(x.dt) !in DistinctDays(seen, dayKey)
    ensures Describes(seen + [x], dayKey, Absorb(data, x, dayKey(x.dt)), dayKey(x.dt))
  {
    var date := dayKey(x.dt);
    DayForecastsSnoc(seen, x, dayKey, date);
    NewDayHasNoEntries(seen, dayKey, date);
    assert DayForecasts(seen + [x], dayKey, date) == [x];
    assert Accumulated([x]) == Push(NewAccumulator(x), x);
  }

  /** One more entry adds its day if that day is new. */
  lemma DistinctDaysSnoc(seen: seq<ForecastItem>, x: ForecastItem, dayKey: int -> string)
    ensures DistinctDays(seen + [x], dayKey) ==
      var before := DistinctDays(seen, dayKey);
      if dayKey(x.dt) in before then before else before + [dayKey(x.dt)]
  {
    assert (seen + [x])[..|seen|] == seen;
  }

  /** One more entry extends its own day's group and no other. */
  lemma DayForecastsSnoc(seen: seq<ForecastItem>, x: ForecastItem, dayKey: int -> string, d: string)
    ensures DayForecasts(seen + [x], dayKey, d) ==
      DayForecasts(seen, dayKey, d) + if dayKey(x.dt) == d then [x] else []
  {
    assert (seen + [x])[..|seen|] == seen;
  }

  /** Appending one entry to a non-empty day updates its accumulator the way the loop body does. */
  lemma AccumulatedSnoc(entries: seq<ForecastItem>, x: ForecastItem)
    requires entries != []
    ensures Accumulated(entries + [x]) == Push(Accumulated(entries), x)
  {
    assert (entries + [x])[..|entries|] == entries;
  }

  lemma {:induction false} NewDayHasNoEntries(list: seq<ForecastItem>, dayKey: int -> string, date: string)
    requires date !in DistinctDays(list, dayKey)
    ensures DayForecasts(list, dayKey, date) == []
  {
    if list != [] {
      NewDayHasNoEntries(list[..|list| - 1], dayKey, date);
    }
  }

  lemma {:induction false} DistinctDaysHaveEntries(list: seq<ForecastItem>, dayKey: int -> string, date: string)
    requires date in DistinctDays(list, dayKey)
    ensures DayForecasts(list, dayKey, date) != []
  {
    var n := |list|;
    if date in DistinctDays(list[..n - 1], dayKey) {
      DistinctDaysHaveEntries(list[..n - 1], dayKey, date);
    }
  }

  // ---------------------------------------------------------------------------
  // Properties of the grouping
  // ---------------------------------------------------------------------------

  /** Each day of the list appears once, and nothing else does. */
  lemma {:induction false} DistinctDaysExact(list: seq<ForecastItem>, dayKey: int -> string)
    ensures forall i, j :: 0 <= i < j < |DistinctDays(list, dayKey)| ==>
      DistinctDays(list, dayKey)[i] != DistinctDays(list, dayKey)[j]
    ensures forall d :: d in DistinctDays(list, dayKey) <==> exists i :: 0 <= i < |list| && dayKey(list[i].dt) == d
  {
    if list != [] {
      var n := |list|;
      DistinctDaysExact(list[..n - 1], dayKey);
      forall d | d in DistinctDays(list, dayKey)
        ensures exists i :: 0 <= i < n && dayKey(list[i].dt) == d
      {
        if d in DistinctDays(list[..n - 1], dayKey) {
          var i :| 0 <= i < n - 1 && dayKey(list[..n - 1][i].dt) == d;
          assert dayKey(list[i].dt) == d;
        } else {
          assert dayKey(list[n - 1].dt) == d;
        }
      }
      forall d | exists i :: 0 <= i < n && dayKey(list[i].dt) == d
        ensures d in DistinctDays(list, dayKey)
      {
        var i :| 0 <= i < n && dayKey(list[i].dt) == d;
        if i < n - 1 {
          assert dayKey(list[..n - 1][i].dt) == d;
        }
      }
    }
  }

  /** `FirstIndex` is the position of the day's first entry in list order. */
  lemma {:induction false} FirstIndexIsFirst(list: seq<ForecastItem>, dayKey: int -> string, date: string)
    requires date in DistinctDays(list, dayKey)
    ensures FirstIndex(list, dayKey, date) < |list|
    ensures dayKey(list[FirstIndex(list, dayKey, date)].dt) == date
    ensures forall i :: 0 <= i < FirstIndex(list, dayKey, date) ==> dayKey(list[i].dt) != date
  {
    var n := |list|;
    var init := list[..n - 1];
    if date in DistinctDays(init, dayKey) {
      FirstIndexIsFirst(init, dayKey, date);
      assert list[FirstIndex(init, dayKey, date)] == init[FirstIndex(init, dayKey, date)];
      forall i | 0 <= i < FirstIndex(list, dayKey, date)
        ensures dayKey(list[i].dt) != date
      {
        assert list[i] == init[i];
      }
    } else {
      DistinctDaysExact(init, dayKey);
      forall i | 0 <= i < n - 1
        ensures dayKey(list[i].dt) != date
      {
        assert list[i] == init[i];
      }
    }
  }

  /** The days come in the order of their first entries. */
  lemma {:induction false} DaysInFirstOccurrenceOrder(list: seq<ForecastItem>, dayKey: int -> string, i: nat, j: nat)
    requires i < j < |DistinctDays(list, dayKey)|
    ensures FirstIndex(list, dayKey, DistinctDays(list, dayKey)[i]) < FirstIndex(list, dayKey, DistinctDays(list, dayKey)[j])
  {
    var n := |list|;
    var init := list[..n - 1];
    var days := DistinctDays(list, dayKey);
    var before := DistinctDays(init, dayKey);
    if j < |before| {
      assert days[i] == before[i] && days[j] == before[j];
      DaysInFirstOccurrenceOrder(init, dayKey, i, j);
    } else {
      assert days[i] == before[i] && days[i] in before;
      FirstIndexIsFirst(init, dayKey, days[i]);
    }
  }

  /** The entries of a day are exactly the list's entries on that day. */
  lemma {:induction false} DayForecastsMembers(list: seq<ForecastItem>, dayKey: int -> string, date: string, x: ForecastItem)
    ensures x in DayForecasts(list, dayKey, date) <==> x in list && dayKey(x.dt) == date
  {
    if list != [] {
      var n := |list|;
      DayForecastsMembers(list[..n - 1], dayKey, date, x);
      assert list == list[..n - 1] + [list[n - 1]];
    }
  }

  /** Selecting a day distributes over concatenation, so the selection keeps list order. */
  lemma {:induction false} DayForecastsAppend(a: seq<ForecastItem>, b: seq<ForecastItem>, dayKey: int -> string, date: string)
    ensures DayForecasts(a + b, dayKey, date) == DayForecasts(a, dayKey, date) + DayForecasts(b, dayKey, date)
    decreases |b|
  {
    if b == [] {
      assert a + b == a;
    } else {
      var n := |b|;
      assert (a + b)[..|a + b| - 1] == a + b[..n - 1];
      assert (a + b)[|a + b| - 1] == b[n - 1];
      DayForecastsAppend(a, b[..n - 1], dayKey, date);
    }
  }

  /** The first entry of a day's selection is the list's first entry on that day. */
  lemma {:induction false} DayForecastsHead(list: seq<ForecastItem>, dayKey: int -> string, date: string)
    requires date in DistinctDays(list, dayKey)
    ensures DayForecasts(list, dayKey, date) != []
    ensures DayForecasts(list, dayKey, date)[0] == list[FirstIndex(list, dayKey, date)]
  {
    DistinctDaysHaveEntries(list, dayKey, date);
    var n := |list|;
    var init := list[..n - 1];
    if date in DistinctDays(init, dayKey) {
      DayForecastsHead(init, dayKey, date);
      FirstIndexIsFirst(init, dayKey, date);
    } else {
      NewDayHasNoEntries(init, dayKey, date);
    }
  }

  lemma {:induction false} LowestMinIsMinimum(entries: seq<ForecastItem>)
    requires entries != []
    ensures forall k :: 0 <= k < |entries| ==> LowestMin(entries) <= entries[k].main.tempMin
    ensures exists k :: 0 <= k < |entries| && LowestMin(entries) == entries[k].main.tempMin
  {
    var n := |entries|;
    if n > 1 {
      var init := entries[..n - 1];
      LowestMinIsMinimum(init);
      assert forall k :: 0 <= k < n - 1 ==> entries[k] == init[k];
      if LowestMin(init) <= entries[n - 1].main.tempMin {
        var k :| 0 <= k < n - 1 && LowestMin(init) == init[k].main.tempMin;
        assert LowestMin(entries) == entries[k].main.tempMin;
      } else {
        assert LowestMin(entries) == entries[n - 1].main.tempMin;
      }
    } else {
      assert LowestMin(entries) == entries[0].main.tempMin;
    }
  }

  lemma {:induction false} HighestMaxIsMaximum(entries: seq<ForecastItem>)
    requires entries != []
    ensures forall k :: 0 <= k < |entries| ==> entries[k].main.tempMax <= HighestMax(entries)
    ensures exists k :: 0 <= k < |entries| && HighestMax(entries) == entries[k].main.tempMax
  {
    var n := |entries|;
    if n > 1 {
      var init := entries[..n - 1];
      HighestMaxIsMaximum(init);
      assert forall k :: 0 <= k < n - 1 ==> entries[k] == init[k];
      if HighestMax(init) >= entries[n - 1].main.tempMax {
        var k :| 0 <= k < n - 1 && HighestMax(init) == init[k].main.tempMax;
        assert HighestMax(entries) == entries[k].main.tempMax;
      } else {
        assert HighestMax(entries) == entries[n - 1].main.tempMax;
      }
    } else {
      assert HighestMax(entries) == entries[0].main.tempMax;
    }
  }

  lemma {:induction false} TempsAt(entries: seq<ForecastItem>, k: nat)
    requires k < |entries|
    ensures Temps(entries)[k] == entries[k].main.temp
  {
    var n := |entries|;
    if k < n - 1 {
      TempsAt(entries[..n - 1], k);
    }
  }

  /** A sum of `n` values between `lo` and `hi` lies between `n * lo` and `n * hi`. */
  lemma {:induction false} SumBetween(xs: seq<real>, lo: real, hi: real)
    requires forall k :: 0 <= k < |xs| ==> lo <= xs[k] <= hi
    ensures |xs| as real * lo <= Sum(xs) <= |xs| as real * hi
  {
    if xs != [] {
      var n := |xs|;
      SumBetween(xs[..n - 1], lo, hi);
      assert (n - 1) as real * lo + lo == n as real * lo;
      assert (n - 1) as real * hi + hi == n as real * hi;
    }
  }

  /**
   * The summary of day `j`: its date is the `j`-th distinct day; its minimum
   * and maximum are the lowest `temp_min` and highest `temp_max` of the day's
   * entries; its average is their mean `temp` over at least one entry; its
   * weather is `weather[0]` of the day's first entry.
   */
  lemma DailySummaryFacts(list: seq<ForecastItem>, dayKey: int -> string, j: nat)
    requires j < |DistinctDays(list, dayKey)|
    ensures
      var r := DailySummaries(list, dayKey)[j];
      var entries := DayForecasts(list, dayKey, r.date);
      && r.date == DistinctDays(list, dayKey)[j]
      && |entries| >= 1
      && (forall x :: x in entries ==> r.tempMin <= x.main.tempMin && x.main.tempMax <= r.tempMax)
      && (exists x :: x in entries && r.tempMin == x.main.tempMin)
      && (exists x :: x in entries && r.tempMax == x.main.tempMax)
      && r.tempAvg == Sum(Temps(entries)) / |entries| as real
      && r.weather == FirstWeather(list[FirstIndex(list, dayKey, r.date)])
  {
    var date := DistinctDays(list, dayKey)[j];
    var entries := DayForecasts(list, dayKey, date);
    DailySummaryAt(list, dayKey, j);
    DayForecastsHead(list, dayKey, date);
    LowestMinIsMinimum(entries);
    HighestMaxIsMaximum(entries);
    var k1 :| 0 <= k1 < |entries| && LowestMin(entries) == entries[k1].main.tempMin;
    var k2 :| 0 <= k2 < |entries| && HighestMax(entries) == entries[k2].main.tempMax;
    assert entries[k1] in entries && entries[k2] in entries;
  }

  lemma DailySummaryAt(list: seq<ForecastItem>, dayKey: int -> string, j: nat)
    requires j < |DistinctDays(list, dayKey)|
    ensures DayForecasts(list, dayKey, DistinctDays(list, dayKey)[j]) != []
    ensures DailySummaries(list, dayKey)[j] ==
      Summarize(DistinctDays(list, dayKey)[j], Accumulated(DayForecasts(list, dayKey, DistinctDays(list, dayKey)[j])))
  {
    DistinctDaysHaveEntries(list, dayKey, DistinctDays(list, dayKey)[j]);
  }

  /** When every entry has `temp_min <= temp <= temp_max`, every day has minimum <= average <= maximum. */
  lemma DailyAverageBetween(list: seq<ForecastItem>, dayKey: int -> string, j: nat)
    requires j < |DistinctDays(list, dayKey)|
    requires forall i :: 0 <= i < |list| ==> list[i].main.tempMin <= list[i].main.temp <= list[i].main.tempMax
    ensures
      var r := DailySummaries(list, dayKey)[j];
      r.tempMin <= r.tempAvg <= r.tempMax
  {
    var date := DistinctDays(list, dayKey)[j];
    var entries := DayForecasts(list, dayKey, date);
    DailySummaryAt(list, dayKey, j);
    var r := DailySummaries(list, dayKey)[j];
    var temps := Temps(entries);
    var n := |temps| as real;
    assert r.tempMin == LowestMin(entries) && r.tempMax == HighestMax(entries) && r.tempAvg == Sum(temps) / n;
    LowestMinIsMinimum(entries);
    HighestMaxIsMaximum(entries);
    forall k | 0 <= k < |temps|
      ensures r.tempMin <= temps[k] <= r.tempMax
    {
      TempsAt(entries, k);
      assert entries[k] in entries;
      DayForecastsMembers(list, dayKey, date, entries[k]);
    }
    MeanBetween(temps, r.tempMin, r.tempMax);
  }

  /** The mean of values between `lo` and `hi` lies between them. */
  lemma MeanBetween(xs: seq<real>, lo: real, hi: real)
    requires xs != []
    requires forall k :: 0 <= k < |xs| ==> lo <= xs[k] <= hi
    ensures lo <= Sum(xs) / |xs| as real <= hi
  {
    SumBetween(xs, lo, hi);
    DivideBounds(Sum(xs), |xs| as real, lo, hi);
  }

  lemma DivideBounds(total: real, n: real, lo: real, hi: real)
    requires n > 0.0 && n * lo <= total <= n * hi
    ensures lo <= total / n <= hi
  {
    assert total / n * n == total;
  }

  /** A non-empty forecast gives at least one day, so the screen always has a current day. */
  lemma NonEmptyListHasDays(list: seq<ForecastItem>, dayKey: int -> string)
    requires list != []
    ensures |DailySummaries(list, dayKey)| >= 1
  {
    DistinctDaysExact(list, dayKey);
    assert dayKey(list[0].dt) in DistinctDays(list, dayKey);
  }

  /**
   * `handleCardPress` hands over exactly the current day's entries, in list
   * order, and as many of them as the day's average was taken over.
   */
  lemma CardPressSelection(list: seq<ForecastItem>, dayKey: int -> string, currentDayIndex: nat)
    requires currentDayIndex < |DailySummaries(list, dayKey)|
    ensures
      var day := DailySummaries(list, dayKey)[currentDayIndex];
      var selected := DayForecasts(list, dayKey, day.date);
      && selected != []
      && (forall x :: x in selected <==> x in list && dayKey(x.dt) == day.date)
      && day.tempAvg == Sum(Temps(selected)) / |selected| as real
  {
    var date := DistinctDays(list, dayKey)[currentDayIndex];
    var selected := DayForecasts(list, dayKey, date);
    DailySummaryAt(list, dayKey, currentDayIndex);
    var day := DailySummaries(list, dayKey)[currentDayIndex];
    forall x
      ensures x in selected <==> x in list && dayKey(x.dt) == date
    {
      DayForecastsMembers(list, dayKey, date, x);
    }
  }

  // ---------------------------------------------------------------------------
  // Day navigation
  // ---------------------------------------------------------------------------

  /** The `currentDayIndex` state of the screen and its two footer buttons. */
  class DayNavigator {
    const dayCount: nat
    var currentDayIndex: int

    ghost predicate Valid()
      reads this
    {
      0 <= currentDayIndex < dayCount
    }

    /**
     * The screen starts on the first of the `groupedForecasts.length` days; it
     * shows days only for a list past the empty-list guard.
     */
    constructor (list: seq<ForecastItem>, dayKey: int -> string)
      requires list != []
      ensures Valid() && dayCount == |DailySummaries(list, dayKey)| && currentDayIndex == 0
    {
      NonEmptyListHasDays(list, dayKey);
      dayCount := |DailySummaries(list, dayKey)|;
      currentDayIndex := 0;
    }

    /** "Dia Anterior": moves back only when not on the first day. */
    method Previous()
      requires Valid()
      modifies this
      ensures Valid()
      ensures old(currentDayIndex) > 0 ==> currentDayIndex == old(currentDayIndex) - 1
      ensures old(currentDayIndex) == 0 ==> currentDayIndex == 0
    {
      if currentDayIndex > 0 {
        currentDayIndex := currentDayIndex - 1;
      }
    }

    /** "Próximo Dia": moves forward only when not on the last day. */
    method Next()
      requires Valid()
      modifies this
      ensures Valid()
      ensures old(currentDayIndex) < dayCount - 1 ==> currentDayIndex == old(currentDayIndex) + 1
      ensures old(currentDayIndex) == dayCount - 1 ==> currentDayIndex == dayCount - 1
    {
      if currentDayIndex < dayCount - 1 {
        currentDayIndex := currentDayIndex + 1;
      }
    }
  }

  // ---------------------------------------------------------------------------
  // Background image
  // ---------------------------------------------------------------------------

  datatype Background = ClearSky | FewClouds | Rain | Thunderstorm | Snow | Mist | OvercastClouds

  /** The key under which each image is listed. */
  function ImageKey(b: Background): string
  {
    match b
    case ClearSky => "ceu limpo"
    case FewClouds => "algumas nuvens"
    case Rain => "chuva"
    case Thunderstorm => "tempestade"
    case Snow => "neve"
    case Mist => "nevoa"
    case OvercastClouds => "nublado"
  }

  /** The `images` record of `getBackgroundImage`. */
  const Images: map<string, Background> := map[
    "ceu limpo" := ClearSky,
    "algumas nuvens" := FewClouds,
    "chuva" := Rain,
    "tempestade" := Thunderstorm,
    "neve" := Snow,
    "nevoa" := Mist,
    "nublado" := OvercastClouds]

  /** `getBackgroundImage`: exact lookup of the lower-cased description, clear sky otherwise. */
  function GetBackgroundImage(description: string): (r: Background)
    ensures Lower(description) in Images ==> ImageKey(r) == Lower(description)
    ensures Lower(description) !in Images ==> r == ClearSky
  {
    var key := Lower(description);
    if key in Images then Images[key] else ClearSky
  }

  /** The background of the current day: `weather?.description || ""`. */
  function DayBackground(day: DaySummary): (r: Background)
    ensures day.weather.None? ==> r == ClearSky
  {
    GetBackgroundImage(if day.weather.Some? then day.weather.value.description else "")
  }

  /** Every image is reached by its own key, so the lookup and `ImageKey` are inverse. */
  lemma BackgroundOfKey(b: Background)
    ensures GetBackgroundImage(ImageKey(b)) == b
  {
    var key := ImageKey(b);
    assert forall i :: 0 <= i < |key| ==> !IsUpper(key[i]);
    assert Lower(key) == key;
  }

  /** The lookup ignores case: a description and its lower-cased form give the same image. */
  lemma BackgroundIgnoresCase(description: string)
    ensures GetBackgroundImage(Lower(description)) == GetBackgroundImage(description)
  {
    LowerIdempotent(description);
  }
}
