/**
 `filterForecast` of WeatherDisplay.tsx: walk the forecast samples in order,
 keep the first sample of every calendar day, then keep the first five.

 The calendar day of a sample is `new Date(dt * 1000).toLocaleDateString()`,
 which depends on the host's locale and time zone; it is a parameter here,
 an arbitrary function from timestamps to day keys.
 */
module ForecastFilter {
  import opened Wrappers
  import opened Weather

  type DateKey = int -> string

  /** The forecast panel shows at most this many days (`slice(0, 5)`). */
  const MaxDays: nat := 5

  function Min(a: int, b: int): int {
    if a <= b then a else b
  }

  /** The calendar days the samples fall on. */
  function Days(list: seq<WeatherData>, dateKey: DateKey): set<string> {
    set i | 0 <= i < |list| :: dateKey(list[i].dt)
  }

  /** No two samples fall on the same calendar day. */
  ghost predicate DistinctDays(list: seq<WeatherData>, dateKey: DateKey) {
    forall i, j :: 0 <= i < j < |list| ==> dateKey(list[i].dt) != dateKey(list[j].dt)
  }

  /** Position `j` holds the earliest sample of its calendar day. */
  ghost predicate FirstOfItsDay(list: seq<WeatherData>, dateKey: DateKey, j: int) {
    && 0 <= j < |list|
    && forall k :: 0 <= k < j ==> dateKey(list[k].dt) != dateKey(list[j].dt)
  }

  /** `positions` picks `picked` out of `list`, in increasing order, each at the first sample of its day. */
  ghost predicate PicksFirstOfDays(picked: seq<WeatherData>, list: seq<WeatherData>, dateKey: DateKey,
                                   positions: seq<int>) {
    && |positions| == |picked|
    && (forall i :: 0 <= i < |positions| ==> FirstOfItsDay(list, dateKey, positions[i]))
    && (forall i :: 0 <= i < |positions| ==> 0 <= positions[i] < |list| && picked[i] == list[positions[i]])
    && (forall i, j :: 0 <= i < j < |positions| ==> positions[i] < positions[j])
  }

  /** Every first-of-day position of `list` left out of `positions` comes after all of them. */
  ghost predicate SkipsOnlyLaterDays(list: seq<WeatherData>, dateKey: DateKey, positions: seq<int>) {
    forall j :: FirstOfItsDay(list, dateKey, j) && j !in positions ==>
      forall i :: 0 <= i < |positions| ==> positions[i] < j
  }

  lemma DaysSnoc(list: seq<WeatherData>, w: WeatherData, dateKey: DateKey)
    ensures Days(list + [w], dateKey) == Days(list, dateKey) + {dateKey(w.dt)}
  {
    var l := list + [w];
    forall d | d in Days(l, dateKey)
      ensures d in Days(list, dateKey) + {dateKey(w.dt)}
    {
      var i :| 0 <= i < |l| && dateKey(l[i].dt) == d;
      if i < |list| {
        assert list[i] == l[i];
      }
    }
    forall d | d in Days(list, dateKey) + {dateKey(w.dt)}
      ensures d in Days(l, dateKey)
    {
      if d == dateKey(w.dt) {
        assert l[|list|] == w;
      } else {
        var i :| 0 <= i < |list| && dateKey(list[i].dt) == d;
        assert l[i] == list[i];
      }
    }
  }

  /**
   The `forEach` of `filterForecast` over `list`: the first sample of every
   calendar day, in input order. Defined prefix by prefix, as the loop runs:
   the last sample is kept exactly when its day is not among the days seen so far.
   */
  function Daily(list: seq<WeatherData>, dateKey: DateKey): (daily: seq<WeatherData>)
    ensures |daily| <= |list|
    ensures DistinctDays(daily, dateKey)
    ensures Days(daily, dateKey) == Days(list, dateKey)
    ensures |daily| == |Days(list, dateKey)|
    decreases |list|
  {
    if |list| == 0 then []
    else
      var prefix := list[..|list| - 1];
      var w := list[|list| - 1];
      var kept := Daily(prefix, dateKey);
      assert list == prefix + [w];
      DaysSnoc(prefix, w, dateKey);
      DaysSnoc(kept, w, dateKey);
      if dateKey(w.dt) in Days(kept, dateKey) then kept else kept + [w]
  }

  /** `slice(0, n)`: the first `n` elements, or all of them when there are fewer. */
  function Take<T>(s: seq<T>, n: nat): (r: seq<T>)
    ensures |r| == Min(n, |s|)
    ensures forall i :: 0 <= i < |r| ==> r[i] == s[i]
  {
    if |s| <= n then s else s[..n]
  }

  /** `filterForecast()`: nothing without forecast data, otherwise the first sample of each of the first five days. */
  function FilterForecast(forecastData: Option<ForecastData>, dateKey: DateKey): (shown: seq<WeatherData>)
    ensures forecastData.None? ==> shown == []
    ensures |shown| <= MaxDays
    ensures forecastData.Some? ==> |shown| == Min(MaxDays, |Days(forecastData.value.list, dateKey)|)
    ensures DistinctDays(shown, dateKey)
  {
    match forecastData
    case None => []
    case Some(f) => Take(Daily(f.list, dateKey), MaxDays)
  }

  /** Every kept sample is the first sample of its day, and the kept samples keep their input order. */
  lemma {:induction false} DailyPicksFirstOfDays(list: seq<WeatherData>, dateKey: DateKey)
    returns (positions: seq<int>)
    ensures PicksFirstOfDays(Daily(list, dateKey), list, dateKey, positions)
    decreases |list|
  {
    if |list| == 0 {
      positions := [];
    } else {
      var n := |list| - 1;
      var prefix := list[..n];
      var w := list[n];
      var kept := Daily(prefix, dateKey);
      var p := DailyPicksFirstOfDays(prefix, dateKey);
      assert list == prefix + [w];
      forall i | 0 <= i < |p|
        ensures FirstOfItsDay(list, dateKey, p[i])
      {
        assert FirstOfItsDay(prefix, dateKey, p[i]);
        forall k | 0 <= k < p[i]
          ensures dateKey(list[k].dt) != dateKey(list[p[i]].dt)
        {
          assert list[k] == prefix[k];
        }
      }
      if dateKey(w.dt) in Days(kept, dateKey) {
        positions := p;
      } else {
        positions := p + [n];
        forall k | 0 <= k < n
          ensures dateKey(list[k].dt) != dateKey(w.dt)
        {
          assert list[k] == prefix[k];
          assert dateKey(prefix[k].dt) in Days(prefix, dateKey);
        }
      }
    }
  }

  /** Two first-of-day positions on the same day are the same position. */
  lemma FirstOfDayUnique(list: seq<WeatherData>, dateKey: DateKey, a: int, b: int)
    requires FirstOfItsDay(list, dateKey, a) && FirstOfItsDay(list, dateKey, b)
    requires dateKey(list[a].dt) == dateKey(list[b].dt)
    ensures a == b
  {
  }

  /** Positions that pick the day selection out of `list` include every first-of-day position. */
  lemma DailyCoversFirstOfDays(list: seq<WeatherData>, dateKey: DateKey, positions: seq<int>)
    requires PicksFirstOfDays(Daily(list, dateKey), list, dateKey, positions)
    ensures forall j :: FirstOfItsDay(list, dateKey, j) ==> j in positions
  {
    var daily := Daily(list, dateKey);
    forall j | FirstOfItsDay(list, dateKey, j)
      ensures j in positions
    {
      var d := dateKey(list[j].dt);
      assert d in Days(list, dateKey);
      assert d in Days(daily, dateKey);
      var i :| 0 <= i < |daily| && dateKey(daily[i].dt) == d;
      FirstOfDayUnique(list, dateKey, positions[i], j);
    }
  }

  /**
   The forecast panel shows a subsequence of the samples, each the first
   sample of its day, and the days it skips all come after the days it shows:
   it shows the earliest days.
   */
  lemma FilterForecastPicksFirstOfDays(f: ForecastData, dateKey: DateKey) returns (positions: seq<int>)
    ensures PicksFirstOfDays(FilterForecast(Some(f), dateKey), f.list, dateKey, positions)
    ensures SkipsOnlyLaterDays(f.list, dateKey, positions)
  {
    var all := DailyPicksFirstOfDays(f.list, dateKey);
    DailyCoversFirstOfDays(f.list, dateKey, all);
    positions := Take(all, MaxDays);
    forall j | FirstOfItsDay(f.list, dateKey, j) && j !in positions
      ensures forall i :: 0 <= i < |positions| ==> positions[i] < j
    {
      var k :| 0 <= k < |all| && all[k] == j;
    }
  }

  /** Input that already has one sample per day passes the day filter unchanged. */
  lemma {:induction false} DailyOfDistinctDays(list: seq<WeatherData>, dateKey: DateKey)
    requires DistinctDays(list, dateKey)
    ensures Daily(list, dateKey) == list
    decreases |list|
  {
    if |list| > 0 {
      var n := |list| - 1;
      var prefix := list[..n];
      DailyOfDistinctDays(prefix, dateKey);
      forall i | 0 <= i < n
        ensures dateKey(prefix[i].dt) != dateKey(list[n].dt)
      {
        assert prefix[i] == list[i];
      }
      assert list == prefix + [list[n]];
    }
  }

  /** Filtering the filtered forecast again gives the same samples. */
  lemma FilterForecastIdempotent(f: ForecastData, dateKey: DateKey)
    ensures var shown := FilterForecast(Some(f), dateKey);
            FilterForecast(Some(ForecastData(shown, f.cityName)), dateKey) == shown
  {
    var shown := FilterForecast(Some(f), dateKey);
    DailyOfDistinctDays(shown, dateKey);
  }

  /** One more sample: its day joins the days seen, and it is kept exactly when its day is new. */
  lemma DailyStep(list: seq<WeatherData>, i: nat, dateKey: DateKey)
    requires i < |list|
    ensures Days(list[..i + 1], dateKey) == Days(list[..i], dateKey) + {dateKey(list[i].dt)}
    ensures Daily(list[..i + 1], dateKey) ==
              if dateKey(list[i].dt) in Days(list[..i], dateKey) then Daily(list[..i], dateKey)
              else Daily(list[..i], dateKey) + [list[i]]
  {
    assert list[..i + 1][..i] == list[..i];
    assert list[..i + 1] == list[..i] + [list[i]];
    DaysSnoc(list[..i], list[i], dateKey);
  }

  /**
   The loop of `filterForecast` as written: a set of the day keys seen so far
   and the list of kept samples, then the first five of that list.
   */
  method FilterForecastLoop(forecastData: Option<ForecastData>, dateKey: DateKey) returns (shown: seq<WeatherData>)
    ensures shown == FilterForecast(forecastData, dateKey)
  {
    if forecastData.None? {
      return [];
    }
    var list := forecastData.value.list;
    var dailyForecast: seq<WeatherData> := [];
    var dates: set<string> := {};
    for i := 0 to |list|
      invariant dailyForecast == Daily(list[..i], dateKey)
      invariant dates == Days(list[..i], dateKey)
    {
      var date := dateKey(list[i].dt);
      DailyStep(list, i, dateKey);
      if date !in dates {
        dates := dates + {date};
        dailyForecast := dailyForecast + [list[i]];
      }
    }
    assert list[..|list|] == list;
    shown := Take(dailyForecast, MaxDays);
  }
}
