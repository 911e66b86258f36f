/** The daily aggregator: folds the 3-hour forecast samples into at most five
    per-day summaries. The calendar-day key of a timestamp depends on the
    device's time zone, so it is a parameter `dayKey`. */
module Daily {
  import opened Payloads

  /** At most this many summaries are returned. */
  const MaxDays: nat := 5

  datatype Temp = Temp(min: real, max: real, day: real)

  datatype DailySummary = DailySummary(
    dt: int,
    temp: Temp,
    weather: seq<Condition>,
    humidity: real,
    windSpeed: real,
    windDeg: real)

  function Min(a: real, b: real): real { if a <= b then a else b }
  function Max(a: real, b: real): real { if a >= b then a else b }

  // ---------------------------------------------------------------------
  // Reference definition of the result, stated per day key
  // ---------------------------------------------------------------------

  /** The day key of every sample, in list order. */
  function Days(samples: seq<Sample>, dayKey: int -> string): seq<string> {
    seq(|samples|, i requires 0 <= i < |samples| => dayKey(samples[i].dt))
  }

  /** The distinct keys of `ks`, in order of first occurrence. */
  function Distinct(ks: seq<string>): (r: seq<string>)
    ensures forall k :: k in r <==> k in ks
    ensures forall a, b :: 0 <= a < b < |r| ==> r[a] != r[b]
    ensures |r| <= |ks|
  {
    if ks == [] then []
    else
      var p := Distinct(ks[..|ks| - 1]);
      if ks[|ks| - 1] in p then p else p + [ks[|ks| - 1]]
  }

  /** Index of the first occurrence of `k` in `ks`. */
  function FirstIndex(ks: seq<string>, k: string): (i: nat)
    requires k in ks
    ensures i < |ks| && ks[i] == k
    ensures forall j :: 0 <= j < i ==> ks[j] != k
  {
    if ks[0] == k then 0 else 1 + FirstIndex(ks[1..], k)
  }

  /** The samples whose day key is `k`, in list order. */
  function OnDay(samples: seq<Sample>, dayKey: int -> string, k: string): (r: seq<Sample>)
    ensures forall x :: x in r ==> x in samples && dayKey(x.dt) == k
    ensures forall i :: 0 <= i < |samples| && dayKey(samples[i].dt) == k ==> samples[i] in r
    ensures |r| > 0 <==> k in Days(samples, dayKey)
  {
    if samples == [] then []
    else
      var n := |samples| - 1;
      assert Days(samples, dayKey) == Days(samples[..n], dayKey) + [dayKey(samples[n].dt)];
      OnDay(samples[..n], dayKey, k) + (if dayKey(samples[n].dt) == k then [samples[n]] else [])
  }

  /** Lowest temperature of a non-empty run of samples. */
  function MinTemp(day: seq<Sample>): (m: real)
    requires |day| > 0
    ensures forall x :: x in day ==> m <= x.main.temp
    ensures exists i :: 0 <= i < |day| && day[i].main.temp == m
  {
    if |day| == 1 then day[0].main.temp
    else
      var m' := MinTemp(day[..|day| - 1]);
      assert forall x :: x in day ==> x in day[..|day| - 1] || x == day[|day| - 1];
      Min(m', day[|day| - 1].main.temp)
  }

  /** Highest temperature of a non-empty run of samples. */
  function MaxTemp(day: seq<Sample>): (m: real)
    requires |day| > 0
    ensures forall x :: x in day ==> x.main.temp <= m
    ensures exists i :: 0 <= i < |day| && day[i].main.temp == m
  {
    if |day| == 1 then day[0].main.temp
    else
      var m' := MaxTemp(day[..|day| - 1]);
      assert forall x :: x in day ==> x in day[..|day| - 1] || x == day[|day| - 1];
      Max(m', day[|day| - 1].main.temp)
  }

  /** The summary a first sample seeds: its temperature is min, max and day. */
  function Seed(x: Sample): DailySummary {
    DailySummary(x.dt, Temp(x.main.temp, x.main.temp, x.main.temp),
                 x.weather, x.main.humidity, x.wind.speed, x.wind.deg)
  }

  /** A later sample of the same day: only min and max move. */
  function Widen(d: DailySummary, t: real): DailySummary {
    d.(temp := d.temp.(min := Min(d.temp.min, t), max := Max(d.temp.max, t)))
  }

  /** The summary of day `k`: every field of the day's first sample, except
      that min and max range over all of the day's samples. */
  function Summary(samples: seq<Sample>, dayKey: int -> string, k: string): DailySummary
    requires k in Days(samples, dayKey)
  {
    var first := samples[FirstIndex(Days(samples, dayKey), k)];
    var day := OnDay(samples, dayKey, k);
    Seed(first).(temp := Temp(MinTemp(day), MaxTemp(day), first.main.temp))
  }

  /** What the aggregator returns: one summary per distinct day key, in order
      of first occurrence, cut to the first `MaxDays` keys. */
  function DailyForecast(samples: seq<Sample>, dayKey: int -> string): seq<DailySummary> {
    var days := Distinct(Days(samples, dayKey));
    var n := if |days| < MaxDays then |days| else MaxDays;
    seq(n, j requires 0 <= j < n => Summary(samples, dayKey, days[j]))
  }

  // ---------------------------------------------------------------------
  // The aggregator itself
  // ---------------------------------------------------------------------

  /** `processDailyForecast`: a dictionary keyed by day, filled in one pass;
      `order` is the insertion order of its keys, which is the order in which
      `Object.values` lists them (a calendar-day string is never an integer
      key). */
  method ProcessDailyForecast(forecastList: seq<Sample>, dayKey: int -> string)
    returns (daily: seq<DailySummary>)
    ensures daily == DailyForecast(forecastList, dayKey)
  {
    var dailyData: map<string, DailySummary> := map[];
    var order: seq<string> := [];
    for i := 0 to |forecastList|
      invariant Folded(forecastList[..i], dayKey, dailyData, order)
    {
      var item := forecastList[i];
      var date := dayKey(item.dt);
      FoldStep(forecastList[..i], item, dayKey, dailyData, order);
      assert forecastList[..i + 1] == forecastList[..i] + [item];
      if date !in dailyData {
        dailyData := dailyData[date := Seed(item)];
        order := order + [date];
      } else {
        dailyData := dailyData[date := Widen(dailyData[date], item.main.temp)];
      }
    }
    assert forecastList[..|forecastList|] == forecastList;
    var values := seq(|order|, j requires 0 <= j < |order| => dailyData[order[j]]);
    daily := values[..if |values| < MaxDays then |values| else MaxDays];
  }

  /** What the dictionary and its key order hold once `prefix` is folded in:
      the distinct keys in first-occurrence order, each with its summary. */
  ghost predicate Folded(prefix: seq<Sample>, dayKey: int -> string,
                         dailyData: map<string, DailySummary>, order: seq<string>)
  {
    && order == Distinct(Days(prefix, dayKey))
    && (forall k :: k in dailyData <==> k in order)
    && (forall k :: k in dailyData ==>
          k in Days(prefix, dayKey) && dailyData[k] == Summary(prefix, dayKey, k))
  }

  // ---------------------------------------------------------------------
  // One step of the fold
  // ---------------------------------------------------------------------

  /** One iteration of the loop keeps `Folded`: a new key is seeded and
      appended to the order, a known key is widened. */
  lemma FoldStep(prefix: seq<Sample>, x: Sample, dayKey: int -> string,
                 dailyData: map<string, DailySummary>, order: seq<string>)
    requires Folded(prefix, dayKey, dailyData, order)
    ensures var date := dayKey(x.dt);
      if date !in dailyData then Folded(prefix + [x], dayKey, dailyData[date := Seed(x)], order + [date])
      else Folded(prefix + [x], dayKey, dailyData[date := Widen(dailyData[date], x.main.temp)], order)
  {
    var date := dayKey(x.dt);
    var ks := Days(prefix, dayKey);
    DaysSnoc(prefix, x, dayKey);
    DistinctSnoc(ks, date);
    var m' := if date !in dailyData then dailyData[date := Seed(x)]
              else dailyData[date := Widen(dailyData[date], x.main.temp)];
    var o' := if date !in dailyData then order + [date] else order;
    assert o' == Distinct(Days(prefix + [x], dayKey));
    assert forall k :: k in m' <==> k in o';
    forall k | k in m'
      ensures k in Days(prefix + [x], dayKey) && m'[k] == Summary(prefix + [x], dayKey, k)
    {
      assert date in dailyData <==> date in ks;
      FoldStepAt(prefix, x, dayKey, dailyData, k);
    }
    assert Folded(prefix + [x], dayKey, m', o');
  }

  /** `FoldStep` for one key of the updated dictionary. */
  lemma FoldStepAt(prefix: seq<Sample>, x: Sample, dayKey: int -> string,
                   dailyData: map<string, DailySummary>, k: string)
    requires k in dailyData ==> k in Days(prefix, dayKey) && dailyData[k] == Summary(prefix, dayKey, k)
    requires dayKey(x.dt) in dailyData <==> dayKey(x.dt) in Days(prefix, dayKey)
    requires k in dailyData || k == dayKey(x.dt)
    ensures var date := dayKey(x.dt);
      var m' := if date !in dailyData then dailyData[date := Seed(x)]
                else dailyData[date := Widen(dailyData[date], x.main.temp)];
      k in Days(prefix + [x], dayKey) && m'[k] == Summary(prefix + [x], dayKey, k)
  {
    var date := dayKey(x.dt);
    var ks := Days(prefix, dayKey);
    DaysSnoc(prefix, x, dayKey);
    assert k in ks + [date];
    SummarySnoc(prefix, x, dayKey, k);
    var m' := if date !in dailyData then dailyData[date := Seed(x)]
              else dailyData[date := Widen(dailyData[date], x.main.temp)];
    if k == date && date !in dailyData {
      assert date !in ks;
      assert Summary(prefix + [x], dayKey, k) == Seed(x) == m'[k];
    } else {
      assert k in dailyData && k in ks;
      var d := dailyData[k];
      assert d == Summary(prefix, dayKey, k);
      if k == date {
        assert Summary(prefix + [x], dayKey, k) == Widen(d, x.main.temp) == m'[k];
      } else {
        assert Summary(prefix + [x], dayKey, k) == d == m'[k];
      }
    }
  }

  lemma DaysSnoc(s: seq<Sample>, x: Sample, dayKey: int -> string)
    ensures Days(s + [x], dayKey) == Days(s, dayKey) + [dayKey(x.dt)]
  {
  }

  lemma DistinctSnoc(ks: seq<string>, y: string)
    ensures Distinct(ks + [y]) == if y in ks then Distinct(ks) else Distinct(ks) + [y]
  {
    assert (ks + [y])[..|ks|] == ks;
  }

  lemma SummarySnoc(s: seq<Sample>, x: Sample, dayKey: int -> string, k: string)
    requires k in Days(s + [x], dayKey)
    ensures Summary(s + [x], dayKey, k) ==
      if k !in Days(s, dayKey) then Seed(x)
      else if k == dayKey(x.dt) then Widen(Summary(s, dayKey, k), x.main.temp)
      else Summary(s, dayKey, k)
  {
    DaysSnoc(s, x, dayKey);
    assert (s + [x])[..|s|] == s;
    if k !in Days(s, dayKey) {
      SummarySnocNew(s, x, dayKey);
    } else {
      FirstIndexAppend(Days(s, dayKey), dayKey(x.dt), k);
      var f := FirstIndex(Days(s, dayKey), k);
      assert (s + [x])[f] == s[f];
      SummarySnocKnown(s, x, dayKey, k);
    }
  }

  /** Appending the first sample of a new day seeds its summary. */
  lemma SummarySnocNew(s: seq<Sample>, x: Sample, dayKey: int -> string)
    requires dayKey(x.dt) !in Days(s, dayKey)
    requires Days(s + [x], dayKey) == Days(s, dayKey) + [dayKey(x.dt)]
    requires (s + [x])[..|s|] == s
    ensures dayKey(x.dt) in Days(s + [x], dayKey)
    ensures Summary(s + [x], dayKey, dayKey(x.dt)) == Seed(x)
  {
    var k := dayKey(x.dt);
    assert OnDay(s, dayKey, k) == [];
    assert OnDay(s + [x], dayKey, k) == [x];
    FirstIndexAppendNew(Days(s, dayKey), k);
  }

  /** Appending a sample to a known day widens that day only. */
  lemma SummarySnocKnown(s: seq<Sample>, x: Sample, dayKey: int -> string, k: string)
    requires k in Days(s, dayKey)
    requires Days(s + [x], dayKey) == Days(s, dayKey) + [dayKey(x.dt)]
    requires (s + [x])[..|s|] == s
    requires FirstIndex(Days(s + [x], dayKey), k) == FirstIndex(Days(s, dayKey), k)
    ensures Summary(s + [x], dayKey, k) ==
      if k == dayKey(x.dt) then Widen(Summary(s, dayKey, k), x.main.temp)
      else Summary(s, dayKey, k)
  {
    var f := FirstIndex(Days(s, dayKey), k);
    assert (s + [x])[f] == s[f];
    var day := OnDay(s, dayKey, k);
    var day' := OnDay(s + [x], dayKey, k);
    if k == dayKey(x.dt) {
      assert day' == day + [x];
      assert day'[..|day'| - 1] == day;
    } else {
      assert day' == day;
    }
  }

  lemma FirstIndexAppend(ks: seq<string>, y: string, k: string)
    requires k in ks
    ensures FirstIndex(ks + [y], k) == FirstIndex(ks, k)
  {
    assert (ks + [y])[FirstIndex(ks, k)] == k;
  }

  lemma FirstIndexAppendNew(ks: seq<string>, k: string)
    requires k !in ks
    ensures FirstIndex(ks + [k], k) == |ks|
  {
  }

  // ---------------------------------------------------------------------
  // Properties of the result
  // ---------------------------------------------------------------------

  /** The `j`-th summary belongs to the `j`-th distinct day key. */
  lemma {:induction false} DailyKeys(samples: seq<Sample>, dayKey: int -> string)
    ensures var r := DailyForecast(samples, dayKey);
      var days := Distinct(Days(samples, dayKey));
      |r| <= |days| &&
      forall j :: 0 <= j < |r| ==> dayKey(r[j].dt) == days[j]
  {
    var r := DailyForecast(samples, dayKey);
    var days := Distinct(Days(samples, dayKey));
    forall j | 0 <= j < |r| ensures dayKey(r[j].dt) == days[j] {
      var f := FirstIndex(Days(samples, dayKey), days[j]);
      assert r[j].dt == samples[f].dt;
    }
  }

  /** No two summaries share a day key. */
  lemma DailyKeysUnique(samples: seq<Sample>, dayKey: int -> string)
    ensures var r := DailyForecast(samples, dayKey);
      forall a, b :: 0 <= a < b < |r| ==> dayKey(r[a].dt) != dayKey(r[b].dt)
  {
    DailyKeys(samples, dayKey);
  }

  /** Summaries come in order of each day key's first occurrence in the input. */
  lemma DailyInFirstOccurrenceOrder(samples: seq<Sample>, dayKey: int -> string)
    ensures var r := DailyForecast(samples, dayKey);
      var ks := Days(samples, dayKey);
      forall a, b :: 0 <= a < b < |r| ==>
        dayKey(r[a].dt) in ks && dayKey(r[b].dt) in ks &&
        FirstIndex(ks, dayKey(r[a].dt)) < FirstIndex(ks, dayKey(r[b].dt))
  {
    DailyKeys(samples, dayKey);
    DistinctOrder(Days(samples, dayKey));
  }

  /** Distinct lists its keys in increasing order of first occurrence. */
  lemma {:induction false} DistinctOrder(ks: seq<string>)
    ensures var d := Distinct(ks);
      forall a, b :: 0 <= a < b < |d| ==> FirstIndex(ks, d[a]) < FirstIndex(ks, d[b])
  {
    if ks != [] {
      var n := |ks| - 1;
      var p, y := ks[..n], ks[n];
      assert ks == p + [y];
      DistinctOrder(p);
      DistinctSnoc(p, y);
      var d := Distinct(ks);
      forall k | k in p ensures FirstIndex(ks, k) == FirstIndex(p, k) {
        FirstIndexAppend(p, y, k);
      }
      if y !in p {
        FirstIndexAppendNew(p, y);
      }
      var dp := Distinct(p);
      forall a, b | 0 <= a < b < |d| ensures FirstIndex(ks, d[a]) < FirstIndex(ks, d[b]) {
        assert d[a] == dp[a] && dp[a] in p;
        if b < |dp| {
          assert d[b] == dp[b] && dp[b] in p;
        } else {
          assert y !in p && d[b] == y;
          assert FirstIndex(p, d[a]) < |p|;
        }
      }
    }
  }

  /** The number of summaries is min(D, 5), where D is the number of distinct
      day keys in the input. */
  lemma DailyLength(samples: seq<Sample>, dayKey: int -> string)
    ensures var d := |set k | k in Days(samples, dayKey)|;
      |DailyForecast(samples, dayKey)| == if d < MaxDays then d else MaxDays
  {
    DistinctCount(Days(samples, dayKey));
  }

  lemma {:induction false} DistinctCount(ks: seq<string>)
    ensures |Distinct(ks)| == |set k | k in ks|
  {
    if ks != [] {
      var n := |ks| - 1;
      var p, y := ks[..n], ks[n];
      assert ks == p + [y];
      DistinctCount(p);
      assert (set k | k in ks) == (set k | k in p) + {y};
      if y !in p {
        assert y !in (set k | k in p);
      } else {
        assert (set k | k in ks) == (set k | k in p);
      }
    }
  }

  /** min and max of each summary are the lowest and highest temperature of
      all samples of that day, and the day temperature lies between them. */
  lemma DailyTemperatures(samples: seq<Sample>, dayKey: int -> string)
    ensures var r := DailyForecast(samples, dayKey);
      forall j :: 0 <= j < |r| ==>
        && r[j].temp.min <= r[j].temp.day <= r[j].temp.max
        && (forall i :: 0 <= i < |samples| && dayKey(samples[i].dt) == dayKey(r[j].dt) ==>
              r[j].temp.min <= samples[i].main.temp <= r[j].temp.max)
        && (exists i :: 0 <= i < |samples| && dayKey(samples[i].dt) == dayKey(r[j].dt) &&
                        samples[i].main.temp == r[j].temp.min)
        && (exists i :: 0 <= i < |samples| && dayKey(samples[i].dt) == dayKey(r[j].dt) &&
                        samples[i].main.temp == r[j].temp.max)
  {
    var r := DailyForecast(samples, dayKey);
    var ks := Days(samples, dayKey);
    var days := Distinct(ks);
    DailyKeys(samples, dayKey);
    forall j | 0 <= j < |r|
      ensures r[j].temp.min <= r[j].temp.day <= r[j].temp.max
      ensures forall i :: 0 <= i < |samples| && dayKey(samples[i].dt) == dayKey(r[j].dt) ==>
              r[j].temp.min <= samples[i].main.temp <= r[j].temp.max
      ensures exists i :: 0 <= i < |samples| && dayKey(samples[i].dt) == dayKey(r[j].dt) &&
                          samples[i].main.temp == r[j].temp.min
      ensures exists i :: 0 <= i < |samples| && dayKey(samples[i].dt) == dayKey(r[j].dt) &&
                          samples[i].main.temp == r[j].temp.max
    {
      var k := days[j];
      var f := FirstIndex(ks, k);
      var day := OnDay(samples, dayKey, k);
      assert samples[f] in day;
      var lo := MinTemp(day);
      var hi := MaxTemp(day);
      var a :| 0 <= a < |day| && day[a].main.temp == lo;
      var b :| 0 <= b < |day| && day[b].main.temp == hi;
      assert day[a] in day && day[b] in day;
      var ia :| 0 <= ia < |samples| && samples[ia] == day[a];
      var ib :| 0 <= ib < |samples| && samples[ib] == day[b];
    }
  }

  /** First sample wins: a summary's timestamp, day temperature, conditions,
      humidity and wind are those of the first sample of its day, and no
      earlier sample has that day key. */
  lemma DailyFirstSampleWins(samples: seq<Sample>, dayKey: int -> string, j: nat)
    requires j < |DailyForecast(samples, dayKey)|
    ensures var r := DailyForecast(samples, dayKey);
      var ks := Days(samples, dayKey);
      exists f :: 0 <= f < |samples| && dayKey(samples[f].dt) == dayKey(r[j].dt)
        && (forall i :: 0 <= i < f ==> dayKey(samples[i].dt) != dayKey(r[j].dt))
        && r[j].dt == samples[f].dt
        && r[j].temp.day == samples[f].main.temp
        && r[j].weather == samples[f].weather
        && r[j].humidity == samples[f].main.humidity
        && r[j].windSpeed == samples[f].wind.speed
        && r[j].windDeg == samples[f].wind.deg
  {
    var r := DailyForecast(samples, dayKey);
    var ks := Days(samples, dayKey);
    DailyKeys(samples, dayKey);
    var f := FirstIndex(ks, Distinct(ks)[j]);
    assert forall i :: 0 <= i < f ==> ks[i] == dayKey(samples[i].dt);
  }
}
