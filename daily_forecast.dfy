/** `processDailyForecasts` of the Details view: the forecast samples grouped
    by UTC day, each day summarised by its high, its low and the condition of
    its first sample, at most seven days. */
module DailyForecast {
  import opened Numbers
  import opened Forecast
  import opened Seqs

  /** What the source keeps in `dailyData[dateKey]`: the day's Celsius
      temperatures, and the time and condition of its first sample. */
  datatype DayBucket = DayBucket(temps: seq<real>, date: int, weather: string)

  /** One row of the forecast; `high` and `low` are in tenths of a degree
      (what `toFixed(1)` prints), `date` is the Unix time the row's label is
      formatted from. */
  datatype DailySummary = DailySummary(date: int, high: int, low: int, weather: string)

  const MaxDays: nat := 7

  function Key(x: ForecastSample): int
  {
    DayKey(x.dt)
  }

  /** The day keys of `s`, each once, in order of first appearance. */
  function Keys(s: seq<ForecastSample>): (r: seq<int>)
    ensures |r| <= |s|
    ensures forall i, j :: 0 <= i < j < |r| ==> r[i] != r[j]
  {
    if s == [] then []
    else
      var p := Keys(Init(s));
      if Key(Last(s)) in p then p else p + [Key(Last(s))]
  }

  /** The index of the first sample of day `d`, or `|s|` when no sample falls on it. */
  function FirstIndex(s: seq<ForecastSample>, d: int): (n: nat)
    ensures n <= |s|
    ensures forall k :: 0 <= k < n ==> Key(s[k]) != d
    ensures n < |s| ==> Key(s[n]) == d
  {
    if s == [] then 0
    else
      var p := FirstIndex(Init(s), d);
      if p < |s| - 1 then p
      else if Key(Last(s)) == d then |s| - 1
      else |s|
  }

  /** The Celsius temperatures of the samples of day `d`, in input order. */
  function DayTemps(s: seq<ForecastSample>, d: int): seq<real>
  {
    if s == [] then []
    else DayTemps(Init(s), d) + (if Key(Last(s)) == d then [KelvinToCelsius(Last(s).tempK)] else [])
  }

  /** What `dailyData[d]` holds once every sample of `s` is processed. */
  function BucketOf(s: seq<ForecastSample>, d: int): DayBucket
    requires FirstIndex(s, d) < |s|
  {
    DayBucket(DayTemps(s, d), s[FirstIndex(s, d)].dt, s[FirstIndex(s, d)].weatherMain)
  }

  function Summarize(b: DayBucket): DailySummary
    requires |b.temps| > 0
  {
    DailySummary(b.date, ToFixed1(SeqMax(b.temps)), ToFixed1(SeqMin(b.temps)), b.weather)
  }

  /** The forecast the view shows: one summary per day, in order of first
      appearance, cut to seven days. */
  function DailyForecasts(s: seq<ForecastSample>): seq<DailySummary>
  {
    var keys := Keys(s);
    var n := if |keys| < MaxDays then |keys| else MaxDays;
    KeysHaveBuckets(s);
    seq(n, i requires 0 <= i < n => Summarize(BucketOf(s, keys[i])))
  }

  // ---------------------------------------------------------------------
  // Facts about the grouping

  /** A day is listed exactly when some sample falls on it. */
  lemma {:induction false} KeysAreDaysPresent(s: seq<ForecastSample>, d: int)
    ensures d in Keys(s) <==> FirstIndex(s, d) < |s|
  {
    if s != [] {
      KeysAreDaysPresent(Init(s), d);
    }
  }

  /** The temperatures of a day are the Celsius temperatures of exactly the
      samples that fall on it. */
  lemma {:induction false} DayTempsMembers(s: seq<ForecastSample>, d: int, t: real)
    ensures t in DayTemps(s, d) <==>
      exists k :: 0 <= k < |s| && Key(s[k]) == d && t == KelvinToCelsius(s[k].tempK)
  {
    if s != [] {
      DayTempsMembers(Init(s), d, t);
      if t in DayTemps(s, d) && t !in DayTemps(Init(s), d) {
        assert Key(s[|s| - 1]) == d && t == KelvinToCelsius(s[|s| - 1].tempK);
      }
      if exists k :: 0 <= k < |s| && Key(s[k]) == d && t == KelvinToCelsius(s[k].tempK) {
        var k :| 0 <= k < |s| && Key(s[k]) == d && t == KelvinToCelsius(s[k].tempK);
        if k < |s| - 1 {
          assert Init(s)[k] == s[k];
        }
      }
    }
  }

  lemma DayTempsNonEmpty(s: seq<ForecastSample>, d: int)
    requires FirstIndex(s, d) < |s|
    ensures |DayTemps(s, d)| > 0
  {
    var k := FirstIndex(s, d);
    DayTempsMembers(s, d, KelvinToCelsius(s[k].tempK));
  }

  lemma KeysHaveBuckets(s: seq<ForecastSample>)
    ensures forall d :: d in Keys(s) ==> FirstIndex(s, d) < |s| && |DayTemps(s, d)| > 0
  {
    forall d | d in Keys(s)
      ensures FirstIndex(s, d) < |s| && |DayTemps(s, d)| > 0
    {
      KeysAreDaysPresent(s, d);
      DayTempsNonEmpty(s, d);
    }
  }

  /** The days are listed in the order in which they first appear. */
  lemma {:induction false} KeysInFirstAppearanceOrder(s: seq<ForecastSample>, i: nat, j: nat)
    requires i < j < |Keys(s)|
    ensures FirstIndex(s, Keys(s)[i]) < FirstIndex(s, Keys(s)[j])
  {
    var p := Init(s);
    var ks := Keys(s);
    var e1, e2 := ks[i], ks[j];
    KeysAreDaysPresent(p, e1);
    if j < |Keys(p)| {
      KeysInFirstAppearanceOrder(p, i, j);
      KeysAreDaysPresent(p, e2);
    } else {
      assert i < |Keys(p)| && e1 == Keys(p)[i];
      assert e2 == Key(Last(s)) && e2 !in Keys(p);
      KeysAreDaysPresent(p, e2);
    }
  }

  /** When the samples come in time order, the days come in calendar order. */
  lemma {:induction false} KeysChronological(s: seq<ForecastSample>, i: nat, j: nat)
    requires forall a, b :: 0 <= a < b < |s| ==> s[a].dt <= s[b].dt
    requires i < j < |Keys(s)|
    ensures Keys(s)[i] < Keys(s)[j]
  {
    var p := Init(s);
    var ks := Keys(s);
    if j < |Keys(p)| {
      KeysChronological(p, i, j);
    } else {
      var e := ks[i];
      assert e in Keys(p) && ks[j] == Key(Last(s)) && ks[j] !in Keys(p);
      KeysAreDaysPresent(p, e);
      var k := FirstIndex(p, e);
      DayKeyMonotone(s[k].dt, s[|s| - 1].dt);
      assert e == Key(s[k]);
    }
  }

  // ---------------------------------------------------------------------
  // Facts about the summaries

  lemma DailyCount(s: seq<ForecastSample>)
    ensures |DailyForecasts(s)| == if |Keys(s)| < MaxDays then |Keys(s)| else MaxDays
    ensures |DailyForecasts(s)| <= MaxDays
    ensures s == [] ==> DailyForecasts(s) == []
  {
  }

  /** Row `i` summarises the `i`-th day: its date and condition come from the
      day's first sample, its high and low are the rounded largest and
      smallest Celsius temperature of the day, so high is never below low. */
  lemma DailyEntry(s: seq<ForecastSample>, i: nat)
    requires i < |DailyForecasts(s)|
    ensures var row, d := DailyForecasts(s)[i], Keys(s)[i];
      && FirstIndex(s, d) < |s|
      && row.date == s[FirstIndex(s, d)].dt
      && row.weather == s[FirstIndex(s, d)].weatherMain
      && row.low <= row.high
      && (forall k :: 0 <= k < |s| && Key(s[k]) == d ==>
            row.low <= ToFixed1(KelvinToCelsius(s[k].tempK)) <= row.high)
      && (exists k :: 0 <= k < |s| && Key(s[k]) == d && row.high == ToFixed1(KelvinToCelsius(s[k].tempK)))
      && (exists k :: 0 <= k < |s| && Key(s[k]) == d && row.low == ToFixed1(KelvinToCelsius(s[k].tempK)))
  {
    var d := Keys(s)[i];
    KeysHaveBuckets(s);
    var temps := DayTemps(s, d);
    var hi, lo := SeqMax(temps), SeqMin(temps);
    ToFixed1Monotone(lo, hi);
    forall k | 0 <= k < |s| && Key(s[k]) == d
      ensures ToFixed1(lo) <= ToFixed1(KelvinToCelsius(s[k].tempK)) <= ToFixed1(hi)
    {
      DayTempsMembers(s, d, KelvinToCelsius(s[k].tempK));
      ToFixed1Monotone(lo, KelvinToCelsius(s[k].tempK));
      ToFixed1Monotone(KelvinToCelsius(s[k].tempK), hi);
    }
    DayTempsMembers(s, d, hi);
    DayTempsMembers(s, d, lo);
  }

  // ---------------------------------------------------------------------
  // The source's loop

  lemma BucketStepOld(s: seq<ForecastSample>, x: ForecastSample, d: int)
    requires FirstIndex(s, d) < |s|
    ensures FirstIndex(s + [x], d) == FirstIndex(s, d)
    ensures BucketOf(s + [x], d) ==
      BucketOf(s, d).(temps := BucketOf(s, d).temps + if Key(x) == d then [KelvinToCelsius(x.tempK)] else [])
  {
    Snoc(s, x);
    assert (s + [x])[FirstIndex(s, d)] == s[FirstIndex(s, d)];
  }

  lemma {:induction false} DayTempsAbsent(s: seq<ForecastSample>, d: int)
    requires FirstIndex(s, d) == |s|
    ensures DayTemps(s, d) == []
  {
    if s != [] {
      DayTempsAbsent(Init(s), d);
    }
  }

  lemma BucketStepNew(s: seq<ForecastSample>, x: ForecastSample)
    requires FirstIndex(s, Key(x)) == |s|
    ensures FirstIndex(s + [x], Key(x)) == |s|
    ensures BucketOf(s + [x], Key(x)) == DayBucket([KelvinToCelsius(x.tempK)], x.dt, x.weatherMain)
  {
    Snoc(s, x);
    DayTempsAbsent(s, Key(x));
  }

  /** The state of the source's `forEach` after the samples `s`: `order` lists
      the keys of `dailyData` in insertion order, and each bucket holds what
      `BucketOf` says. */
  ghost predicate Grouped(s: seq<ForecastSample>, order: seq<int>, dailyData: map<int, DayBucket>)
  {
    && order == Keys(s)
    && (forall d :: d in dailyData <==> d in order)
    && (forall d :: d in dailyData ==> FirstIndex(s, d) < |s| && dailyData[d] == BucketOf(s, d))
  }

  /** One iteration of the `forEach` keeps `Grouped`. */
  lemma GroupedStep(s: seq<ForecastSample>, x: ForecastSample,
                    order: seq<int>, dailyData: map<int, DayBucket>,
                    order': seq<int>, dailyData': map<int, DayBucket>)
    requires Grouped(s, order, dailyData)
    requires order' == if Key(x) in dailyData then order else order + [Key(x)]
    requires dailyData' ==
      var day := if Key(x) in dailyData then dailyData[Key(x)] else DayBucket([], x.dt, x.weatherMain);
      dailyData[Key(x) := day.(temps := day.temps + [KelvinToCelsius(x.tempK)])]
    ensures Grouped(s + [x], order', dailyData')
  {
    Snoc(s, x);
    KeysAreDaysPresent(s, Key(x));
    if Key(x) !in dailyData {
      BucketStepNew(s, x);
    }
    forall d | d in dailyData'
      ensures FirstIndex(s + [x], d) < |s + [x]| && dailyData'[d] == BucketOf(s + [x], d)
    {
      if d in dailyData {
        BucketStepOld(s, x, d);
      }
    }
  }

  /** Once every sample is grouped, cutting to seven days and summarising gives
      the specified forecast. */
  lemma GroupedSummaries(s: seq<ForecastSample>, order: seq<int>, dailyData: map<int, DayBucket>, n: nat)
    requires Grouped(s, order, dailyData)
    requires n == if |order| < MaxDays then |order| else MaxDays
    ensures forall k :: 0 <= k < n ==> order[k] in dailyData && |dailyData[order[k]].temps| > 0
    ensures DailyForecasts(s) ==
      seq(n, k requires 0 <= k < n && order[k] in dailyData && |dailyData[order[k]].temps| > 0 =>
        Summarize(dailyData[order[k]]))
  {
    KeysHaveBuckets(s);
    forall k | 0 <= k < n
      ensures order[k] in dailyData && |dailyData[order[k]].temps| > 0
    {
      assert order[k] in Keys(s);
      assert dailyData[order[k]].temps == DayTemps(s, order[k]);
    }
  }

  /** `processDailyForecasts`: the `forEach` fills `dailyData`, a dictionary
      whose values `Object.values` returns in insertion order (kept here in
      `order`); then the first seven days are summarised. */
  method ProcessDailyForecasts(forecastList: seq<ForecastSample>) returns (days: seq<DailySummary>)
    ensures days == DailyForecasts(forecastList)
  {
    var dailyData: map<int, DayBucket> := map[];
    var order: seq<int> := [];
    var i := 0;
    while i < |forecastList|
      invariant 0 <= i <= |forecastList|
      invariant Grouped(forecastList[..i], order, dailyData)
    {
      var forecast := forecastList[i];
      var dateKey := DayKey(forecast.dt);
      ghost var order0, dailyData0 := order, dailyData;
      if dateKey !in dailyData {
        dailyData := dailyData[dateKey := DayBucket([], forecast.dt, forecast.weatherMain)];
        order := order + [dateKey];
      }
      var day := dailyData[dateKey];
      dailyData := dailyData[dateKey := day.(temps := day.temps + [KelvinToCelsius(forecast.tempK)])];
      GroupedStep(forecastList[..i], forecast, order0, dailyData0, order, dailyData);
      assert forecastList[..i + 1] == forecastList[..i] + [forecast];
      i := i + 1;
    }
    assert forecastList[..i] == forecastList;
    var n := if |order| < 7 then |order| else 7;
    GroupedSummaries(forecastList, order, dailyData, n);
    days := seq(n, k requires 0 <= k < n => Summarize(dailyData[order[k]]));
  }
}
