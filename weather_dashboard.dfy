/** The Dashboard view's derived data: the forecast samples at six fixed clock
    times, the temperature chart, the greeting and the current chance of rain. */
module WeatherDashboard {
  import opened Numbers
  import opened Forecast
  import opened Seqs

  /** The clock times the hourly cards show. */
  const TimeSlots: seq<string> := ["06:00", "09:00", "12:00", "15:00", "18:00", "21:00"]

  predicate HasLabel(r: seq<ForecastSample>, clock: string)
  {
    exists j :: 0 <= j < |r| && r[j].timeLabel == clock
  }

  /** The `filter` step: the samples whose label is one of the slots. */
  function SlotFilter(s: seq<ForecastSample>): seq<ForecastSample>
  {
    if s == [] then []
    else SlotFilter(Init(s)) + if Last(s).timeLabel in TimeSlots then [Last(s)] else []
  }

  /** The `reduce` step: a sample is appended unless the accumulator already
      holds one with the same label. */
  function FirstPerLabel(s: seq<ForecastSample>): seq<ForecastSample>
  {
    if s == [] then []
    else
      var acc := FirstPerLabel(Init(s));
      if HasLabel(acc, Last(s).timeLabel) then acc else acc + [Last(s)]
  }

  /** The samples the hourly cards show, in one pass: a sample is kept when its
      label is a slot that no earlier kept sample has. Every kept label is a
      slot and no label is kept twice. */
  function SlotSamples(s: seq<ForecastSample>): (r: seq<ForecastSample>)
    ensures forall j :: 0 <= j < |r| ==> r[j].timeLabel in TimeSlots
    ensures forall i, j :: 0 <= i < j < |r| ==> r[i].timeLabel != r[j].timeLabel
  {
    if s == [] then []
    else
      var p := SlotSamples(Init(s));
      var x := Last(s);
      if x.timeLabel in TimeSlots && !HasLabel(p, x.timeLabel) then p + [x] else p
  }

  /** The index of the first sample labelled `clock`, or `|s|` if there is none. */
  function LabelIndex(s: seq<ForecastSample>, clock: string): (n: nat)
    ensures n <= |s|
    ensures forall k :: 0 <= k < n ==> s[k].timeLabel != clock
    ensures n < |s| ==> s[n].timeLabel == clock
  {
    if s == [] then 0
    else
      var p := LabelIndex(Init(s), clock);
      if p < |s| - 1 then p
      else if Last(s).timeLabel == clock then |s| - 1
      else |s|
  }

  /** Filtering and then reducing is the one-pass selection. */
  lemma {:induction false} SlotPipeline(s: seq<ForecastSample>)
    ensures FirstPerLabel(SlotFilter(s)) == SlotSamples(s)
  {
    if s != [] {
      SlotPipeline(Init(s));
      var f := SlotFilter(Init(s));
      if Last(s).timeLabel in TimeSlots {
        assert SlotFilter(s) == f + [Last(s)];
        Snoc(f, Last(s));
      } else {
        assert SlotFilter(s) == f;
      }
    }
  }

  /** `processHourlyForecast`. */
  method ProcessHourlyForecast(list: seq<ForecastSample>) returns (filtered: seq<ForecastSample>)
    ensures filtered == SlotSamples(list)
  {
    var candidates := SlotFilter(list);
    var acc: seq<ForecastSample> := [];
    var i := 0;
    while i < |candidates|
      invariant 0 <= i <= |candidates|
      invariant acc == FirstPerLabel(candidates[..i])
    {
      var current := candidates[i];
      assert candidates[..i + 1] == candidates[..i] + [current];
      Snoc(candidates[..i], current);
      var existing := HasLabel(acc, current.timeLabel);
      if !existing {
        acc := acc + [current];
      }
      i := i + 1;
    }
    assert candidates[..i] == candidates;
    SlotPipeline(list);
    filtered := acc;
  }

  // ---------------------------------------------------------------------
  // Facts about the selection

  /** The selection is a subsequence of the input: `idx` gives, in increasing
      order, the input position of every kept sample. */
  lemma {:induction false} SlotSamplesSubsequence(s: seq<ForecastSample>) returns (idx: seq<nat>)
    ensures |idx| == |SlotSamples(s)|
    ensures forall j :: 0 <= j < |idx| ==> idx[j] < |s| && SlotSamples(s)[j] == s[idx[j]]
    ensures forall i, j :: 0 <= i < j < |idx| ==> idx[i] < idx[j]
  {
    if s == [] {
      return [];
    }
    var p := Init(s);
    var pidx := SlotSamplesSubsequence(p);
    assert forall k :: 0 <= k < |p| ==> p[k] == s[k];
    if |SlotSamples(s)| == |SlotSamples(p)| {
      idx := pidx;
    } else {
      idx := pidx + [|s| - 1];
    }
  }

  /** The set of labels of a list. */
  function LabelSet(r: seq<ForecastSample>): set<string>
  {
    if r == [] then {} else LabelSet(Init(r)) + {Last(r).timeLabel}
  }

  lemma {:induction false} LabelSetMembers(r: seq<ForecastSample>, clock: string)
    ensures clock in LabelSet(r) <==> HasLabel(r, clock)
  {
    if r != [] {
      LabelSetMembers(Init(r), clock);
      assert forall k :: 0 <= k < |r| - 1 ==> Init(r)[k] == r[k];
      if HasLabel(r, clock) && !HasLabel(Init(r), clock) {
        assert Last(r).timeLabel == clock;
      }
    }
  }

  /** A list whose labels are distinct has as many labels as elements. */
  lemma {:induction false} DistinctLabelCount(r: seq<ForecastSample>)
    requires forall i, j :: 0 <= i < j < |r| ==> r[i].timeLabel != r[j].timeLabel
    ensures |LabelSet(r)| == |r|
  {
    if r != [] {
      var p := Init(r);
      assert forall k :: 0 <= k < |p| ==> p[k] == r[k];
      DistinctLabelCount(p);
      LabelSetMembers(p, Last(r).timeLabel);
    }
  }

  /** No more samples than slots are kept. */
  lemma AtMostOnePerSlot(s: seq<ForecastSample>)
    ensures |SlotSamples(s)| <= |TimeSlots|
  {
    var r := SlotSamples(s);
    var slots := {"06:00", "09:00", "12:00", "15:00", "18:00", "21:00"};
    DistinctLabelCount(r);
    forall clock | clock in LabelSet(r)
      ensures clock in slots
    {
      LabelSetMembers(r, clock);
    }
    assert |slots| == 6 by {
      assert "06:00"[1] != "09:00"[1];
    }
    SubsetCard(LabelSet(r), slots);
  }

  lemma SubsetCard<T>(a: set<T>, b: set<T>)
    requires a <= b
    ensures |a| <= |b|
  {
    assert b == a + (b - a);
  }

  /** First match wins: for every slot, the selection holds a sample with that
      label exactly when the input does, and that sample is the input's first
      one with that label. */
  lemma {:induction false} FirstMatchWins(s: seq<ForecastSample>, clock: string)
    requires clock in TimeSlots
    ensures HasLabel(SlotSamples(s), clock) <==> LabelIndex(s, clock) < |s|
    ensures forall j :: 0 <= j < |SlotSamples(s)| && SlotSamples(s)[j].timeLabel == clock ==>
      SlotSamples(s)[j] == s[LabelIndex(s, clock)]
  {
    if s != [] {
      var p := Init(s);
      FirstMatchWins(p, clock);
      assert forall k :: 0 <= k < |p| ==> p[k] == s[k];
      var r, rp := SlotSamples(s), SlotSamples(p);
      assert forall k :: 0 <= k < |rp| ==> r[k] == rp[k];
      if HasLabel(r, clock) && !HasLabel(rp, clock) {
        assert r[|r| - 1].timeLabel == clock;
      }
    }
  }

  /** Samples at 03:00, 06:00, 06:00 and 12:00 give the first 06:00 sample and
      the 12:00 sample, in that order. */
  lemma ExampleSlots(a: ForecastSample, b: ForecastSample, c: ForecastSample, d: ForecastSample)
    requires a.timeLabel == "03:00" && b.timeLabel == "06:00"
    requires c.timeLabel == "06:00" && d.timeLabel == "12:00"
    ensures SlotSamples([a, b, c, d]) == [b, d]
  {
    assert [a, b, c, d][..3] == [a, b, c];
    assert [a, b, c][..2] == [a, b];
    assert [a, b][..1] == [a];
    assert "03:00" !in TimeSlots by {
      assert forall t :: t in TimeSlots ==> t[1] != '3';
    }
    assert "06:00" in TimeSlots && "12:00" in TimeSlots;
    assert SlotSamples([a]) == [];
    assert SlotSamples([a, b]) == [b];
    assert HasLabel([b], c.timeLabel) by {
      assert [b][0].timeLabel == c.timeLabel;
    }
    assert SlotSamples([a, b, c]) == [b];
    assert "12:00" != "06:00" by {
      assert "12:00"[0] != "06:00"[0];
    }
  }

  // ---------------------------------------------------------------------
  // The temperature chart

  /** A point of the temperature chart; `temp` is in tenths of a degree Celsius. */
  datatype ChartPoint = ChartPoint(forecastTime: string, temp: int, timestamp: int)

  const ChartPoints: nat := 8

  /** `processTemperatureForecast`: the first eight samples, in order, each
      giving its label, its rounded Celsius temperature and its time. */
  function TemperatureForecast(list: seq<ForecastSample>): (r: seq<ChartPoint>)
    ensures |r| == if |list| < ChartPoints then |list| else ChartPoints
    ensures forall i :: 0 <= i < |r| ==>
      && r[i].forecastTime == list[i].timeLabel
      && r[i].timestamp == list[i].dt
      && NearestTenth(r[i].temp, KelvinToCelsius(list[i].tempK))
  {
    var n := if |list| < ChartPoints then |list| else ChartPoints;
    seq(n, i requires 0 <= i < n =>
      ChartPoint(list[i].timeLabel, ToFixed1(KelvinToCelsius(list[i].tempK)), list[i].dt))
  }

  /** Samples after the eighth never reach the chart. */
  lemma TemperatureForecastUsesFirstEight(list: seq<ForecastSample>, rest: seq<ForecastSample>)
    requires |list| >= ChartPoints
    ensures TemperatureForecast(list + rest) == TemperatureForecast(list)
  {
    var a, b := TemperatureForecast(list + rest), TemperatureForecast(list);
    forall i | 0 <= i < ChartPoints
      ensures a[i] == b[i]
    {
      assert (list + rest)[i] == list[i];
    }
  }

  // ---------------------------------------------------------------------
  // Greeting and current chance of rain

  /** `getTimeBasedGreeting` for the local hour `hour` (0 to 23). */
  function TimeBasedGreeting(hour: int): (g: string)
    ensures g == "Good Morning" <==> 5 <= hour < 12
    ensures g == "Good Afternoon" <==> 12 <= hour < 17
    ensures g == "Good Evening" <==> 17 <= hour < 22
    ensures g == "Good Night" <==> hour < 5 || 22 <= hour
  {
    if hour >= 5 && hour < 12 then "Good Morning"
    else if hour >= 12 && hour < 17 then "Good Afternoon"
    else if hour >= 17 && hour < 22 then "Good Evening"
    else "Good Night"
  }

  /** The Dashboard's chance of rain: the cloud cover, capped at 100. */
  function CurrentChanceOfRain(cloudsAll: real): (r: real)
    ensures r <= 100.0
    ensures cloudsAll <= 100.0 ==> r == cloudsAll
    ensures cloudsAll > 100.0 ==> r == 100.0
  {
    Min(cloudsAll, 100.0)
  }
}
