/** The severe-weather banners of `WeatherAlert`: five threshold rules over the
    current conditions, and the mute and audio switches that decide whether
    the banners are also read aloud. */
module WeatherAlert {
  import opened Numbers
  import opened Advisories

  /** A numeric field as `parseFloat(field || 0)` reads it: `Missing` stands
      for every falsy value (absent, null, "", 0, NaN), which reads as 0; any
      other value is parsed, and may give NaN. */
  datatype Field = Missing | Given(parsed: Parsed)

  /** The description field: absent, or some text. */
  datatype Text = Absent | Present(text: string)

  /** The `weatherData` the component receives. */
  datatype WeatherData = WeatherData(temp: Field, realFeel: Field, wind: Field, rain: Field, description: Text)

  /** The values the rules compare. */
  datatype Conditions = Conditions(temp: Parsed, realFeel: Parsed, wind: Parsed, rainfall: Parsed, description: string)

  function OrZero(f: Field): (p: Parsed)
    ensures f.Missing? ==> p == Num(0.0)
    ensures f.Given? ==> p == f.parsed
  {
    match f
    case Missing => Num(0.0)
    case Given(q) => q
  }

  function LowerChar(c: char): (r: char)
    ensures 'A' <= c <= 'Z' ==> r as int == c as int + 32
    ensures !('A' <= c <= 'Z') ==> r == c
  {
    if 'A' <= c <= 'Z' then (c as int + 32) as char else c
  }

  /** `toLowerCase`, for the ASCII letters. */
  function ToLower(s: string): (r: string)
    ensures |r| == |s|
    ensures forall i :: 0 <= i < |s| ==> r[i] == LowerChar(s[i])
  {
    seq(|s|, i requires 0 <= i < |s| => LowerChar(s[i]))
  }

  /** Reading the data never fails: a missing number reads as 0 and a missing
      description as the empty text. */
  function Normalize(data: WeatherData): (c: Conditions)
    ensures c.temp == (if data.temp.Missing? then Num(0.0) else data.temp.parsed)
    ensures c.wind == (if data.wind.Missing? then Num(0.0) else data.wind.parsed)
    ensures c.rainfall == (if data.rain.Missing? then Num(0.0) else data.rain.parsed)
    ensures data.description.Absent? ==> c.description == ""
    ensures data.description.Present? ==> c.description == ToLower(data.description.text)
  {
    Conditions(OrZero(data.temp), OrZero(data.realFeel), OrZero(data.wind), OrZero(data.rain),
      match data.description
      case Absent => ""
      case Present(d) => ToLower(d))
  }

  // ---------------------------------------------------------------------
  // Substrings

  /** `s.includes(w)`. */
  function Contains(s: string, w: string): bool
  {
    |w| <= |s| && (s[..|w|] == w || Contains(s[1..], w))
  }

  /** `w` occurs in `s` at position `k`. */
  predicate OccursAt(s: string, w: string, k: int)
  {
    0 <= k && k + |w| <= |s| && s[k..k + |w|] == w
  }

  /** `Contains` holds exactly when `w` occurs at some position of `s`. */
  lemma {:induction false} ContainsIff(s: string, w: string)
    ensures Contains(s, w) <==> exists k :: OccursAt(s, w, k)
    decreases |s|
  {
    if |w| <= |s| {
      if s[..|w|] == w {
        assert OccursAt(s, w, 0);
      } else {
        ContainsIff(s[1..], w);
        if exists k :: OccursAt(s, w, k) {
          var k :| OccursAt(s, w, k);
          assert k > 0;
          assert s[1..][k - 1..k - 1 + |w|] == s[k..k + |w|];
          assert OccursAt(s[1..], w, k - 1);
        }
        if Contains(s[1..], w) {
          var k :| OccursAt(s[1..], w, k);
          assert s[k + 1..k + 1 + |w|] == s[1..][k..k + |w|];
          assert OccursAt(s, w, k + 1);
        }
      }
    }
  }

  /** A description that mentions a thunderstorm also mentions a storm. */
  lemma ThunderstormMentionsStorm(s: string)
    requires Contains(s, "thunderstorm")
    ensures Contains(s, "storm")
  {
    ContainsIff(s, "thunderstorm");
    var k :| OccursAt(s, "thunderstorm", k);
    assert s[k + 7..k + 12] == s[k..k + 12][7..12] == "storm";
    assert OccursAt(s, "storm", k + 7);
    ContainsIff(s, "storm");
  }

  // ---------------------------------------------------------------------
  // The rules

  datatype AlertKind = ExtremeHeat | ExtremeCold | SevereStorm | HighWind | HeavyRainfall

  /** The order in which the source evaluates the rules, and so emits the alerts. */
  const RuleOrder: seq<AlertKind> := [ExtremeHeat, ExtremeCold, SevereStorm, HighWind, HeavyRainfall]

  function Rank(k: AlertKind): nat
  {
    match k
    case ExtremeHeat => 0
    case ExtremeCold => 1
    case SevereStorm => 2
    case HighWind => 3
    case HeavyRainfall => 4
  }

  predicate MentionsStorm(d: string)
  {
    Contains(d, "thunderstorm") || Contains(d, "storm") || Contains(d, "tornado")
  }

  /** When each rule triggers. Every threshold is strict. */
  predicate Fires(k: AlertKind, c: Conditions)
  {
    match k
    case ExtremeHeat => Above(c.temp, 40.0)
    case ExtremeCold => Below(c.temp, -10.0)
    case SevereStorm => MentionsStorm(c.description)
    case HighWind => Above(c.wind, 40.0)
    case HeavyRainfall => Contains(c.description, "rain") && Above(c.rainfall, 50.0)
  }

  /** A banner. Its severity, title, message and spoken text are fixed by
      the rule that raised it; `tenths` is the reading the message prints with
      `toFixed(1)`, in tenths (0 for the storm rule, whose message has none). */
  datatype Alert = Alert(kind: AlertKind, tenths: int)

  /** The banner a triggered rule shows. */
  function AlertOf(k: AlertKind, c: Conditions): (a: Alert)
    requires Fires(k, c)
    ensures a.kind == k
    ensures k == ExtremeHeat || k == ExtremeCold ==> NearestTenth(a.tenths, c.temp.value)
    ensures k == HighWind ==> NearestTenth(a.tenths, c.wind.value)
    ensures k == HeavyRainfall ==> NearestTenth(a.tenths, c.rainfall.value)
  {
    match k
    case ExtremeHeat => Alert(k, ToFixed1(c.temp.value))
    case ExtremeCold => Alert(k, ToFixed1(c.temp.value))
    case SevereStorm => Alert(k, 0)
    case HighWind => Alert(k, ToFixed1(c.wind.value))
    case HeavyRainfall => Alert(k, ToFixed1(c.rainfall.value))
  }

  function SeverityOf(k: AlertKind): Severity
  {
    match k
    case ExtremeHeat => Error
    case SevereStorm => Error
    case ExtremeCold => Warning
    case HighWind => Warning
    case HeavyRainfall => Warning
  }

  function Title(k: AlertKind): string
  {
    match k
    case ExtremeHeat => "Extreme Heat Warning"
    case ExtremeCold => "Extreme Cold Warning"
    case SevereStorm => "Severe Storm Warning"
    case HighWind => "High Wind Warning"
    case HeavyRainfall => "Heavy Rainfall Warning"
  }

  /** A banner's message: fixed text, or a reading between two fixed pieces. */
  datatype Message = Plain(text: string) | Reading(before: string, tenths: int, after: string)

  function MessageOf(a: Alert): Message
  {
    match a.kind
    case ExtremeHeat =>
      Reading("Current temperature is ", a.tenths,
              "°C. Stay indoors, stay hydrated, and avoid prolonged sun exposure.")
    case ExtremeCold =>
      Reading("Current temperature is ", a.tenths,
              "°C. Dress warmly and avoid prolonged exposure to the cold.")
    case SevereStorm =>
      Plain("Severe storm detected in your area. Seek shelter immediately.")
    case HighWind =>
      Reading("Strong winds of ", a.tenths,
              " km/h detected. Secure loose objects and avoid outdoor activities.")
    case HeavyRainfall =>
      Reading("Heavy rainfall detected: ", a.tenths,
              " mm. Watch out for flooding and avoid waterlogged areas.")
  }

  /** The text read aloud for a banner. */
  function AudioOf(k: AlertKind): string
  {
    match k
    case ExtremeHeat => "Extreme heat warning. Please stay indoors and stay hydrated."
    case ExtremeCold => "Extreme cold warning. Please dress warmly and avoid exposure to the cold."
    case SevereStorm => "Severe storm warning. Please seek shelter immediately."
    case HighWind => "High wind warning. Please secure outdoor objects and avoid travel if possible."
    case HeavyRainfall => "Heavy rainfall warning. Please avoid waterlogged areas and watch out for flooding."
  }

  /** No two rules share a title, so a banner's title names its rule. */
  lemma TitlesIdentifyRules(k1: AlertKind, k2: AlertKind)
    requires Title(k1) == Title(k2)
    ensures k1 == k2
  {
  }

  /** The alerts of the rules in `ks` that trigger, in the order of `ks`. */
  function Collect(ks: seq<AlertKind>, c: Conditions): seq<Alert>
  {
    if ks == [] then []
    else (if Fires(ks[0], c) then [AlertOf(ks[0], c)] else []) + Collect(ks[1..], c)
  }

  /** The alerts for a snapshot: every triggered rule, in rule order. */
  function SevereAlerts(c: Conditions): seq<Alert>
  {
    Collect(RuleOrder, c)
  }

  /** The alert a rule contributes: one if it triggers, none otherwise. */
  function Part(k: AlertKind, c: Conditions): (r: seq<Alert>)
    ensures |r| <= 1
    ensures |r| == 1 <==> Fires(k, c)
    ensures |r| == 1 ==> r[0] == AlertOf(k, c)
  {
    if Fires(k, c) then [AlertOf(k, c)] else []
  }

  lemma SevereAlertsParts(c: Conditions)
    ensures SevereAlerts(c) ==
      Part(ExtremeHeat, c) + Part(ExtremeCold, c) + Part(SevereStorm, c) + Part(HighWind, c) + Part(HeavyRainfall, c)
  {
    assert RuleOrder == [ExtremeHeat] + ([ExtremeCold] + ([SevereStorm] + ([HighWind] + ([HeavyRainfall] + []))));
    CollectCons(HeavyRainfall, [], c);
    CollectCons(HighWind, [HeavyRainfall], c);
    CollectCons(SevereStorm, [HighWind, HeavyRainfall], c);
    CollectCons(ExtremeCold, [SevereStorm, HighWind, HeavyRainfall], c);
    CollectCons(ExtremeHeat, [ExtremeCold, SevereStorm, HighWind, HeavyRainfall], c);
  }

  lemma CollectCons(k: AlertKind, ks: seq<AlertKind>, c: Conditions)
    ensures Collect([k] + ks, c) == Part(k, c) + Collect(ks, c)
  {
    assert ([k] + ks)[1..] == ks;
  }

  // ---------------------------------------------------------------------
  // Facts about the alerts

  /** Every alert comes from a rule of the list that triggered. */
  lemma {:induction false} CollectSound(ks: seq<AlertKind>, c: Conditions)
    ensures var r := Collect(ks, c);
      forall i :: 0 <= i < |r| ==>
        r[i].kind in ks && Fires(r[i].kind, c) && r[i] == AlertOf(r[i].kind, c)
  {
    if ks != [] {
      CollectSound(ks[1..], c);
      CollectCons(ks[0], ks[1..], c);
      assert ks == [ks[0]] + ks[1..];
      if Fires(ks[0], c) {
      }
    }
  }

  /** Every rule of the list that triggers gives an alert. */
  lemma {:induction false} CollectComplete(ks: seq<AlertKind>, c: Conditions, k: AlertKind)
    requires k in ks && Fires(k, c)
    ensures exists i :: 0 <= i < |Collect(ks, c)| && Collect(ks, c)[i].kind == k
  {
    var rest := Collect(ks[1..], c);
    CollectCons(ks[0], ks[1..], c);
    assert ks == [ks[0]] + ks[1..];
    var r := Collect(ks, c);
    if k == ks[0] {
      assert r[0] == AlertOf(k, c);
    } else {
      CollectComplete(ks[1..], c, k);
      var i :| 0 <= i < |rest| && rest[i].kind == k;
      assert r[i + |Part(ks[0], c)|] == rest[i];
    }
  }

  /** Over a list of rules in increasing rank, the alerts follow the ranks. */
  lemma {:induction false} CollectOrdered(ks: seq<AlertKind>, c: Conditions)
    requires forall i, j :: 0 <= i < j < |ks| ==> Rank(ks[i]) < Rank(ks[j])
    ensures var r := Collect(ks, c);
      forall i, j :: 0 <= i < j < |r| ==> Rank(r[i].kind) < Rank(r[j].kind)
  {
    if ks != [] {
      var rest := Collect(ks[1..], c);
      CollectOrdered(ks[1..], c);
      CollectSound(ks[1..], c);
      CollectCons(ks[0], ks[1..], c);
      assert ks == [ks[0]] + ks[1..];
      var r := Collect(ks, c);
      if Fires(ks[0], c) {
        assert r == [AlertOf(ks[0], c)] + rest;
        forall i, j | 0 <= i < j < |r|
          ensures Rank(r[i].kind) < Rank(r[j].kind)
        {
          assert r[j] == rest[j - 1];
          if i > 0 {
            assert r[i] == rest[i - 1];
          } else {
            var m :| 0 <= m < |ks[1..]| && ks[1..][m] == rest[j - 1].kind;
            assert ks[1..][m] == ks[m + 1];
          }
        }
      }
    }
  }

  /** Every kind of alert has a rule. */
  lemma InRuleOrder(k: AlertKind)
    ensures k in RuleOrder
  {
    assert RuleOrder[Rank(k)] == k;
  }

  /** The alerts are exactly the triggered rules' banners, in rule order. */
  lemma AlertsAreTriggeredRulesInOrder(c: Conditions)
    ensures var r := SevereAlerts(c);
      && (forall i :: 0 <= i < |r| ==> Fires(r[i].kind, c) && r[i] == AlertOf(r[i].kind, c))
      && (forall k :: Fires(k, c) ==> exists i :: 0 <= i < |r| && r[i].kind == k)
      && (forall i, j :: 0 <= i < j < |r| ==> Rank(r[i].kind) < Rank(r[j].kind))
  {
    var r := SevereAlerts(c);
    CollectSound(RuleOrder, c);
    CollectOrdered(RuleOrder, c);
    forall k | Fires(k, c)
      ensures exists i :: 0 <= i < |r| && r[i].kind == k
    {
      InRuleOrder(k);
      CollectComplete(RuleOrder, c, k);
    }
  }

  /** `temp > 40` and `temp < -10` exclude each other, so at most four of the
      five rules trigger together. */
  lemma AtMostFourAlerts(c: Conditions)
    ensures !(Fires(ExtremeHeat, c) && Fires(ExtremeCold, c))
    ensures |SevereAlerts(c)| <= 4
  {
    SevereAlertsParts(c);
  }

  /** A description that mentions a thunderstorm, in any letter case, gives
      exactly one storm banner, although it also mentions a storm. */
  lemma ThunderstormGivesOneStormAlert(data: WeatherData)
    requires data.description.Present?
    requires Contains(ToLower(data.description.text), "thunderstorm")
    ensures var r := SevereAlerts(Normalize(data));
      exists i :: 0 <= i < |r| && r[i].kind == SevereStorm &&
        forall j :: 0 <= j < |r| && j != i ==> r[j].kind != SevereStorm
  {
    var c := Normalize(data);
    ThunderstormMentionsStorm(c.description);
    AlertsAreTriggeredRulesInOrder(c);
    var r := SevereAlerts(c);
    assert Fires(SevereStorm, c);
    var i :| 0 <= i < |r| && r[i].kind == SevereStorm;
    forall j | 0 <= j < |r| && j != i
      ensures r[j].kind != SevereStorm
    {
      if j < i {
        assert Rank(r[j].kind) < Rank(r[i].kind);
      } else {
        assert Rank(r[i].kind) < Rank(r[j].kind);
      }
    }
  }

  /** The storm rule reads the lower-cased description. */
  lemma ExampleUpperCaseStorm()
    ensures Fires(SevereStorm, Normalize(WeatherData(Missing, Missing, Missing, Missing, Present("Tornado"))))
  {
    var d := ToLower("Tornado");
    assert d == "tornado";
    assert d[..7] == "tornado";
  }

  /** Without a `rain` field there is no rainfall banner. */
  lemma NoRainFieldNoRainfallAlert(data: WeatherData)
    requires data.rain.Missing?
    ensures forall i :: 0 <= i < |SevereAlerts(Normalize(data))| ==>
      SevereAlerts(Normalize(data))[i].kind != HeavyRainfall
  {
    AlertsAreTriggeredRulesInOrder(Normalize(data));
  }

  /** Data with every field missing gives no banner at all. */
  lemma EmptyDataNoAlerts()
    ensures SevereAlerts(Normalize(WeatherData(Missing, Missing, Missing, Missing, Absent))) == []
  {
    SevereAlertsParts(Normalize(WeatherData(Missing, Missing, Missing, Missing, Absent)));
  }

  /** The thresholds are strict: exactly 40 °C, -10 °C, 40 km/h or 50 mm
      trigger nothing. */
  lemma ThresholdsAreStrict(d: string)
    ensures SevereAlerts(Conditions(Num(40.0), Num(0.0), Num(40.0), Num(50.0), "")) == []
    ensures !Fires(ExtremeCold, Conditions(Num(-10.0), Num(0.0), Num(0.0), Num(0.0), d))
    ensures !Fires(HeavyRainfall, Conditions(Num(0.0), Num(0.0), Num(0.0), Num(50.0), d))
  {
    SevereAlertsParts(Conditions(Num(40.0), Num(0.0), Num(40.0), Num(50.0), ""));
  }

  /** 42 °C and nothing else gives exactly one banner, the heat warning. */
  lemma ExampleHeat()
    ensures var r := SevereAlerts(Normalize(WeatherData(Given(Num(42.0)), Missing, Missing, Missing, Absent)));
      |r| == 1 && r[0].kind == ExtremeHeat && SeverityOf(r[0].kind) == Error && r[0].tenths == 420
  {
    SevereAlertsParts(Normalize(WeatherData(Given(Num(42.0)), Missing, Missing, Missing, Absent)));
  }

  // ---------------------------------------------------------------------
  // Read-aloud decision

  /** What `playAlerts` reads out for a new list of alerts: every alert's
      audio text in order when the list is non-empty, audio is enabled, not
      muted and an audio context exists; nothing otherwise. */
  function SpokenAlerts(newAlerts: seq<Alert>, audioEnabled: bool, isMuted: bool, hasAudioContext: bool): (r: seq<string>)
    ensures |r| > 0 <==> |newAlerts| > 0 && audioEnabled && !isMuted && hasAudioContext
    ensures |r| > 0 ==> |r| == |newAlerts| && forall i :: 0 <= i < |r| ==> r[i] == AudioOf(newAlerts[i].kind)
  {
    if |newAlerts| > 0 && audioEnabled && !isMuted && hasAudioContext then
      seq(|newAlerts|, i requires 0 <= i < |newAlerts| => AudioOf(newAlerts[i].kind))
    else []
  }

  // ---------------------------------------------------------------------
  // The component's state

  /** `removeAlert(index)`: `filter((_, i) => i !== index)`. */
  function RemoveAt(alerts: seq<Alert>, index: int): seq<Alert>
  {
    if alerts == [] then []
    else (if index == 0 then [] else [alerts[0]]) + RemoveAt(alerts[1..], index - 1)
  }

  /** Removing drops exactly position `index` and keeps the rest in order; an
      index outside the list changes nothing. */
  lemma {:induction false} RemoveAtDropsOne(alerts: seq<Alert>, index: int)
    ensures 0 <= index < |alerts| ==> RemoveAt(alerts, index) == alerts[..index] + alerts[index + 1..]
    ensures !(0 <= index < |alerts|) ==> RemoveAt(alerts, index) == alerts
  {
    if alerts != [] {
      RemoveAtDropsOne(alerts[1..], index - 1);
      if 0 < index < |alerts| {
        assert alerts[1..][..index - 1] == alerts[1..index];
        assert alerts[1..][index - 1 + 1..] == alerts[index + 1..];
        assert [alerts[0]] + alerts[1..index] == alerts[..index];
      } else if index == 0 {
        assert alerts[1..] == alerts[index + 1..];
      } else {
        assert [alerts[0]] + alerts[1..] == alerts;
      }
    }
  }

  /** The banners shown, and the audio switches. `hasAudioContext` says
      whether `audioContext` is set. */
  class AlertPanel {
    var alerts: seq<Alert>
    var isMuted: bool
    var audioEnabled: bool
    var hasAudioContext: bool

    /** Audio is only ever enabled together with a context, and while it is
        disabled the panel counts as muted. */
    ghost predicate Valid()
      reads this
    {
      (audioEnabled ==> hasAudioContext) && (!audioEnabled ==> isMuted)
    }

    /** The panel starts with no banners, muted, with audio disabled. */
    constructor ()
      ensures Valid()
      ensures alerts == [] && isMuted && !audioEnabled && !hasAudioContext
    {
      alerts := [];
      isMuted := true;
      audioEnabled := false;
      hasAudioContext := false;
    }

    /** `initializeAudio`: when the browser can create an audio context, it
        is kept, audio is enabled and unmuted; when the constructor throws,
        the error is caught and nothing changes. */
    method InitializeAudio(contextAvailable: bool)
      requires Valid()
      modifies this
      ensures Valid()
      ensures alerts == old(alerts)
      ensures contextAvailable ==> hasAudioContext && audioEnabled && !isMuted
      ensures !contextAvailable ==>
        isMuted == old(isMuted) && audioEnabled == old(audioEnabled) && hasAudioContext == old(hasAudioContext)
    {
      if contextAvailable {
        hasAudioContext := true;
        audioEnabled := true;
        isMuted := false;
      }
    }

    /** `toggleMute`: the first press, while audio is disabled, initialises
        audio; every later press only flips `isMuted`. */
    method ToggleMute(contextAvailable: bool)
      requires Valid()
      modifies this
      ensures Valid()
      ensures alerts == old(alerts)
      ensures !old(audioEnabled) ==>
        if contextAvailable then audioEnabled && !isMuted && hasAudioContext
        else isMuted == old(isMuted) && !audioEnabled && hasAudioContext == old(hasAudioContext)
      ensures old(audioEnabled) ==>
        audioEnabled && isMuted == !old(isMuted) && hasAudioContext == old(hasAudioContext)
    {
      if !audioEnabled {
        InitializeAudio(contextAvailable);
      } else {
        isMuted := !isMuted;
      }
    }

    /** `checkForSevereConditions`: the rules push their banners in order into
        a new list, which replaces the old one wholesale; `spoken` is what is
        then read aloud. */
    method CheckForSevereConditions(data: WeatherData) returns (spoken: seq<string>)
      requires Valid()
      modifies this
      ensures Valid()
      ensures alerts == SevereAlerts(Normalize(data))
      ensures spoken == SpokenAlerts(alerts, audioEnabled, isMuted, hasAudioContext)
      ensures |spoken| > 0 <==> |alerts| > 0 && audioEnabled && !isMuted
      ensures isMuted == old(isMuted) && audioEnabled == old(audioEnabled) && hasAudioContext == old(hasAudioContext)
    {
      var c := Normalize(data);
      var newAlerts: seq<Alert> := [];
      if Above(c.temp, 40.0) {
        newAlerts := newAlerts + [AlertOf(ExtremeHeat, c)];
      }
      assert newAlerts == Part(ExtremeHeat, c);
      if Below(c.temp, -10.0) {
        newAlerts := newAlerts + [AlertOf(ExtremeCold, c)];
      }
      assert newAlerts == Part(ExtremeHeat, c) + Part(ExtremeCold, c);
      if MentionsStorm(c.description) {
        newAlerts := newAlerts + [AlertOf(SevereStorm, c)];
      }
      assert newAlerts == Part(ExtremeHeat, c) + Part(ExtremeCold, c) + Part(SevereStorm, c);
      if Above(c.wind, 40.0) {
        newAlerts := newAlerts + [AlertOf(HighWind, c)];
      }
      assert newAlerts == Part(ExtremeHeat, c) + Part(ExtremeCold, c) + Part(SevereStorm, c) + Part(HighWind, c);
      if Contains(c.description, "rain") && Above(c.rainfall, 50.0) {
        newAlerts := newAlerts + [AlertOf(HeavyRainfall, c)];
      }
      SevereAlertsParts(c);
      alerts := newAlerts;
      spoken := [];
      if |newAlerts| > 0 && audioEnabled && !isMuted {
        if hasAudioContext {
          spoken := seq(|newAlerts|, i requires 0 <= i < |newAlerts| => AudioOf(newAlerts[i].kind));
        }
      }
    }

    /** `removeAlert`: the banner at `index` is dismissed. */
    method RemoveAlert(index: int)
      requires Valid()
      modifies this
      ensures Valid()
      ensures alerts == RemoveAt(old(alerts), index)
      ensures isMuted == old(isMuted) && audioEnabled == old(audioEnabled) && hasAudioContext == old(hasAudioContext)
    {
      alerts := RemoveAt(alerts, index);
    }
  }
}
