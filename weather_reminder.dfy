/** The reminder cards of `WeatherReminder`: advisories about heat, rain and
    cool weather chosen from the current temperature and chance of rain. */
module WeatherReminder {
  import opened Numbers
  import opened Advisories

  datatype Reminder = ExtremeHeatAlert | HeatAdvisory | RainLikely | CoolWeatherAlert | ColdWeatherAlert

  datatype Icon = Sun | Droplet | Umbrella | Wind

  function SeverityOf(r: Reminder): Severity
  {
    match r
    case ExtremeHeatAlert => Warning
    case HeatAdvisory => Warning
    case RainLikely => Info
    case CoolWeatherAlert => Info
    case ColdWeatherAlert => Warning
  }

  function IconOf(r: Reminder): Icon
  {
    match r
    case ExtremeHeatAlert => Sun
    case HeatAdvisory => Droplet
    case RainLikely => Umbrella
    case CoolWeatherAlert => Wind
    case ColdWeatherAlert => Wind
  }

  function Title(r: Reminder): string
  {
    match r
    case ExtremeHeatAlert => "Extreme Heat Alert"
    case HeatAdvisory => "Heat Advisory"
    case RainLikely => "Rain Likely"
    case CoolWeatherAlert => "Cool Weather Alert"
    case ColdWeatherAlert => "Cold Weather Alert"
  }

  function Message(r: Reminder): string
  {
    match r
    case ExtremeHeatAlert => "Stay hydrated! Bring water and avoid prolonged sun exposure."
    case HeatAdvisory => "Remember to drink plenty of water and bring sun protection."
    case RainLikely => "Don't forget your umbrella or raincoat!"
    case CoolWeatherAlert => "Bring a light jacket or sweater today."
    case ColdWeatherAlert => "Bundle up! Wear warm clothing and bring a jacket."
  }

  /** The order in which the source tests the reminders. */
  const ReminderOrder: seq<Reminder> := [ExtremeHeatAlert, HeatAdvisory, RainLikely, CoolWeatherAlert, ColdWeatherAlert]

  /** When each card is shown, with the `else` of each `else if` written
      out: the heat advisory needs the extreme-heat test to fail, and the cold
      card needs the cool test to fail. */
  predicate Shown(r: Reminder, temp: Parsed, chanceOfRain: Parsed)
  {
    match r
    case ExtremeHeatAlert => AtLeast(temp, 35.0)
    case HeatAdvisory => !AtLeast(temp, 35.0) && AtLeast(temp, 30.0)
    case RainLikely => AtLeast(chanceOfRain, 29.0)
    case CoolWeatherAlert => AtMost(temp, 20.0)
    case ColdWeatherAlert => !AtMost(temp, 20.0) && AtMost(temp, 15.0)
  }

  /** The cards of `rs` that are shown, in the order of `rs`. */
  function Select(rs: seq<Reminder>, temp: Parsed, chanceOfRain: Parsed): seq<Reminder>
  {
    if rs == [] then []
    else (if Shown(rs[0], temp, chanceOfRain) then [rs[0]] else []) + Select(rs[1..], temp, chanceOfRain)
  }

  /** The cards for a reading: every shown card, in test order. */
  function Reminders(temp: Parsed, chanceOfRain: Parsed): seq<Reminder>
  {
    Select(ReminderOrder, temp, chanceOfRain)
  }

  /** The contribution of one card. */
  function Part(r: Reminder, temp: Parsed, chanceOfRain: Parsed): (p: seq<Reminder>)
    ensures |p| <= 1
    ensures |p| == 1 <==> Shown(r, temp, chanceOfRain)
    ensures forall i :: 0 <= i < |p| ==> p[i] == r
  {
    if Shown(r, temp, chanceOfRain) then [r] else []
  }

  lemma SelectCons(r: Reminder, rs: seq<Reminder>, temp: Parsed, chanceOfRain: Parsed)
    ensures Select([r] + rs, temp, chanceOfRain) == Part(r, temp, chanceOfRain) + Select(rs, temp, chanceOfRain)
  {
    assert ([r] + rs)[1..] == rs;
  }

  lemma RemindersParts(temp: Parsed, chanceOfRain: Parsed)
    ensures Reminders(temp, chanceOfRain) ==
      Part(ExtremeHeatAlert, temp, chanceOfRain) + Part(HeatAdvisory, temp, chanceOfRain) +
      Part(RainLikely, temp, chanceOfRain) + Part(CoolWeatherAlert, temp, chanceOfRain) +
      Part(ColdWeatherAlert, temp, chanceOfRain)
  {
    var t, c := temp, chanceOfRain;
    assert ReminderOrder ==
      [ExtremeHeatAlert] + ([HeatAdvisory] + ([RainLikely] + ([CoolWeatherAlert] + ([ColdWeatherAlert] + []))));
    SelectCons(ColdWeatherAlert, [], t, c);
    SelectCons(CoolWeatherAlert, [ColdWeatherAlert], t, c);
    SelectCons(RainLikely, [CoolWeatherAlert, ColdWeatherAlert], t, c);
    SelectCons(HeatAdvisory, [RainLikely, CoolWeatherAlert, ColdWeatherAlert], t, c);
    SelectCons(ExtremeHeatAlert, [HeatAdvisory, RainLikely, CoolWeatherAlert, ColdWeatherAlert], t, c);
  }

  /** `getReminders`: `temp` and `chanceOfRain` are the `parseFloat` readings
      of the two fields. The wind speed the source also parses is never used. */
  method GetReminders(temp: Parsed, chanceOfRain: Parsed) returns (reminders: seq<Reminder>)
    ensures reminders == Reminders(temp, chanceOfRain)
  {
    reminders := [];
    if AtLeast(temp, 35.0) {
      reminders := reminders + [ExtremeHeatAlert];
    } else if AtLeast(temp, 30.0) {
      reminders := reminders + [HeatAdvisory];
    }
    if AtLeast(chanceOfRain, 29.0) {
      reminders := reminders + [RainLikely];
    }
    if AtMost(temp, 20.0) {
      reminders := reminders + [CoolWeatherAlert];
    } else if AtMost(temp, 15.0) {
      reminders := reminders + [ColdWeatherAlert];
    }
    RemindersParts(temp, chanceOfRain);
  }

  // ---------------------------------------------------------------------
  // Facts about the cards

  /** The two heat cards exclude each other, and both are warnings; the
      extreme one is shown from 35 degrees, the advisory from 30 up to 35. */
  lemma HeatCardsExclusive(temp: Parsed, chanceOfRain: Parsed)
    ensures var r := Reminders(temp, chanceOfRain);
      && !(ExtremeHeatAlert in r && HeatAdvisory in r)
      && (ExtremeHeatAlert in r <==> temp.Num? && temp.value >= 35.0)
      && (HeatAdvisory in r <==> temp.Num? && 30.0 <= temp.value < 35.0)
    ensures SeverityOf(ExtremeHeatAlert) == Warning && SeverityOf(HeatAdvisory) == Warning
  {
    RemindersParts(temp, chanceOfRain);
  }

  /** "Rain Likely" is shown exactly when the chance of rain is at least 29,
      and it is an information card. */
  lemma RainLikelyIff(temp: Parsed, chanceOfRain: Parsed)
    ensures RainLikely in Reminders(temp, chanceOfRain) <==> chanceOfRain.Num? && chanceOfRain.value >= 29.0
    ensures SeverityOf(RainLikely) == Info
  {
    RemindersParts(temp, chanceOfRain);
  }

  /** "Cool Weather Alert" is shown exactly when the temperature is at most
      20, and "Cold Weather Alert" is never shown: every temperature at most
      15 is also at most 20, so the first branch always wins. */
  lemma CoolShownColdNever(temp: Parsed, chanceOfRain: Parsed)
    ensures CoolWeatherAlert in Reminders(temp, chanceOfRain) <==> temp.Num? && temp.value <= 20.0
    ensures ColdWeatherAlert !in Reminders(temp, chanceOfRain)
  {
    RemindersParts(temp, chanceOfRain);
  }

  /** At 10 degrees the cool card is shown, not the cold one. */
  lemma ExampleTenDegrees()
    ensures Reminders(Num(10.0), Num(0.0)) == [CoolWeatherAlert]
  {
    RemindersParts(Num(10.0), Num(0.0));
  }

  /** A heat card and the cool card never appear together, so at most two
      cards are shown, in the order heat, rain, cool. */
  lemma AtMostTwoInOrder(temp: Parsed, chanceOfRain: Parsed)
    ensures var r := Reminders(temp, chanceOfRain);
      && |r| <= 2
      && (forall i, j :: 0 <= i < j < |r| ==> Rank(r[i]) < Rank(r[j]))
  {
    RemindersParts(temp, chanceOfRain);
  }

  function Rank(r: Reminder): nat
  {
    match r
    case ExtremeHeatAlert => 0
    case HeatAdvisory => 0
    case RainLikely => 1
    case CoolWeatherAlert => 2
    case ColdWeatherAlert => 2
  }

  /** A reading that does not parse triggers nothing: no temperature card
      for a NaN temperature, no rain card for a NaN chance. */
  lemma NaNTriggersNothing(temp: Parsed, chanceOfRain: Parsed)
    ensures temp.NaN? ==> forall i :: 0 <= i < |Reminders(temp, chanceOfRain)| ==>
      Reminders(temp, chanceOfRain)[i] == RainLikely
    ensures chanceOfRain.NaN? ==> RainLikely !in Reminders(temp, chanceOfRain)
    ensures temp.NaN? && chanceOfRain.NaN? ==> Reminders(temp, chanceOfRain) == []
  {
    RemindersParts(temp, chanceOfRain);
  }

  /** Every card shown is a warning or an information card. */
  lemma SeveritiesWarningOrInfo(temp: Parsed, chanceOfRain: Parsed)
    ensures forall i :: 0 <= i < |Reminders(temp, chanceOfRain)| ==>
      SeverityOf(Reminders(temp, chanceOfRain)[i]) in {Warning, Info}
  {
    RemindersParts(temp, chanceOfRain);
  }

  // ---------------------------------------------------------------------
  // The cold card as evidently intended

  /** The cold branch tested before the cool one, so that the cold card is
      shown at 15 degrees and below and the cool card above 15 up to 20. */
  function IntendedColdSide(temp: Parsed): (p: seq<Reminder>)
    ensures ColdWeatherAlert in p <==> temp.Num? && temp.value <= 15.0
    ensures CoolWeatherAlert in p <==> temp.Num? && 15.0 < temp.value <= 20.0
    ensures |p| <= 1
  {
    if AtMost(temp, 15.0) then [ColdWeatherAlert]
    else if AtMost(temp, 20.0) then [CoolWeatherAlert]
    else []
  }

  /** The cards with the intended cold side. */
  function IntendedReminders(temp: Parsed, chanceOfRain: Parsed): seq<Reminder>
  {
    Part(ExtremeHeatAlert, temp, chanceOfRain) + Part(HeatAdvisory, temp, chanceOfRain) +
    Part(RainLikely, temp, chanceOfRain) + IntendedColdSide(temp)
  }

  /** With the intended order the two cold-side cards split the range at 15,
      and above 20 degrees both versions agree. */
  lemma IntendedColdCard(temp: Parsed, chanceOfRain: Parsed)
    ensures ColdWeatherAlert in IntendedReminders(temp, chanceOfRain) <==> temp.Num? && temp.value <= 15.0
    ensures CoolWeatherAlert in IntendedReminders(temp, chanceOfRain) <==> temp.Num? && 15.0 < temp.value <= 20.0
    ensures !AtMost(temp, 20.0) ==> IntendedReminders(temp, chanceOfRain) == Reminders(temp, chanceOfRain)
  {
    RemindersParts(temp, chanceOfRain);
  }
}
