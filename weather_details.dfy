/** The Details view's hourly strip and its city search box. */
module WeatherDetails {
  import opened Numbers
  import opened Forecast
  import opened Precipitation

  /** One point of the hourly strip. `hour` is the local hour that the view
      prints as `hour + ":00"`; `temp` is in tenths of a degree Celsius. */
  datatype HourlyPoint = HourlyPoint(hour: int, temp: int, chanceOfRain: real)

  const HourlyPoints: nat := 8

  /** `hourlyForecast.list.slice(0, 8).map(...)`. The host's local hour of a
      Unix time, which `getHours` reads from the host clock settings, is the
      parameter `hourOf`. */
  function HourlyData(list: seq<ForecastSample>, hourOf: int -> int): (r: seq<HourlyPoint>)
    ensures |r| == if |list| < HourlyPoints then |list| else HourlyPoints
    ensures forall i :: 0 <= i < |r| ==>
      && r[i].hour == hourOf(list[i].dt)
      && NearestTenth(r[i].temp, KelvinToCelsius(list[i].tempK))
      && r[i].chanceOfRain == RainChance(list[i].weatherId, list[i].humidity, list[i].cloudiness)
  {
    var n := if |list| < HourlyPoints then |list| else HourlyPoints;
    seq(n, i requires 0 <= i < n =>
      HourlyPoint(hourOf(list[i].dt), ToFixed1(KelvinToCelsius(list[i].tempK)),
                  RainChance(list[i].weatherId, list[i].humidity, list[i].cloudiness)))
  }

  /** Only the first eight samples matter: later ones never reach the strip. */
  lemma HourlyDataUsesFirstEight(list: seq<ForecastSample>, rest: seq<ForecastSample>, hourOf: int -> int)
    requires |list| >= HourlyPoints
    ensures HourlyData(list + rest, hourOf) == HourlyData(list, hourOf)
  {
    var a, b := HourlyData(list + rest, hourOf), HourlyData(list, hourOf);
    forall i | 0 <= i < HourlyPoints
      ensures a[i] == b[i]
    {
      assert (list + rest)[i] == list[i];
    }
  }

  /** With non-negative humidities every point's rain chance is a percentage. */
  lemma HourlyChanceIsPercent(list: seq<ForecastSample>, hourOf: int -> int, i: nat)
    requires i < |HourlyData(list, hourOf)|
    requires list[i].humidity >= 0.0
    ensures 0.0 <= HourlyData(list, hourOf)[i].chanceOfRain <= 100.0
  {
    var x := list[i];
    if IsPrecipitating(x.weatherId) {
      PrecipitatingChance(x.weatherId, x.humidity, x.cloudiness);
    } else {
      DryChanceIsPercent(x.weatherId, x.humidity, x.cloudiness);
    }
  }

  // ---------------------------------------------------------------------
  // The search box

  /** The characters `String.prototype.trim` removes: the white space and line
      terminators of section 12.2 and 12.3 of ECMA-262 (Unicode category Zs,
      tab, vertical tab, form feed, the byte order mark, LF, CR, LS and PS). */
  predicate IsJsWhitespace(c: char)
  {
    || c == '\t' || c == '\n' || c == '\U{000B}' || c == '\U{000C}' || c == '\r'
    || c == ' ' || c == '\U{00A0}' || c == '\U{1680}'
    || ('\U{2000}' <= c <= '\U{200A}')
    || c == '\U{2028}' || c == '\U{2029}' || c == '\U{202F}' || c == '\U{205F}'
    || c == '\U{3000}' || c == '\U{FEFF}'
  }

  predicate Blank(s: string)
  {
    forall i :: 0 <= i < |s| ==> IsJsWhitespace(s[i])
  }

  /** Leading white space removed: a suffix of `s`, everything cut is white
      space, and it does not start with white space. */
  function TrimStart(s: string): (r: string)
    ensures |r| <= |s| && r == s[|s| - |r|..]
    ensures forall i :: 0 <= i < |s| - |r| ==> IsJsWhitespace(s[i])
    ensures r != [] ==> !IsJsWhitespace(r[0])
  {
    if s != [] && IsJsWhitespace(s[0]) then TrimStart(s[1..]) else s
  }

  /** Trailing white space removed: a prefix of `s`, everything cut is white
      space, and it does not end with white space. */
  function TrimEnd(s: string): (r: string)
    ensures |r| <= |s| && r == s[..|r|]
    ensures forall i :: |r| <= i < |s| ==> IsJsWhitespace(s[i])
    ensures r != [] ==> !IsJsWhitespace(r[|r| - 1])
  {
    if s != [] && IsJsWhitespace(s[|s| - 1]) then TrimEnd(s[..|s| - 1]) else s
  }

  /** `s.trim()`. */
  function Trim(s: string): string
  {
    TrimEnd(TrimStart(s))
  }

  /** `s.trim()` is empty, so falsy, exactly when `s` is all white space. */
  lemma TrimEmptyIffBlank(s: string)
    ensures Trim(s) == [] <==> Blank(s)
  {
    var t := TrimStart(s);
    if Trim(s) == [] {
      assert t == [];
    } else {
      var r := Trim(s);
      assert r[0] == t[0] == s[|s| - |t|];
    }
  }

  /** The city the Details view shows and the text in its search field. */
  class SearchBox {
    var city: string
    var searchValue: string

    constructor ()
      ensures city == "Manila" && searchValue == ""
    {
      city := "Manila";
      searchValue := "";
    }

    /** The field's `onChange`: the typed text replaces the field's value. */
    method Edit(value: string)
      modifies this
      ensures searchValue == value && city == old(city)
    {
      searchValue := value;
    }

    /** `handleSearch`: a query that is all white space changes nothing;
        any other query becomes the city as typed, untrimmed, and the field
        is cleared. */
    method HandleSearch()
      modifies this
      ensures Blank(old(searchValue)) ==> city == old(city) && searchValue == old(searchValue)
      ensures !Blank(old(searchValue)) ==> city == old(searchValue) && searchValue == ""
    {
      TrimEmptyIffBlank(searchValue);
      if Trim(searchValue) != "" {
        city := searchValue;
        searchValue := "";
      }
    }
  }
}
