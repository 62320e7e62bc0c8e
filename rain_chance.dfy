/** The precipitation heuristic `calculateRainChance` of the Details view: a
    percentage estimated from the condition code, the humidity and the cloud
    cover. It is a heuristic; its constants are kept as the source has them. */
module Precipitation {
  import opened Numbers

  /** Condition codes 200 to 699 (thunderstorm, drizzle, rain, snow) count as
      already precipitating. */
  predicate IsPrecipitating(weatherId: int)
  {
    200 <= weatherId < 700
  }

  /** Codes 801 to 804: cloudy but dry. */
  predicate IsCloudy(weatherId: int)
  {
    801 <= weatherId <= 804
  }

  /** Code 800: clear sky. */
  predicate IsClear(weatherId: int)
  {
    weatherId == 800
  }

  function BaseChance(cloudiness: real, humidity: real): real
  {
    cloudiness * 0.3 + humidity * 0.3
  }

  /** The estimate, one case per kind of condition code. A precipitating code
      gives an unrounded value; the other codes give the clamped and rounded
      value that `toFixed(0)` prints. */
  function RainChance(weatherId: int, humidity: real, cloudiness: real): real
  {
    if IsPrecipitating(weatherId) then
      Min(90.0 + humidity / 10.0, 100.0)
    else
      var base := BaseChance(cloudiness, humidity);
      var adjusted :=
        if IsCloudy(weatherId) then base + 20.0
        else if IsClear(weatherId) then base * 0.3
        else base;
      Percent(adjusted)
  }

  /** `calculateRainChance`: the source adjusts `adjustedChance` by two
      independent `if`s. The contract ties it to the case split above: the
      cloudy codes add exactly 20 points, the clear code scales by 0.3, and
      every other dry code leaves the base as it is. */
  method CalculateRainChance(weatherId: int, humidity: real, cloudiness: real) returns (chance: real)
    ensures chance == RainChance(weatherId, humidity, cloudiness)
  {
    var isRainy := weatherId >= 200 && weatherId < 700;
    if isRainy {
      return Min(90.0 + humidity / 10.0, 100.0);
    }
    var baseChance := cloudiness * 0.3 + humidity * 0.3;
    var adjustedChance := baseChance;
    if weatherId >= 801 && weatherId <= 804 {
      adjustedChance := adjustedChance + 20.0;
    }
    if weatherId == 800 {
      adjustedChance := adjustedChance * 0.3;
    }
    chance := RoundHalfAway(Min(Max(adjustedChance, 0.0), 100.0)) as real;
  }

  /** A precipitating code gives `min(90 + humidity / 10, 100)`, not rounded,
      which lies in [90, 100] for a non-negative humidity. */
  lemma PrecipitatingChance(weatherId: int, humidity: real, cloudiness: real)
    requires IsPrecipitating(weatherId)
    ensures RainChance(weatherId, humidity, cloudiness) == Min(90.0 + humidity / 10.0, 100.0)
    ensures humidity >= 0.0 ==> 90.0 <= RainChance(weatherId, humidity, cloudiness) <= 100.0
    ensures humidity <= 100.0 ==> RainChance(weatherId, humidity, cloudiness) == 90.0 + humidity / 10.0
  {
  }

  /** Any other code gives a whole number between 0 and 100, whatever the
      humidity and cloud cover, because the value is clamped before rounding. */
  lemma DryChanceIsPercent(weatherId: int, humidity: real, cloudiness: real)
    requires !IsPrecipitating(weatherId)
    ensures var r := RainChance(weatherId, humidity, cloudiness);
      r == r.Floor as real && 0.0 <= r <= 100.0
  {
  }

  /** Clamp to [0, 100], then round. */
  function Percent(x: real): (r: real)
    ensures r == r.Floor as real && 0.0 <= r <= 100.0
    ensures 0.0 <= x <= 100.0 ==> x - 0.5 <= r <= x + 0.5
    ensures x <= 0.0 ==> r == 0.0
    ensures x >= 100.0 ==> r == 100.0
  {
    RoundHalfAway(Min(Max(x, 0.0), 100.0)) as real
  }

  lemma PercentMonotone(x: real, y: real)
    requires x <= y
    ensures Percent(x) <= Percent(y)
  {
    RoundMonotone(Min(Max(x, 0.0), 100.0), Min(Max(y, 0.0), 100.0));
  }

  /** For a fixed condition code the estimate never falls when the humidity or
      the cloud cover rises. */
  lemma RainChanceMonotone(weatherId: int, h1: real, h2: real, c1: real, c2: real)
    requires h1 <= h2 && c1 <= c2
    ensures RainChance(weatherId, h1, c1) <= RainChance(weatherId, h2, c2)
  {
    if !IsPrecipitating(weatherId) {
      var b1, b2 := BaseChance(c1, h1), BaseChance(c2, h2);
      assert b1 <= b2;
      if IsCloudy(weatherId) {
        PercentMonotone(b1 + 20.0, b2 + 20.0);
      } else if IsClear(weatherId) {
        PercentMonotone(b1 * 0.3, b2 * 0.3);
      } else {
        PercentMonotone(b1, b2);
      }
    }
  }

  /** Light rain at 80% humidity: `min(90 + 8, 100) = 98`. */
  lemma ExampleLightRain()
    ensures RainChance(500, 80.0, 100.0) == 98.0
  {
  }

  /** Clear sky at 50% humidity and no cloud: 15 scaled by 0.3 is 4.5, printed as 5. */
  lemma ExampleClearSky()
    ensures RainChance(800, 50.0, 0.0) == 5.0
  {
  }
}
