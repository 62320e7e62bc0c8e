/** One item of the upstream forecast list (and the fields of a current-weather
    payload that the views read). */
module Forecast {

  /** A forecast sample. `timeLabel` is the time part of `dt_txt` cut to its
      first five characters (`"06:00"`); temperatures are in Kelvin. */
  datatype ForecastSample = ForecastSample(
    dt: int,              // Unix time in seconds
    timeLabel: string,    // `dt_txt.split(" ")[1].slice(0, 5)`
    tempK: real,          // `main.temp`
    humidity: real,       // `main.humidity`, percent
    cloudiness: real,     // `clouds.all`, percent
    weatherId: int,       // `weather[0].id`, the condition code
    weatherMain: string)  // `weather[0].main`

  const SecondsPerDay: int := 86400

  /** The UTC calendar day of a Unix time. Two times have the same ISO date
      string `toISOString().split("T")[0]` exactly when they have the same day
      number (division rounds down, so times before 1970 fall on the right day). */
  function DayKey(dt: int): int
  {
    dt / SecondsPerDay
  }

  /** A later time never falls on an earlier UTC day. */
  lemma DayKeyMonotone(a: int, b: int)
    requires a <= b
    ensures DayKey(a) <= DayKey(b)
  {
    var qa, qb := a / SecondsPerDay, b / SecondsPerDay;
    assert a == qa * SecondsPerDay + a % SecondsPerDay;
    assert b == qb * SecondsPerDay + b % SecondsPerDay;
  }

  /** `k - 273.15`, without rounding. */
  function KelvinToCelsius(k: real): (c: real)
    ensures c + 273.15 == k
  {
    k - 273.15
  }
}
