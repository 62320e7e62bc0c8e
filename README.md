# SkyTrack weather views: a verified model of the derivation logic

SkyTrack is a client-rendered weather dashboard. Its React views derive all
they show from raw current-weather and five-day forecast payloads. This
project models that derivation in Dafny and proves what each piece of it
guarantees:

- **Precipitation heuristic** (`calculateRainChance`): a percentage estimated
  from the condition code, the humidity and the cloud cover (module
  `Precipitation`).
- **Daily forecast** (`processDailyForecasts`): the samples grouped by UTC
  day in order of first appearance, each day summarised by its high, its low
  and the condition of its first sample, at most seven days (module
  `DailyForecast`, imperative loop over a dictionary).
- **Details view** (module `WeatherDetails`): the eight-point hourly strip
  and the city search box (`handleSearch`).
- **Dashboard view** (module `WeatherDashboard`): the fixed-slot sampler
  (`processHourlyForecast`, filter then a `reduce` that keeps the first
  sample per clock time), the temperature chart (`processTemperatureForecast`),
  the greeting by hour and the current chance of rain.
- **Severe-weather banners** (module `WeatherAlert`): five threshold rules
  evaluated in a fixed order (`checkForSevereConditions`), the read-aloud
  decision, and the component's mute/audio state (`initializeAudio`,
  `toggleMute`) and banner list (`removeAlert`), as a class.
- **Reminder cards** (module `WeatherReminder`): `getReminders`, heat, rain and
  cool-weather cards chosen by `if`/`else if` chains.

Shared modules: `Numbers` (the result of `parseFloat` as `NaN | Num(real)`,
the comparisons on it, `toFixed` rounding, `Math.min`/`Math.max`), `Forecast`
(a forecast sample, the UTC day of a Unix time, Kelvin to Celsius), `Seqs`
(first/last splitting of sequences) and `Advisories` (banner severities).

Numbers are Dafny `real`s. `toFixed(n)` is rounding to the nearest multiple
of `10^-n` with halves away from zero; results that the views print with
`toFixed(1)` are kept as integers counting tenths. The host's local hour
(`getHours`) is a parameter. A sample's time label (the time part of `dt_txt`, cut to five
characters) and its UTC day are plain fields or functions of the sample.

Two behaviours of the code are worth stating up front:

- On the precipitating path (codes 200 to 699) `calculateRainChance` returns
  `Math.min(90 + humidity / 10, 100)` unrounded
  (pages/components/WeatherDetails.js:149); only the dry path goes through
  `toFixed(0)` (line 168).
- The `else if (temp <= 15)` "Cold Weather Alert" branch of `getReminders`
  (pages/components/WeatherReminder.js:59) is the `else` of `temp <= 20`, so it
  can never run (see Findings).

## Model

| member | source | states |
|---|---|---|
| Numbers.Min | pages/components/WeatherDetails.js:149 | `Math.min` of two numbers is one of them and below both |
| Numbers.Max | pages/components/WeatherDetails.js:168 | `Math.max` of two numbers is one of them and above both |
| Numbers.RoundHalfAway | pages/components/WeatherDetails.js:168 | `toFixed(0)` gives an integer within 0.5 of the number, strictly above `x - 0.5` for non-negative and strictly below `x + 0.5` for negative numbers |
| Numbers.RoundMonotone | pages/components/WeatherDetails.js:168 | rounding never reverses the order of two numbers |
| Numbers.ToFixed1 | pages/components/WeatherDetails.js:253-254 | `toFixed(1)` is the nearest tenth, halves going away from zero: within 0.05 of the number, strictly above `x - 0.05` for non-negative and strictly below `x + 0.05` for negative numbers |
| Numbers.NearestTenthUnique | pages/components/WeatherDetails.js:253-254 | the nearest-tenth conditions that `toFixed(1)` meets fix the result uniquely |
| Numbers.ExampleToFixed1Half | pages/components/WeatherDetails.js:253 | a half goes up: 25.25 gives 253 tenths |
| Numbers.ToFixed1Monotone | pages/components/WeatherDetails.js:253-254 | `toFixed(1)` preserves order, so a rounded maximum is never below a rounded minimum |
| Numbers.SeqMax | pages/components/WeatherDetails.js:253 | `Math.max(...temps)` is an element of the list that no element exceeds |
| Numbers.SeqMin | pages/components/WeatherDetails.js:254 | `Math.min(...temps)` is an element of the list that exceeds no element |
| Forecast.DayKeyMonotone | pages/components/WeatherDetails.js:234-235 | a later Unix time never falls on an earlier UTC day |
| Forecast.KelvinToCelsius | pages/components/WeatherDetails.js:245 | the Celsius value plus 273.15 is the Kelvin value |
| Precipitation.CalculateRainChance | pages/components/WeatherDetails.js:138-170 | the step-by-step adjustment (two independent `if`s on `adjustedChance`) equals the case split: precipitating codes give `min(90 + h/10, 100)`, cloudy codes add exactly 20, the clear code scales by 0.3, any other code keeps the base `0.3*cloud + 0.3*humidity`, then clamp and round |
| Precipitation.PrecipitatingChance | pages/components/WeatherDetails.js:145-149 | for codes 200 to 699 the chance is `min(90 + humidity/10, 100)` unrounded, lies in [90, 100] for non-negative humidity and is exactly `90 + humidity/10` up to 100% humidity |
| Precipitation.DryChanceIsPercent | pages/components/WeatherDetails.js:152-168 | for every other code the chance is a whole number in [0, 100], for any humidity and cloud cover |
| Precipitation.Percent | pages/components/WeatherDetails.js:168 | clamping then rounding gives a whole number in [0, 100], within 0.5 of an in-range value, 0 for values at or below 0 and 100 at or above 100 |
| Precipitation.PercentMonotone | pages/components/WeatherDetails.js:168 | clamping and rounding preserve order |
| Precipitation.RainChanceMonotone | pages/components/WeatherDetails.js:152-168 | for a fixed code the chance never falls when humidity or cloud cover rises |
| Precipitation.ExampleLightRain | pages/components/WeatherDetails.js:145-149 | code 500 at 80% humidity gives 98 |
| Precipitation.ExampleClearSky | pages/components/WeatherDetails.js:152-168 | code 800 at 50% humidity and no cloud gives 4.5 rounded to 5 |
| DailyForecast.Keys | pages/components/WeatherDetails.js:233-243 | the day keys, each at most once, no more than there are samples |
| DailyForecast.FirstIndex | pages/components/WeatherDetails.js:237-243 | the position of the first sample of a day: no earlier sample is on that day, and the sample there is |
| DailyForecast.KeysAreDaysPresent | pages/components/WeatherDetails.js:233-243 | a day is listed exactly when some sample falls on it |
| DailyForecast.DayTempsMembers | pages/components/WeatherDetails.js:245 | a day's temperatures are the Celsius temperatures of exactly the samples on that day |
| DailyForecast.DayTempsNonEmpty | pages/components/WeatherDetails.js:237-245 | a listed day has at least one temperature, so `Math.max`/`Math.min` are defined |
| DailyForecast.KeysHaveBuckets | pages/components/WeatherDetails.js:237-245 | every listed day has a first sample and a non-empty temperature list |
| DailyForecast.KeysInFirstAppearanceOrder | pages/components/WeatherDetails.js:237-249 | days are listed in the order in which they first appear (`Object.values` insertion order) |
| DailyForecast.KeysChronological | pages/components/WeatherDetails.js:234-249 | when the samples are in time order, the days are in calendar order |
| DailyForecast.DailyCount | pages/components/WeatherDetails.js:249-250 | one row per distinct day, at most 7, and no rows for an empty list |
| DailyForecast.DailyEntry | pages/components/WeatherDetails.js:249-263 | row i's date and condition come from day i's first sample; its high and low are the rounded maximum and minimum of the day, attained by some sample, bound every sample of the day, and high is never below low |
| DailyForecast.BucketStepOld | pages/components/WeatherDetails.js:237-245 | a sample on an existing day only appends its temperature to that day's bucket |
| DailyForecast.DayTempsAbsent | pages/components/WeatherDetails.js:245 | a day with no sample has no temperatures |
| DailyForecast.BucketStepNew | pages/components/WeatherDetails.js:237-245 | the first sample of a day creates its bucket with that sample's time, condition and temperature |
| DailyForecast.GroupedStep | pages/components/WeatherDetails.js:233-246 | one `forEach` step keeps `dailyData` and its insertion order equal to the grouping of the samples seen so far |
| DailyForecast.GroupedSummaries | pages/components/WeatherDetails.js:249-265 | summarising the first seven buckets of a complete grouping gives the daily forecast |
| DailyForecast.ProcessDailyForecasts | pages/components/WeatherDetails.js:213-266 | the dictionary-filling loop and the final `slice(0, 7).map` compute the daily forecast |
| WeatherDetails.HourlyData | pages/components/WeatherDetails.js:192-198 | exactly `min(8, n)` points, point i from sample i: its local hour, its Celsius temperature rounded to the nearest tenth and its rain chance |
| WeatherDetails.HourlyDataUsesFirstEight | pages/components/WeatherDetails.js:192-193 | samples after the eighth never reach the strip |
| WeatherDetails.HourlyChanceIsPercent | pages/components/WeatherDetails.js:197 | with non-negative humidity each point's rain chance is in [0, 100] |
| WeatherDetails.TrimStart | pages/components/WeatherDetails.js:270 | removes exactly the leading white space |
| WeatherDetails.TrimEnd | pages/components/WeatherDetails.js:270 | removes exactly the trailing white space |
| WeatherDetails.TrimEmptyIffBlank | pages/components/WeatherDetails.js:270 | `searchValue.trim()` is empty exactly when the value is all white space |
| WeatherDetails.SearchBox.constructor | pages/components/WeatherDetails.js:81-82 | the city starts as "Manila" and the field empty |
| WeatherDetails.SearchBox.Edit | pages/components/WeatherDetails.js:342 | typing replaces the field's value and leaves the city |
| WeatherDetails.SearchBox.HandleSearch | pages/components/WeatherDetails.js:268-274 | an all-white-space query changes nothing; any other becomes the city untrimmed and clears the field |
| WeatherDashboard.SlotSamples | pages/components/WeatherDashboard.js:185-202 | the kept samples' labels are all slots and pairwise distinct |
| WeatherDashboard.LabelIndex | pages/components/WeatherDashboard.js:193-197 | the position of the first sample with a given label |
| WeatherDashboard.SlotPipeline | pages/components/WeatherDashboard.js:187-202 | `filter` then `reduce` equals the one-pass selection |
| WeatherDashboard.ProcessHourlyForecast | pages/components/WeatherDashboard.js:185-204 | the `reduce` loop over the filtered samples computes the selection |
| WeatherDashboard.SlotSamplesSubsequence | pages/components/WeatherDashboard.js:187-202 | the selection is a subsequence of the input, so relative order is kept |
| WeatherDashboard.LabelSetMembers | pages/components/WeatherDashboard.js:192-197 | a label is in a list's label set exactly when some element has it |
| WeatherDashboard.DistinctLabelCount | pages/components/WeatherDashboard.js:192-201 | a list with distinct labels has as many labels as elements |
| WeatherDashboard.AtMostOnePerSlot | pages/components/WeatherDashboard.js:186-201 | at most six samples are kept |
| WeatherDashboard.SubsetCard | pages/components/WeatherDashboard.js:186 | a subset of the slot set is no larger than it |
| WeatherDashboard.FirstMatchWins | pages/components/WeatherDashboard.js:193-200 | for every slot, the selection has a sample with that label exactly when the input does, and it is the input's first one |
| WeatherDashboard.ExampleSlots | pages/components/WeatherDashboard.js:185-202 | 03:00, 06:00, 06:00, 12:00 keeps the first 06:00 and the 12:00 sample |
| WeatherDashboard.TemperatureForecast | pages/components/WeatherDashboard.js:207-214 | exactly `min(8, n)` points, point i with label and time of sample i and its Celsius temperature rounded to the nearest tenth |
| WeatherDashboard.TemperatureForecastUsesFirstEight | pages/components/WeatherDashboard.js:208 | samples after the eighth never reach the chart |
| WeatherDashboard.TimeBasedGreeting | pages/components/WeatherDashboard.js:176-182 | [5,12) morning, [12,17) afternoon, [17,22) evening, every other hour night, each in both directions |
| WeatherDashboard.CurrentChanceOfRain | pages/components/WeatherDashboard.js:144 | the cloud cover capped at 100 |
| WeatherAlert.OrZero | pages/components/WeatherAlert.js:56-59 | a falsy field reads as 0, any other as its parse |
| WeatherAlert.LowerChar | pages/components/WeatherAlert.js:60 | upper-case ASCII letters map to lower case, every other character to itself |
| WeatherAlert.ToLower | pages/components/WeatherAlert.js:60 | lower-casing keeps the length and works character by character |
| WeatherAlert.Normalize | pages/components/WeatherAlert.js:56-60 | missing numbers read as 0 and a missing description as "", so reading never fails |
| WeatherAlert.ContainsIff | pages/components/WeatherAlert.js:88-92 | `includes` holds exactly when the word occurs at some position |
| WeatherAlert.ThunderstormMentionsStorm | pages/components/WeatherAlert.js:88-92 | a description with "thunderstorm" also matches "storm" |
| WeatherAlert.AlertOf | pages/components/WeatherAlert.js:62-124 | a triggered rule's banner is of that rule and carries its reading rounded to the nearest tenth |
| WeatherAlert.TitlesIdentifyRules | pages/components/WeatherAlert.js:65-118 | no two rules share a title |
| WeatherAlert.Part | pages/components/WeatherAlert.js:62-124 | a rule contributes one banner, the one its push builds, if it triggers, none otherwise |
| WeatherAlert.SevereAlertsParts | pages/components/WeatherAlert.js:62-124 | the banners are the five rules' contributions in order |
| WeatherAlert.CollectCons | pages/components/WeatherAlert.js:62-124 | collecting over a rule list is the first rule's contribution before the rest |
| WeatherAlert.CollectSound | pages/components/WeatherAlert.js:62-124 | every banner comes from a listed rule that triggered |
| WeatherAlert.CollectComplete | pages/components/WeatherAlert.js:62-124 | every listed rule that triggers gives a banner |
| WeatherAlert.CollectOrdered | pages/components/WeatherAlert.js:62-124 | banners follow the order of the rules |
| WeatherAlert.InRuleOrder | pages/components/WeatherAlert.js:62-124 | every rule is evaluated |
| WeatherAlert.AlertsAreTriggeredRulesInOrder | pages/components/WeatherAlert.js:54-126 | the banners are exactly the triggered rules' banners, in the order heat, cold, storm, wind, rainfall |
| WeatherAlert.AtMostFourAlerts | pages/components/WeatherAlert.js:63 | heat (`> 40`) and cold (`< -10`) never both trigger, so at most four banners |
| WeatherAlert.ThunderstormGivesOneStormAlert | pages/components/WeatherAlert.js:88-100 | a description with "thunderstorm" in any case gives exactly one storm banner |
| WeatherAlert.ExampleUpperCaseStorm | pages/components/WeatherAlert.js:60 | "Tornado" triggers the storm rule once lower-cased |
| WeatherAlert.NoRainFieldNoRainfallAlert | pages/components/WeatherAlert.js:116 | without a `rain` field there is no rainfall banner |
| WeatherAlert.EmptyDataNoAlerts | pages/components/WeatherAlert.js:56-60 | data with every field missing gives no banner |
| WeatherAlert.ThresholdsAreStrict | pages/components/WeatherAlert.js:63-116 | exactly 40 °C, -10 °C, 40 km/h or 50 mm trigger nothing |
| WeatherAlert.ExampleHeat | pages/components/WeatherAlert.js:63-72 | 42 °C alone gives exactly one banner, the heat error reading 42.0 |
| WeatherAlert.SpokenAlerts | pages/components/WeatherAlert.js:133-143 | banners are read aloud, all in order, exactly when the new list is non-empty, audio is enabled, not muted and a context exists |
| WeatherAlert.RemoveAtDropsOne | pages/components/WeatherAlert.js:165-167 | removing drops exactly position i and keeps the rest in order; an index outside the list changes nothing |
| WeatherAlert.AlertPanel.constructor | pages/components/WeatherAlert.js:26-29 | no banners, muted, audio disabled, no context |
| WeatherAlert.AlertPanel.InitializeAudio | pages/components/WeatherAlert.js:31-43 | with a context audio is enabled and unmuted; if creating it fails nothing changes |
| WeatherAlert.AlertPanel.ToggleMute | pages/components/WeatherAlert.js:154-163 | the first press while disabled initialises audio; later presses only flip `isMuted` |
| WeatherAlert.AlertPanel.CheckForSevereConditions | pages/components/WeatherAlert.js:53-136 | the pushes replace the banner list wholesale with the triggered rules' banners in rule order, and return what is read aloud: something exactly when the new list is non-empty, audio is enabled and not muted |
| WeatherAlert.AlertPanel.RemoveAlert | pages/components/WeatherAlert.js:165-167 | the banner list loses exactly the banner at the index |
| WeatherReminder.Part | pages/components/WeatherReminder.js:25-66 | a card contributes itself if shown, nothing otherwise |
| WeatherReminder.SelectCons | pages/components/WeatherReminder.js:25-66 | selecting over a card list is the first card's contribution before the rest |
| WeatherReminder.RemindersParts | pages/components/WeatherReminder.js:25-66 | the cards are the five tests' contributions in order |
| WeatherReminder.GetReminders | pages/components/WeatherReminder.js:18-69 | the `if`/`else if` pushes compute the shown cards in test order |
| WeatherReminder.HeatCardsExclusive | pages/components/WeatherReminder.js:25-39 | "Extreme Heat Alert" (35 and up) and "Heat Advisory" (from 30 up to 35) exclude each other and are both warnings |
| WeatherReminder.RainLikelyIff | pages/components/WeatherReminder.js:42-49 | "Rain Likely" is shown exactly when the chance is at least 29, as information |
| WeatherReminder.CoolShownColdNever | pages/components/WeatherReminder.js:52-66 | "Cool Weather Alert" is shown exactly at 20 degrees or below and "Cold Weather Alert" never |
| WeatherReminder.ExampleTenDegrees | pages/components/WeatherReminder.js:52-66 | at 10 degrees the cool card is shown, not the cold one |
| WeatherReminder.AtMostTwoInOrder | pages/components/WeatherReminder.js:25-66 | at most two cards, in the order heat, rain, cool |
| WeatherReminder.NaNTriggersNothing | pages/components/WeatherReminder.js:20-21 | an unparsable temperature or chance triggers no card of its own |
| WeatherReminder.SeveritiesWarningOrInfo | pages/components/WeatherReminder.js:26-63 | every card shown is a warning or information |
| WeatherReminder.IntendedColdSide | pages/components/WeatherReminder.js:52-66 | with the cold test first, cold at 15 and below, cool above 15 up to 20 |
| WeatherReminder.IntendedColdCard | pages/components/WeatherReminder.js:52-66 | the corrected cards split the cold side at 15 and agree with the code above 20 degrees |

## Left out

- Fetching, geolocation, reverse geocoding, the one-second clock and the
  order in which asynchronous requests complete: side effects outside the
  derivation logic.
- React state in general: batching, re-rendering and stale closures. The
  class methods read and write their fields directly.
- Audio and speech: creating and resuming the `AudioContext`, speaking with
  `SpeechSynthesisUtterance` and `speechSynthesis.cancel`. Only the mute and
  enabled flags, whether a context exists, and the list of texts to be spoken
  are modelled. Whether the browser can create a context is the parameter
  `contextAvailable`.
- IEEE floating point: numbers are exact reals. The float artefacts of
  `toFixed` (for example 1.005 printing as "1.00"), `humidity / 10`,
  `k - 273.15` and NaN arising inside arithmetic are not modelled.
- String formatting: `toFixed` results are kept as numbers (tenths), and with
  them the "°", "°C", "km/h" and "HH:00" texts; the date label
  `getDate month, day` is replaced by the Unix time it is formatted from.
- Time zones: `getHours` (the hourly strip and the greeting) is a parameter.
  The UTC date key of `toISOString().split("T")[0]` is the day number `dt div 86400`.
  Times outside the range that `toISOString` accepts, where it throws, are not modelled.
- Parsing: `dt_txt` is taken already cut to its five-character time label, and
  `parseFloat` is taken as its result (`NaN` or a number).
- WeatherAlert.LowerChar, WeatherAlert.ToLower: lower-case ASCII letters only and leave every other character unchanged, where `toLowerCase` also maps other Unicode letters (for example "É" to "é").
- WeatherDetails.TrimStart: `trim` white space is the fixed ECMA-262 set of characters;
  characters outside the Basic Multilingual Plane are single Dafny chars.
- `realFeel` in the alerts and `windSpeed` in the reminders are parsed by the
  source and never used; the model carries `realFeel` and omits `windSpeed`.
- `calculateRainChance` returns a string (`toFixed(0)`) on the dry path and a
  number on the precipitating path; both are modelled as the number they denote.
- The Details view's current `weatherData` (capitalised description, `uvIndex`
  fixed at 2) and icon lookup tables: static presentation.

## Findings

| source | as written | input that shows it | evidently intended | confidence | as-written member | corrected member |
|---|---|---|---|---|---|---|
| pages/components/WeatherReminder.js:52-66 | `if (temp <= 20) … else if (temp <= 15)`: the cold branch runs only when `temp > 20` and `temp <= 15`, which never happens | temp 10: the cards are ["Cool Weather Alert"], and "Cold Weather Alert" is never shown | the cold card at 15 degrees and below, the cool card above 15 up to 20 | medium, not executed | WeatherReminder.CoolShownColdNever | WeatherReminder.IntendedColdCard |
