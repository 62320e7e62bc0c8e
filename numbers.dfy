/** Numeric helpers shared by the weather views: the results of JavaScript's
    parseFloat, the rounding done by toFixed, and Math.min/Math.max. */
module Numbers {

  /** What parseFloat yields: a number, or NaN. */
  datatype Parsed = NaN | Num(value: real)

  /** `p >= c`, `p > c`, `p <= c` and `p < c`; every comparison with NaN is false. */
  predicate AtLeast(p: Parsed, c: real) { p.Num? && p.value >= c }
  predicate Above(p: Parsed, c: real) { p.Num? && p.value > c }
  predicate AtMost(p: Parsed, c: real) { p.Num? && p.value <= c }
  predicate Below(p: Parsed, c: real) { p.Num? && p.value < c }

  /** Math.min and Math.max of two numbers. */
  function Min(a: real, b: real): (r: real)
    ensures r <= a && r <= b
    ensures r == a || r == b
  {
    if a <= b then a else b
  }

  function Max(a: real, b: real): (r: real)
    ensures r >= a && r >= b
    ensures r == a || r == b
  {
    if a >= b then a else b
  }

  /** Rounding to the nearest integer with halves rounded away from zero,
      which is what `toFixed(0)` does (it rounds the magnitude and keeps the sign). */
  function RoundHalfAway(x: real): (n: int)
    ensures x - 0.5 <= n as real <= x + 0.5
    ensures x >= 0.0 ==> x - 0.5 < n as real
    ensures x < 0.0 ==> n as real < x + 0.5
  {
    if x >= 0.0 then (x + 0.5).Floor else -((0.5 - x).Floor)
  }

  /** Rounding never reverses the order of two numbers. */
  lemma RoundMonotone(x: real, y: real)
    requires x <= y
    ensures RoundHalfAway(x) <= RoundHalfAway(y)
  {
    if x < 0.0 && 0.0 <= y {
      assert RoundHalfAway(x) <= 0 <= RoundHalfAway(y);
    }
  }

  /** `tenths` is `x` rounded to the nearest tenth, halves away from zero. */
  predicate NearestTenth(tenths: int, x: real)
  {
    && -0.05 <= tenths as real / 10.0 - x <= 0.05
    && (x >= 0.0 ==> x - 0.05 < tenths as real / 10.0)
    && (x < 0.0 ==> tenths as real / 10.0 < x + 0.05)
  }

  /** At most one count of tenths is the nearest tenth of a number. */
  lemma NearestTenthUnique(a: int, b: int, x: real)
    requires NearestTenth(a, x) && NearestTenth(b, x)
    ensures a == b
  {
  }

  /** `toFixed(1)`: the number in tenths, rounded to the nearest tenth. */
  function ToFixed1(x: real): (tenths: int)
    ensures -0.05 <= tenths as real / 10.0 - x <= 0.05
    ensures x >= 0.0 ==> x - 0.05 < tenths as real / 10.0
    ensures x < 0.0 ==> tenths as real / 10.0 < x + 0.05
    ensures NearestTenth(tenths, x)
  {
    RoundHalfAway(x * 10.0)
  }

  /** A half goes up: 25.25 prints as 25.3. */
  lemma ExampleToFixed1Half()
    ensures ToFixed1(25.25) == 253
  {
  }

  lemma ToFixed1Monotone(x: real, y: real)
    requires x <= y
    ensures ToFixed1(x) <= ToFixed1(y)
  {
    RoundMonotone(x * 10.0, y * 10.0);
  }

  /** `Math.max(...s)` of a non-empty list: an element that no element exceeds. */
  function SeqMax(s: seq<real>): (m: real)
    requires |s| > 0
    ensures m in s
    ensures forall x :: x in s ==> x <= m
  {
    if |s| == 1 then s[0]
    else
      assert s == [s[0]] + s[1..];
      Max(s[0], SeqMax(s[1..]))
  }

  /** `Math.min(...s)` of a non-empty list: an element that exceeds no element. */
  function SeqMin(s: seq<real>): (m: real)
    requires |s| > 0
    ensures m in s
    ensures forall x :: x in s ==> m <= x
  {
    if |s| == 1 then s[0]
    else
      assert s == [s[0]] + s[1..];
      Min(s[0], SeqMin(s[1..]))
  }
}
