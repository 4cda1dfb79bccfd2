/**
 * The small integer helpers of the controller: one-step clamped decrement and
 * increment of a tuning value, clamping a speed into a range, and the
 * three-digit decimal rendering used on the display.
 */
module Helpers {

  /**
   * decInRange: one step down, but never below `lower`. The result is
   * `x - step` when that stays at or above `lower`, and `lower` otherwise
   * (also when `x` already lies below `lower`).
   */
  function DecInRange(x: int, lower: int, step: int): (r: int)
    ensures lower <= r
    ensures x - step >= lower ==> r == x - step
    ensures x - step < lower ==> r == lower
  {
    if x > lower + step then x - step else lower
  }

  /**
   * incInRange: one step up, but never above `upper`. The result is
   * `x + step` when that stays at or below `upper`, and `upper` otherwise.
   */
  function IncInRange(x: int, upper: int, step: int): (r: int)
    ensures r <= upper
    ensures x + step <= upper ==> r == x + step
    ensures x + step > upper ==> r == upper
  {
    if x < upper - step then x + step else upper
  }

  /**
   * ensureValue: `x` when it lies in [lower, upper], the nearer bound
   * otherwise. The upper test runs last, so an inverted range (lower > upper)
   * yields `upper` for every `x` below it.
   */
  function EnsureValue(x: int, lower: int, upper: int): (r: int)
    ensures r <= upper
    ensures lower <= upper ==> lower <= r
    ensures lower <= x <= upper ==> r == x
    ensures x < lower <= upper ==> r == lower
    ensures upper < x ==> r == upper
    ensures upper < lower && x <= upper ==> r == upper
  {
    var y := if x < lower then lower else x;
    if y > upper then upper else y
  }

  function Abs(v: int): nat {
    if v < 0 then -v else v
  }

  /** Over a proper range, ensureValue picks the value of the range nearest to `x`. */
  lemma EnsureValueIsNearest(x: int, lower: int, upper: int, y: int)
    requires lower <= y <= upper
    ensures lower <= EnsureValue(x, lower, upper) <= upper
    ensures Abs(EnsureValue(x, lower, upper) - x) <= Abs(y - x)
  {
  }

  /** A tuning value inside [lower, upper] stays inside after a decrement or an increment. */
  lemma StepsStayInRange(x: int, lower: int, upper: int, step: nat)
    requires lower <= x <= upper
    ensures lower <= DecInRange(x, lower, step) <= x
    ensures x <= IncInRange(x, upper, step) <= upper
  {
  }

  predicate IsDigit(c: char) {
    '0' <= c <= '9'
  }

  function DigitChar(d: int): (c: char)
    requires 0 <= d < 10
    ensures IsDigit(c)
  {
    ('0' as int + d) as char
  }

  function DigitValue(c: char): (d: int)
    requires IsDigit(c)
    ensures 0 <= d < 10
  {
    c as int - '0' as int
  }

  predicate IsThreeDigits(s: string) {
    |s| == 3 && IsDigit(s[0]) && IsDigit(s[1]) && IsDigit(s[2])
  }

  /** The number a three-digit decimal string denotes, most significant digit first. */
  function ThreeDigitValue(s: string): (v: int)
    requires IsThreeDigits(s)
    ensures 0 <= v < 1000
  {
    100 * DigitValue(s[0]) + 10 * DigitValue(s[1]) + DigitValue(s[2])
  }

  /**
   * numTo3Char: the last three decimal digits of `x`, most significant first,
   * zero-padded (5 gives "005", 1234 gives "234").
   */
  function NumTo3Char(x: int): (r: string)
    requires x >= 0
    ensures IsThreeDigits(r)
    ensures ThreeDigitValue(r) == x % 1000
  {
    var d2 := x % 10;
    var x1 := x / 10;
    var d1 := x1 % 10;
    var x2 := x1 / 10;
    var d0 := x2 % 10;
    LastThreeDigits(x);
    [DigitChar(d0), DigitChar(d1), DigitChar(d2)]
  }

  /** The last three decimal digits of `x`, peeled off by repeated division by 10. */
  lemma LastThreeDigits(x: nat)
    ensures x % 1000 == 100 * (x / 10 / 10 % 10) + 10 * (x / 10 % 10) + x % 10
  {
    var x1 := x / 10;
    var x2 := x1 / 10;
    var x3 := x2 / 10;
    assert x == 10 * x1 + x % 10;
    assert x1 == 10 * x2 + x1 % 10;
    assert x2 == 10 * x3 + x2 % 10;
    ModThousand(x, x3, 100 * (x2 % 10) + 10 * (x1 % 10) + x % 10);
  }

  /** Division by 1000 with remainder has only one solution. */
  lemma ModThousand(x: int, q: int, r: int)
    requires 0 <= r < 1000 && x == 1000 * q + r
    ensures x % 1000 == r
  {
  }

  /** Every three-digit string is the rendering of the number it denotes. */
  lemma NumTo3CharOfValue(s: string)
    requires IsThreeDigits(s)
    ensures NumTo3Char(ThreeDigitValue(s)) == s
  {
    DigitsOf(DigitValue(s[0]), DigitValue(s[1]), DigitValue(s[2]));
  }

  /** Peeling decimal digits off `100 * a + 10 * b + c` gives back `c`, `b` and `a`. */
  lemma DigitsOf(a: int, b: int, c: int)
    requires 0 <= a < 10 && 0 <= b < 10 && 0 <= c < 10
    ensures var v := 100 * a + 10 * b + c;
      v % 10 == c && v / 10 % 10 == b && v / 10 / 10 % 10 == a
  {
    var v := 100 * a + 10 * b + c;
    assert v / 10 == 10 * a + b;
    assert v / 10 / 10 == a;
  }

  /** Below 1000 the rendering loses nothing: reading it back gives `x`. */
  lemma NumTo3CharRoundTrip(x: int)
    requires 0 <= x < 1000
    ensures ThreeDigitValue(NumTo3Char(x)) == x
  {
  }

  lemma NumTo3CharExamples()
    ensures NumTo3Char(5) == "005"
    ensures NumTo3Char(1234) == "234"
    ensures NumTo3Char(255) == "255"
  {
  }
}
