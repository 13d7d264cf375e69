/**
 * Text and number rendering shared by the model: Python's `str(int)`,
 * fixed-point rounding, substring tests and ASCII lower-casing.
 */
module Text {

  function Digit(d: nat): (c: char)
    requires d < 10
    ensures '0' <= c <= '9'
  {
    "0123456789"[d]
  }

  /** Decimal rendering of a natural number, as `str(n)`. */
  function NatToString(n: nat): (s: string)
    ensures |s| > 0
    ensures forall i :: 0 <= i < |s| ==> '0' <= s[i] <= '9'
    decreases n
  {
    if n < 10 then [Digit(n)] else NatToString(n / 10) + [Digit(n % 10)]
  }

  function IntToString(i: int): (s: string)
    ensures |s| > 0
  {
    (if i < 0 then "-" else "") + NatToString(if i < 0 then -i else i)
  }

  /** Round to the nearest integer, halves upwards. */
  function RoundToInt(x: real): (n: int)
    ensures x - 0.5 < n as real <= x + 0.5
  {
    (x + 0.5).Floor
  }

  /** `round(x, 2)`, halves upwards. */
  function Round2(x: real): (r: real)
    ensures x - 0.005 < r <= x + 0.005
  {
    RoundToInt(x * 100.0) as real / 100.0
  }

  /** `round(x, 3)`, halves upwards. */
  function Round3(x: real): (r: real)
    ensures x - 0.0005 < r <= x + 0.0005
  {
    RoundToInt(x * 1000.0) as real / 1000.0
  }

  lemma Round2Monotone(x: real, y: real)
    requires x <= y
    ensures Round2(x) <= Round2(y)
  {
    assert (x * 100.0 + 0.5).Floor <= (y * 100.0 + 0.5).Floor;
  }

  /** Python's `int(x)`: truncation toward zero. */
  function Truncate(x: real): (n: int)
    ensures 0.0 <= x ==> 0 <= n && n as real <= x < n as real + 1.0
    ensures x < 0.0 ==> n <= 0 && n as real - 1.0 < x <= n as real
  {
    if x >= 0.0 then x.Floor else -((-x).Floor)
  }

  /** `f"{x:.0f}"`, halves upwards. */
  function FormatFixed0(x: real): (s: string)
    ensures |s| > 0
  {
    IntToString(RoundToInt(x))
  }

  /** `f"{x:.1f}"`, halves upwards. */
  function FormatFixed1(x: real): (s: string)
    ensures |s| >= 3 && s[|s| - 2] == '.'
  {
    var t := RoundToInt(x * 10.0);
    var m: nat := if t < 0 then -t else t;
    (if t < 0 then "-" else "") + NatToString(m / 10) + "." + NatToString(m % 10)
  }

  /** `f"{x:.0%}"`: the percentage rounded to a whole number, then '%'. */
  function FormatPercent0(x: real): (s: string)
    ensures |s| >= 2 && s[|s| - 1] == '%'
  {
    IntToString(RoundToInt(x * 100.0)) + "%"
  }

  /** Python's `needle in hay` on strings. */
  predicate Contains(hay: string, needle: string)
    decreases |hay|
  {
    needle <= hay || (hay != [] && Contains(hay[1..], needle))
  }

  lemma {:induction false} ContainsAt(hay: string, needle: string, i: nat)
    requires i + |needle| <= |hay| && hay[i..i + |needle|] == needle
    ensures Contains(hay, needle)
    decreases i
  {
    if i == 0 {
      assert needle <= hay;
    } else {
      assert hay[1..][i - 1..i - 1 + |needle|] == needle;
      ContainsAt(hay[1..], needle, i - 1);
    }
  }

  /** A text without the needle's first character does not contain the needle. */
  lemma {:induction false} NotContainsWithoutFirstChar(hay: string, needle: string)
    requires needle != [] && forall i :: 0 <= i < |hay| ==> hay[i] != needle[0]
    ensures !Contains(hay, needle)
  {
    if hay != [] {
      assert hay[0] != needle[0];
      NotContainsWithoutFirstChar(hay[1..], needle);
    }
  }

  function LowerChar(c: char): char {
    if 'A' <= c <= 'Z' then (c as int + 32) as char else c
  }

  /** `s.lower()` on ASCII letters; every other character is kept. */
  function Lower(s: string): (r: string)
    ensures |r| == |s|
    ensures forall i :: 0 <= i < |s| ==> r[i] == LowerChar(s[i])
  {
    seq(|s|, i requires 0 <= i < |s| => LowerChar(s[i]))
  }

  /** `str.isdigit()` over ASCII digits. */
  predicate AllDigits(s: string) {
    s != [] && forall i :: 0 <= i < |s| ==> '0' <= s[i] <= '9'
  }
}
