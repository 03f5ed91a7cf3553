/**
 * Decimal rendering of a non-negative integer, as JavaScript produces it when
 * a number is concatenated to a string (`'t-' + 12` is `"t-12"`).
 */
module Numerals {

  function DigitChar(d: nat): (c: char)
    requires d < 10
    ensures '0' <= c <= '9'
    ensures (c == '0') == (d == 0)
  {
    (48 + d) as char
  }

  /** The shortest decimal numeral for `n`: digits only, no leading zero. */
  function Decimal(n: nat): (s: string)
    ensures 1 <= |s|
    ensures (|s| == 1) == (n < 10)
    ensures forall i :: 0 <= i < |s| ==> '0' <= s[i] <= '9'
    ensures s[0] == '0' ==> n == 0
    decreases n
  {
    if n < 10 then [DigitChar(n)] else Decimal(n / 10) + [DigitChar(n % 10)]
  }

  /** The number a string of decimal digits denotes, read left to right (0 for the empty string). */
  function NumeralValue(s: string): int
  {
    if s == [] then 0 else NumeralValue(s[..|s| - 1]) * 10 + (s[|s| - 1] as int - 48)
  }

  /** The numeral of `n` denotes `n`. */
  lemma {:induction false} DecimalRoundTrip(n: nat)
    ensures NumeralValue(Decimal(n)) == n
    decreases n
  {
    var s := Decimal(n);
    if n >= 10 {
      assert s[..|s| - 1] == Decimal(n / 10);
      DecimalRoundTrip(n / 10);
    }
  }

  /** Different numbers have different numerals. */
  lemma {:induction false} DecimalInjective(a: nat, b: nat)
    requires Decimal(a) == Decimal(b)
    ensures a == b
    decreases a
  {
    var s := Decimal(a);
    assert s[|s| - 1] == DigitChar(a % 10);
    assert Decimal(b)[|s| - 1] == DigitChar(b % 10);
    if a >= 10 && b >= 10 {
      assert Decimal(a / 10) == s[..|s| - 1];
      assert Decimal(b / 10) == Decimal(b)[..|s| - 1];
      DecimalInjective(a / 10, b / 10);
    } else {
      assert a < 10 && b < 10;
    }
  }
}
