/** Decimal rendering of non-negative integers, as an f-string interpolation of an int writes it. */
module Decimal {

  predicate IsDigit(ch: char) { '0' <= ch <= '9' }

  function DigitValue(ch: char): int { ch as int - '0' as int }

  function DigitChar(d: nat): (ch: char)
    requires d < 10
    ensures IsDigit(ch) && DigitValue(ch) == d
  {
    ('0' as int + d) as char
  }

  /** The decimal digits of `x`, most significant first: never empty, only digits,
      and no leading zero: zero itself is written "0". */
  function Show(x: nat): (s: string)
    ensures 1 <= |s|
    ensures forall i :: 0 <= i < |s| ==> IsDigit(s[i])
    ensures x > 0 ==> s[0] != '0'
    ensures x == 0 ==> s == "0"
    decreases x
  {
    if x < 10 then [DigitChar(x)] else Show(x / 10) + [DigitChar(x % 10)]
  }

  /** The number a string of decimal digits denotes. */
  function Value(s: string): int
  {
    if s == [] then 0 else Value(s[..|s| - 1]) * 10 + DigitValue(s[|s| - 1])
  }

  /** Reading the digits back gives the number: `Show` loses nothing. */
  lemma {:induction false} ValueOfShow(x: nat)
    ensures Value(Show(x)) == x
  {
    if x >= 10 {
      var s := Show(x);
      assert s[..|s| - 1] == Show(x / 10);
      ValueOfShow(x / 10);
    }
  }

  lemma TwoDigits(x: nat)
    requires 10 <= x <= 99
    ensures |Show(x)| == 2
  {
  }

  lemma ThreeDigits(x: nat)
    requires 100 <= x <= 999
    ensures |Show(x)| == 3
  {
    TwoDigits(x / 10);
  }
}
