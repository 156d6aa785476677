/**
 * Decimal digit strings: the notation JavaScript's `String(n)` produces for a
 * non-negative integer, and the value `Number(s)` reads from a string made of
 * ASCII digits only (the empty string reads as 0).
 */
module Decimal {

  predicate IsDigit(c: char) {
    '0' <= c <= '9'
  }

  predicate AllDigits(s: string) {
    forall i :: 0 <= i < |s| ==> IsDigit(s[i])
  }

  function DigitValue(c: char): (d: nat)
    requires IsDigit(c)
    ensures d < 10
  {
    c as int - '0' as int
  }

  function DigitChar(d: nat): (c: char)
    requires d < 10
    ensures IsDigit(c) && DigitValue(c) == d
  {
    ('0' as int + d) as char
  }

  /** `Number(s)` for a string of decimal digits, leading zeros allowed. */
  function ValueOf(s: string): (n: nat)
    requires AllDigits(s)
    ensures n == 0 <==> forall i :: 0 <= i < |s| ==> s[i] == '0'
  {
    if s == [] then 0 else 10 * ValueOf(s[..|s| - 1]) + DigitValue(s[|s| - 1])
  }

  /** Reading one more digit at the end shifts the value by one place. */
  lemma ValueOfSnoc(s: string, c: char)
    requires AllDigits(s) && IsDigit(c)
    ensures AllDigits(s + [c])
    ensures ValueOf(s + [c]) == 10 * ValueOf(s) + DigitValue(c)
  {
    assert (s + [c])[..|s|] == s;
  }

  /** `String(n)`: the shortest decimal notation of `n`, read back as `n`. */
  function ToDecimal(n: nat): (s: string)
    ensures |s| > 0 && AllDigits(s)
    ensures ValueOf(s) == n
    ensures |s| > 1 ==> s[0] != '0'
    decreases n
  {
    if n < 10 then [DigitChar(n)]
    else
      var s := ToDecimal(n / 10) + [DigitChar(n % 10)];
      ValueOfSnoc(ToDecimal(n / 10), DigitChar(n % 10));
      s
  }

  /** A digit string contains no character other than digits, in particular no separator. */
  lemma NotInDigits(s: string, c: char)
    requires AllDigits(s) && !IsDigit(c)
    ensures c !in s
  {
  }
}
