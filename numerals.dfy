/**
 * Digit strings: reading a run of digits in a radix (PHP's numeric-string
 * cast and JavaScript's `parseInt` both do this) and writing a natural number
 * in decimal (JavaScript's `Number.prototype.toString`).
 */
module Numerals {
  import opened Wrappers

  /** The value of `c` as a digit of `radix` (letters stand for 10 to 35), if it is one. */
  function DigitOf(c: char, radix: nat): (d: Option<nat>)
    ensures d.Some? ==> d.value < radix
  {
    var v: int :=
      if '0' <= c <= '9' then c as int - '0' as int
      else if 'a' <= c <= 'z' then c as int - 'a' as int + 10
      else if 'A' <= c <= 'Z' then c as int - 'A' as int + 10
      else -1;
    if 0 <= v < radix then Some(v) else None
  }

  predicate IsDigit(c: char, radix: nat)
  {
    DigitOf(c, radix).Some?
  }

  predicate AllDigits(s: string, radix: nat)
  {
    forall i :: 0 <= i < |s| ==> IsDigit(s[i], radix)
  }

  /** The length of the longest prefix of `s` made of digits of `radix`. */
  function DigitRun(s: string, radix: nat): (n: nat)
    ensures n <= |s|
    ensures AllDigits(s[..n], radix)
    ensures n < |s| ==> !IsDigit(s[n], radix)
  {
    if s == [] || !IsDigit(s[0], radix) then 0
    else
      var m := DigitRun(s[1..], radix);
      assert s[..m + 1] == [s[0]] + s[1..][..m];
      m + 1
  }

  /** The number a string of digits denotes, most significant digit first. */
  function DigitsValue(s: string, radix: nat): (r: nat)
    requires AllDigits(s, radix)
  {
    if s == [] then 0
    else DigitsValue(s[..|s| - 1], radix) * radix + DigitOf(s[|s| - 1], radix).value
  }

  function DecimalDigit(d: nat): (c: char)
    requires d < 10
    ensures DigitOf(c, 10) == Some(d)
  {
    ('0' as int + d) as char
  }

  /** `n` written in decimal without leading zeros. */
  function NatToDecimal(n: nat): (s: string)
    ensures |s| > 0 && AllDigits(s, 10)
    ensures s[0] == '0' ==> n == 0 && s == "0"
  {
    if n < 10 then [DecimalDigit(n)]
    else NatToDecimal(n / 10) + [DecimalDigit(n % 10)]
  }

  /** Reading back the decimal form of `n` consumes all of it and gives `n`. */
  lemma {:induction false} DecimalRoundTrip(n: nat)
    ensures DigitRun(NatToDecimal(n), 10) == |NatToDecimal(n)|
    ensures DigitsValue(NatToDecimal(n), 10) == n
  {
    var s := NatToDecimal(n);
    AllDigitsRun(s, 10);
    if n >= 10 {
      DecimalRoundTrip(n / 10);
      assert s[..|s| - 1] == NatToDecimal(n / 10);
    }
  }

  /** A string made only of digits is a single digit run. */
  lemma {:induction false} AllDigitsRun(s: string, radix: nat)
    requires AllDigits(s, radix)
    ensures DigitRun(s, radix) == |s|
  {
    if s != [] {
      AllDigitsRun(s[1..], radix);
    }
  }
}
