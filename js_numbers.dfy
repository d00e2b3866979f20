/**
 * The two JavaScript conversions the salary form relies on:
 * `Number.prototype.toString()` on integer IDs and the global `parseInt`
 * without a radix.
 */
module JsNumbers {
  import opened Numerals

  /** `parseInt` yields an integer or `NaN`. */
  datatype ParsedInt = NaN | Integer(value: int)

  /** `n.toString()` for an integer `n`. */
  function IntToString(n: int): (s: string)
    ensures |s| > 0
  {
    if n < 0 then "-" + NatToDecimal(-n) else NatToDecimal(n)
  }

  /** ASCII white space and line terminators (the Unicode space separators are not modelled). */
  predicate IsJsSpace(c: char)
  {
    c == ' ' || c == '\t' || c == '\n' || c == '\r' || c == '\U{B}' || c == '\U{C}'
  }

  function TrimStart(s: string): (t: string)
    ensures |t| <= |s|
    ensures t == [] || !IsJsSpace(t[0])
  {
    if s != [] && IsJsSpace(s[0]) then TrimStart(s[1..]) else s
  }

  predicate HasHexPrefix(s: string)
  {
    |s| >= 2 && s[0] == '0' && (s[1] == 'x' || s[1] == 'X')
  }

  /** The digits after the sign, in radix 16 behind `0x`/`0X` and in radix 10 otherwise. */
  function ParseUnsigned(s: string): (r: ParsedInt)
  {
    var radix := if HasHexPrefix(s) then 16 else 10;
    var digits := if HasHexPrefix(s) then s[2..] else s;
    var n := DigitRun(digits, radix);
    if n == 0 then NaN else Integer(DigitsValue(digits[..n], radix))
  }

  /** `parseInt(s)`: leading white space, an optional sign, then the longest digit run. */
  function ParseInt(s: string): (r: ParsedInt)
  {
    var t := TrimStart(s);
    if t != [] && (t[0] == '-' || t[0] == '+') then
      match ParseUnsigned(t[1..])
      case NaN => NaN
      case Integer(v) => Integer(if t[0] == '-' then -v else v)
    else ParseUnsigned(t)
  }

  /** The decimal form of a natural number is read back by the decimal branch. */
  lemma ParseUnsignedDecimal(n: nat)
    ensures ParseUnsigned(NatToDecimal(n)) == Integer(n)
  {
    var s := NatToDecimal(n);
    DecimalRoundTrip(n);
    assert s[..|s|] == s;
  }

  /**
   * The decimal string of any integer parses back to it. JavaScript's
   * `String(n)` is that string for the safe integers, the range of the IDs.
   */
  lemma ParseIntRoundTrip(n: int)
    ensures ParseInt(IntToString(n)) == Integer(n)
  {
    var s := IntToString(n);
    if n < 0 {
      ParseUnsignedDecimal(-n);
      assert s[0] == '-' && s[1..] == NatToDecimal(-n);
      assert TrimStart(s) == s;
    } else {
      ParseUnsignedDecimal(n);
      var d := NatToDecimal(n);
      assert DigitOf(d[0], 10).Some?;
      assert TrimStart(s) == s;
    }
  }

  /** Trailing text is ignored. */
  lemma ParseIntStopsAtNonDigit()
    ensures ParseInt("12abc") == Integer(12)
  {
    assert TrimStart("12abc") == "12abc";
    assert DigitRun("12abc", 10) == 2 by {
      assert IsDigit("12abc"[0], 10) && IsDigit("12abc"[1], 10) && !IsDigit("12abc"[2], 10);
    }
    assert "12abc"[..2] == "12" && "12"[..1] == "1" && "1"[..0] == [];
  }

  /** No leading digits give `NaN`. */
  lemma ParseIntWithoutDigits()
    ensures ParseInt("abc") == NaN
  {
    assert TrimStart("abc") == "abc";
    assert DigitRun("abc", 10) == 0 by { assert !IsDigit("abc"[0], 10); }
  }

  /** Leading space is skipped and a `0x` prefix switches to hexadecimal. */
  lemma ParseIntHexPrefix()
    ensures ParseInt(" 0x1F") == Integer(31)
  {
    assert TrimStart(" 0x1F") == "0x1F" by { assert " 0x1F"[1..] == "0x1F"; }
    assert "0x1F"[2..] == "1F";
    assert DigitRun("1F", 16) == 2 by {
      assert IsDigit("1F"[0], 16) && IsDigit("1F"[1], 16);
      assert "1F"[1..][1..] == [];
    }
    assert "1F"[..2] == "1F" && "1F"[..1] == "1" && "1"[..0] == [];
  }
}
