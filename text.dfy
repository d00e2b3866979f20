/**
 * The handful of string operations the PHP and TypeScript code relies on:
 * ASCII lower-casing (`strtolower`), prefix tests (`strpos(...) === 0`) and
 * substring tests (`strpos(...) !== false`).
 */
module Text {

  /** `strtolower` on one character: since PHP 8.2 only the ASCII letters change. */
  function LowerChar(c: char): (r: char)
  {
    if 'A' <= c <= 'Z' then (c as int + 32) as char else c
  }

  /** `strtolower`. */
  function Lower(s: string): (r: string)
    ensures |r| == |s|
    ensures forall i :: 0 <= i < |s| ==> r[i] == LowerChar(s[i])
  {
    seq(|s|, i requires 0 <= i < |s| => LowerChar(s[i]))
  }

  /** `strpos($s, $p) === 0`: `s` begins with `p`. */
  predicate StartsWith(s: string, p: string)
  {
    p <= s
  }

  /** `n` occurs in `h` starting at position `i`. */
  predicate OccursAt(h: string, n: string, i: int)
  {
    0 <= i && i + |n| <= |h| && h[i..i + |n|] == n
  }

  /** `strpos($h, $n) !== false`: `n` occurs somewhere in `h`. */
  predicate Contains(h: string, n: string)
  {
    exists i | 0 <= i <= |h| :: OccursAt(h, n, i)
  }

  /** A string cannot contain a needle holding a character the string lacks. */
  lemma MissingChar(h: string, n: string, c: char)
    requires c in n && c !in h
    ensures !Contains(h, n)
  {
  }

  /**
   * A needle that occurs in `a + [c] + b` occurs in `a`, occurs in `b`, or
   * covers the separator `c`.
   */
  lemma SplitContains(a: string, c: char, b: string, n: string)
    requires Contains(a + [c] + b, n)
    ensures Contains(a, n) || Contains(b, n) || c in n
  {
    var h := a + [c] + b;
    var i :| 0 <= i <= |h| && OccursAt(h, n, i);
    if i + |n| <= |a| {
      assert h[i..i + |n|] == a[i..i + |n|];
      assert OccursAt(a, n, i);
    } else if i > |a| {
      assert h[i..i + |n|] == b[i - |a| - 1..i - |a| - 1 + |n|];
      assert OccursAt(b, n, i - |a| - 1);
    } else {
      assert n[|a| - i] == h[|a|] == c;
    }
  }
}
