/** The few pieces of Python's `str` behaviour the plugins rely on:
    `str.isspace`, `str.strip`, and formatting an `int` in an f-string. */
module PyStr {

  /** `c.isspace()` for a single character: the characters Python's Unicode
      database classifies as whitespace. `str.split()` and `str.strip()`
      work from this set; `str.splitlines()` breaks on a smaller one. */
  predicate IsSpace(c: char)
  {
    c in Whitespace
  }

  const Whitespace: set<char> := {
    ' ', '\t', '\n', '\U{0b}', '\U{0c}', '\r', '\U{1c}', '\U{1d}', '\U{1e}', '\U{1f}',
    '\U{85}', '\U{a0}', '\U{1680}', '\U{2000}', '\U{2001}', '\U{2002}', '\U{2003}',
    '\U{2004}', '\U{2005}', '\U{2006}', '\U{2007}', '\U{2008}', '\U{2009}', '\U{200a}',
    '\U{2028}', '\U{2029}', '\U{202f}', '\U{205f}', '\U{3000}'}

  predicate AllSpace(s: string)
  {
    forall i :: 0 <= i < |s| ==> IsSpace(s[i])
  }

  /** Number of leading whitespace characters. */
  function LeadingSpaces(s: string): (n: nat)
    ensures n <= |s|
    ensures AllSpace(s[..n])
    ensures n < |s| ==> !IsSpace(s[n])
  {
    if s == [] || !IsSpace(s[0]) then 0
    else
      var k := LeadingSpaces(s[1..]);
      assert s[1..][..k] == s[1..k + 1];
      1 + k
  }

  /** `s.strip()`: whitespace removed from both ends. */
  function Strip(s: string): (r: string)
  {
    StripRange(s, 0, |s|)
  }

  /** The part of `s[i..j]` left once whitespace is trimmed from both
      ends, one character at a time (the order in which the two ends are
      trimmed does not matter). */
  function StripRange(s: string, i: nat, j: nat): (r: string)
    requires i <= j <= |s|
    decreases j - i
  {
    if i == j then []
    else if IsSpace(s[i]) then StripRange(s, i + 1, j)
    else if IsSpace(s[j - 1]) then StripRange(s, i, j - 1)
    else s[i..j]
  }

  lemma {:induction false} StripRangeInfix(s: string, i: nat, j: nat) returns (a: nat, b: nat)
    requires i <= j <= |s|
    ensures i <= a <= b <= j && StripRange(s, i, j) == s[a..b]
    ensures forall k :: i <= k < a ==> IsSpace(s[k])
    ensures forall k :: b <= k < j ==> IsSpace(s[k])
    ensures a < b ==> !IsSpace(s[a]) && !IsSpace(s[b - 1])
    decreases j - i
  {
    if i == j {
      a, b := i, i;
    } else if IsSpace(s[i]) {
      a, b := StripRangeInfix(s, i + 1, j);
    } else if IsSpace(s[j - 1]) {
      a, b := StripRangeInfix(s, i, j - 1);
    } else {
      a, b := i, j;
    }
  }

  /** Stripping removes whitespace only, and only at the two ends: the
      result is the infix `s[i..j]` with all whitespace before `i` and
      after `j`, and it neither starts nor ends with whitespace. */
  lemma {:induction false} StripInfix(s: string) returns (i: nat, j: nat)
    ensures i <= j <= |s| && Strip(s) == s[i..j] && AllSpace(s[..i]) && AllSpace(s[j..])
    ensures var r := Strip(s); r == "" || (!IsSpace(r[0]) && !IsSpace(r[|r| - 1]))
  {
    i, j := StripRangeInfix(s, 0, |s|);
    assert forall k :: 0 <= k < |s[..i]| ==> s[..i][k] == s[k];
    assert forall k :: 0 <= k < |s[j..]| ==> s[j..][k] == s[j + k];
  }

  /** The result is no longer than the input and neither starts nor ends
      with whitespace. */
  lemma {:induction false} StripEnds(s: string)
    ensures |Strip(s)| <= |s|
    ensures var r := Strip(s); r == "" || (!IsSpace(r[0]) && !IsSpace(r[|r| - 1]))
  {
    var i, j := StripInfix(s);
  }

  /** Stripping twice is stripping once. */
  lemma {:induction false} StripIdempotent(s: string)
    ensures Strip(Strip(s)) == Strip(s)
  {
    StripEnds(s);
  }

  function DigitChar(d: nat): (c: char)
    requires d < 10
    ensures '0' <= c <= '9'
  {
    "0123456789"[d]
  }

  /** The decimal digits of `n` without leading zeros, as `str(n)` prints
      a non-negative int. */
  function NatToString(n: nat): (s: string)
    ensures |s| >= 1
    ensures forall i :: 0 <= i < |s| ==> '0' <= s[i] <= '9'
    ensures s[0] == '0' ==> n == 0 && s == "0"
    decreases n
  {
    if n < 10 then [DigitChar(n)]
    else NatToString(n / 10) + [DigitChar(n % 10)]
  }

  /** `str(i)` for any int: a minus sign before the digits of `-i` when negative. */
  function IntToString(i: int): (s: string)
    ensures |s| >= 1
    ensures i < 0 <==> s[0] == '-'
  {
    if i < 0 then "-" + NatToString(-i) else NatToString(i)
  }

  function DigitValue(c: char): (d: nat)
    requires '0' <= c <= '9'
    ensures d < 10 && DigitChar(d) == c
  {
    (c as int - '0' as int) as nat
  }

  /** `int(s)` for a string of ASCII decimal digits. */
  function ParseNat(s: string): (n: nat)
    requires forall i :: 0 <= i < |s| ==> '0' <= s[i] <= '9'
  {
    if s == [] then 0 else 10 * ParseNat(s[..|s| - 1]) + DigitValue(s[|s| - 1])
  }

  /** Formatting a natural number and parsing it back yields the number. */
  lemma {:induction false} ParseFormatNat(n: nat)
    ensures ParseNat(NatToString(n)) == n
    decreases n
  {
    var s := NatToString(n);
    if n >= 10 {
      assert s[..|s| - 1] == NatToString(n / 10);
      ParseFormatNat(n / 10);
      DigitRoundTrip(n % 10);
      assert ParseNat(s) == 10 * (n / 10) + n % 10;
    } else {
      DigitRoundTrip(n);
      assert s[..0] == [];
    }
  }

  lemma DigitRoundTrip(d: nat)
    requires d < 10
    ensures DigitValue(DigitChar(d)) == d
  {
    assert "0123456789"[d] as int == '0' as int + d;
  }

  /** `sep.join(parts)`. */
  function Join(sep: string, parts: seq<string>): string
  {
    if parts == [] then ""
    else if |parts| == 1 then parts[0]
    else parts[0] + sep + Join(sep, parts[1..])
  }
}
