/**
 * Character classes and scanning functions over strings: runs of whitespace,
 * tokens, decimal numerals, and `str.strip()` and `str.split()` on the
 * whitespace characters of `IsSpace`.
 */
module Text {
  import opened Wrappers

  /** The whitespace characters a quickbuy line is split and stripped on. */
  predicate IsSpace(c: char) {
    c == ' ' || c == '\t' || c == '\n' || c == '\r'
  }

  predicate IsDigit(c: char) {
    '0' <= c <= '9'
  }

  predicate AllDigits(s: string) {
    forall i :: 0 <= i < |s| ==> IsDigit(s[i])
  }

  predicate NoSpace(s: string) {
    forall i :: 0 <= i < |s| ==> !IsSpace(s[i])
  }

  /** Length of the run of whitespace at the start of `s`. */
  function SpanSpaces(s: string): (n: nat)
    ensures n <= |s|
    ensures forall i :: 0 <= i < n ==> IsSpace(s[i])
    ensures n < |s| ==> !IsSpace(s[n])
  {
    if s == [] || !IsSpace(s[0]) then 0 else 1 + SpanSpaces(s[1..])
  }

  /** Length of the token (run of non-whitespace) at the start of `s`. */
  function SpanToken(s: string): (n: nat)
    ensures n <= |s|
    ensures NoSpace(s[..n])
    ensures n < |s| ==> IsSpace(s[n])
  {
    if s == [] || IsSpace(s[0]) then 0 else 1 + SpanToken(s[1..])
  }

  /**
   * The whitespace-separated tokens of `s`, as `s.split()` on the
   * characters of `IsSpace`: blanks are skipped one at a time, and each
   * token runs to the next blank.
   */
  function Tokens(s: string): (r: seq<string>)
    ensures forall i :: 0 <= i < |r| ==> r[i] != [] && NoSpace(r[i])
    decreases |s|
  {
    if s == [] then []
    else if IsSpace(s[0]) then Tokens(s[1..])
    else
      var n := SpanToken(s);
      assert n != 0;
      [s[..n]] + Tokens(s[n..])
  }

  /** Leading whitespace does not change the tokens. */
  lemma {:induction false} TokensSkipSpaces(s: string)
    ensures Tokens(s) == Tokens(s[SpanSpaces(s)..])
    decreases |s|
  {
    if s != [] && IsSpace(s[0]) {
      TokensSkipSpaces(s[1..]);
      assert s[1..][SpanSpaces(s[1..])..] == s[SpanSpaces(s)..];
    } else {
      assert s[0..] == s;
    }
  }

  /** Index of the first ':' in `s`, or `|s|` when there is none. */
  function ColonAt(s: string): (k: nat)
    ensures k <= |s|
    ensures k < |s| ==> s[k] == ':'
    ensures forall i :: 0 <= i < k ==> s[i] != ':'
  {
    if s == [] || s[0] == ':' then 0 else 1 + ColonAt(s[1..])
  }

  lemma {:induction false} SpanTokenConcat(a: string, b: string)
    requires NoSpace(a)
    requires b == [] || IsSpace(b[0])
    ensures SpanToken(a + b) == |a|
  {
    if a != [] {
      assert (a + b)[1..] == a[1..] + b;
      SpanTokenConcat(a[1..], b);
    }
  }

  lemma {:induction false} ColonAtConcat(a: string, b: string)
    requires forall i :: 0 <= i < |a| ==> a[i] != ':'
    ensures ColonAt(a + b) == |a| + ColonAt(b)
  {
    if a != [] {
      assert (a + b)[0] == a[0] && (a + b)[1..] == a[1..] + b;
      ColonAtConcat(a[1..], b);
    } else {
      assert a + b == b;
    }
  }

  function DigitValue(c: char): (d: nat)
    requires IsDigit(c)
    ensures d < 10
  {
    c as int - '0' as int
  }

  function DigitChar(d: nat): (c: char)
    requires d < 10
    ensures IsDigit(c) && DigitValue(c) == d
  {
    ('0' as int + d) as char
  }

  /** The value of a string of decimal digits, most significant first. */
  function DigitsValue(s: string): nat
    requires AllDigits(s)
  {
    if s == [] then 0 else DigitsValue(s[..|s| - 1]) * 10 + DigitValue(s[|s| - 1])
  }

  /**
   * Reads a non-negative decimal integer, as `int()` does on a string of
   * ASCII digits; anything else (empty, a sign, a letter) is rejected.
   */
  function ParseNat(s: string): (r: Option<nat>)
    ensures r.Some? <==> s != [] && AllDigits(s)
  {
    if s != [] && AllDigits(s) then Some(DigitsValue(s)) else None
  }

  /** Decimal rendering of `n` without leading zeros, as `str(n)`. */
  function NatToString(n: nat): (s: string)
    ensures s != [] && AllDigits(s)
    ensures |s| == 1 || s[0] != '0'
  {
    if n < 10 then [DigitChar(n)] else NatToString(n / 10) + [DigitChar(n % 10)]
  }

  lemma {:induction false} NatToStringRoundTrip(n: nat)
    ensures ParseNat(NatToString(n)) == Some(n)
  {
    if n >= 10 {
      NatToStringRoundTrip(n / 10);
      var s := NatToString(n);
      assert s[..|s| - 1] == NatToString(n / 10);
      assert DigitsValue(s) == (n / 10) * 10 + n % 10;
    }
  }

  lemma DigitsHaveNoSpaceOrColon(s: string)
    requires AllDigits(s)
    ensures NoSpace(s)
    ensures forall i :: 0 <= i < |s| ==> s[i] != ':'
  {
  }

  function Repeat<T>(x: T, n: nat): (r: seq<T>)
    ensures |r| == n
    ensures forall i :: 0 <= i < n ==> r[i] == x
  {
    if n == 0 then [] else [x] + Repeat(x, n - 1)
  }

  /** `s` without its trailing whitespace. */
  function TrimEnd(s: string): (r: string)
    ensures |r| <= |s| && r == s[..|r|]
    ensures r == [] || !IsSpace(r[|r| - 1])
    ensures forall i :: |r| <= i < |s| ==> IsSpace(s[i])
  {
    if s != [] && IsSpace(s[|s| - 1]) then TrimEnd(s[..|s| - 1]) else s
  }

  /** `s.strip()` restricted to the four characters of `IsSpace`: `s` without leading and trailing whitespace. */
  function Strip(s: string): (r: string)
    ensures r == [] <==> forall i :: 0 <= i < |s| ==> IsSpace(s[i])
    ensures r != [] ==> !IsSpace(r[0]) && !IsSpace(r[|r| - 1])
    ensures SpanSpaces(s) + |r| <= |s| && r == s[SpanSpaces(s)..SpanSpaces(s) + |r|]
    ensures forall i :: SpanSpaces(s) + |r| <= i < |s| ==> IsSpace(s[i])
  {
    var k := SpanSpaces(s);
    var r := TrimEnd(s[k..]);
    assert r == s[k..k + |r|];
    assert k < |s| ==> s[k..][0] == s[k];
    assert forall i :: k + |r| <= i < |s| ==> s[i] == s[k..][i - k];
    r
  }
}
