/** The string operations of Python's `str` that the core relies on:
    upper/lower case, prefix tests, `strip()`, slicing a prefix, and the
    decimal rendering `str(int)` together with a parser that undoes it. */
module Text {
  import opened Outcomes

  // ---------------------------------------------------------------------
  // Case mapping (ASCII letters; other characters are left as they are)
  // ---------------------------------------------------------------------

  predicate IsAsciiLower(c: char) { 'a' <= c <= 'z' }

  predicate IsAsciiUpper(c: char) { 'A' <= c <= 'Z' }

  function UpperChar(c: char): char
  {
    if IsAsciiLower(c) then (c as int - 32) as char else c
  }

  function LowerChar(c: char): char
  {
    if IsAsciiUpper(c) then (c as int + 32) as char else c
  }

  /** `s.upper()` */
  function Upper(s: string): (r: string)
    ensures |r| == |s|
    ensures forall i :: 0 <= i < |s| ==> r[i] == UpperChar(s[i])
  {
    if s == [] then [] else [UpperChar(s[0])] + Upper(s[1..])
  }

  /** `s.lower()` */
  function Lower(s: string): (r: string)
    ensures |r| == |s|
    ensures forall i :: 0 <= i < |s| ==> r[i] == LowerChar(s[i])
  {
    if s == [] then [] else [LowerChar(s[0])] + Lower(s[1..])
  }

  /** An upper-cased string has no lower-case letter left, so upper-casing
      it again changes nothing. */
  lemma UpperIdempotent(s: string)
    ensures forall i :: 0 <= i < |Upper(s)| ==> !IsAsciiLower(Upper(s)[i])
    ensures Upper(Upper(s)) == Upper(s)
  {
    var u := Upper(s);
    forall i | 0 <= i < |u| ensures UpperChar(u[i]) == u[i] && !IsAsciiLower(u[i]) {
      assert u[i] == UpperChar(s[i]);
    }
  }

  /** Lower-casing commutes with taking a prefix, so `s.lower().startswith(p)`
      only looks at the first |p| characters of `s`. */
  lemma LowerPrefix(s: string, n: nat)
    requires n <= |s|
    ensures Lower(s)[..n] == Lower(s[..n])
  {
  }

  predicate StartsWith(s: string, prefix: string)
  {
    |prefix| <= |s| && s[..|prefix|] == prefix
  }

  /** `s[:n]`: Python slicing never fails, it stops at the end. */
  function Take(s: string, n: nat): (r: string)
    ensures |r| == if n <= |s| then n else |s|
    ensures StartsWith(s, r)
  {
    if n <= |s| then s[..n] else s
  }

  // ---------------------------------------------------------------------
  // str.strip()
  // ---------------------------------------------------------------------

  /** The characters for which Python's `str.isspace()` holds; `strip()`
      with no argument removes exactly these. */
  predicate IsWhitespace(c: char)
  {
    || '\t' <= c <= '\r'
    || '\U{1C}' <= c <= ' '
    || c == '\U{85}' || c == '\U{A0}' || c == '\U{1680}'
    || '\U{2000}' <= c <= '\U{200A}'
    || c == '\U{2028}' || c == '\U{2029}' || c == '\U{202F}'
    || c == '\U{205F}' || c == '\U{3000}'
  }

  predicate IsBlank(s: string)
  {
    forall i :: 0 <= i < |s| ==> IsWhitespace(s[i])
  }

  function StripLeft(s: string): (r: string)
    ensures |r| <= |s| && r == s[|s| - |r|..]
    ensures IsBlank(s[..|s| - |r|])
    ensures r != [] ==> !IsWhitespace(r[0])
  {
    if s != [] && IsWhitespace(s[0]) then
      var r := StripLeft(s[1..]);
      assert s[..|s| - |r|] == [s[0]] + s[1..][..|s[1..]| - |r|];
      r
    else s
  }

  function StripRight(s: string): (r: string)
    ensures |r| <= |s| && r == s[..|r|]
    ensures IsBlank(s[|r|..])
    ensures r != [] ==> !IsWhitespace(r[|r| - 1])
  {
    if s != [] && IsWhitespace(s[|s| - 1]) then
      var r := StripRight(s[..|s| - 1]);
      assert s[|r|..] == s[..|s| - 1][|r|..] + [s[|s| - 1]];
      r
    else s
  }

  /** `r` occurs in `s` starting at index `i`. */
  predicate InfixAt(r: string, s: string, i: nat)
  {
    i + |r| <= |s| && s[i..i + |r|] == r
  }

  /** `s.strip()`: an infix of `s` that neither starts nor ends with
      whitespace and is surrounded in `s` by whitespace only; it is empty
      exactly when `s` is blank. */
  function Strip(s: string): (r: string)
    ensures exists i: nat :: InfixAt(r, s, i) && IsBlank(s[..i]) && IsBlank(s[i + |r|..])
    ensures r != [] ==> !IsWhitespace(r[0]) && !IsWhitespace(r[|r| - 1])
    ensures r == [] <==> IsBlank(s)
  {
    var l := StripLeft(s);
    var r := StripRight(l);
    StripParts(s, l, r);
    r
  }

  lemma StripParts(s: string, l: string, r: string)
    requires |l| <= |s| && l == s[|s| - |l|..] && IsBlank(s[..|s| - |l|])
    requires l != [] ==> !IsWhitespace(l[0])
    requires |r| <= |l| && r == l[..|r|] && IsBlank(l[|r|..])
    requires r != [] ==> !IsWhitespace(r[|r| - 1])
    ensures exists i: nat :: InfixAt(r, s, i) && IsBlank(s[..i]) && IsBlank(s[i + |r|..])
    ensures r != [] ==> !IsWhitespace(r[0]) && !IsWhitespace(r[|r| - 1])
    ensures r == [] <==> IsBlank(s)
  {
    if r != [] {
      assert r[0] == l[0];
    }
    var k := |s| - |l|;
    SliceOfSlice(s, k, |r|);
    assert s[k + |r|..] == l[|r|..];
    assert InfixAt(r, s, k) && IsBlank(s[..k]) && IsBlank(s[k + |r|..]);
    if r == [] {
      assert l[|r|..] == l;
      BlankConcat(s[..k], l);
      assert s == s[..k] + l;
    } else {
      assert r[0] == s[k];
    }
  }

  lemma SliceOfSlice(s: string, k: nat, n: nat)
    requires k + n <= |s|
    ensures s[k..][..n] == s[k..k + n]
  {
  }

  lemma BlankConcat(a: string, b: string)
    requires IsBlank(a) && IsBlank(b)
    ensures IsBlank(a + b)
  {
    forall i | 0 <= i < |a + b| ensures IsWhitespace((a + b)[i]) {
      if i >= |a| { assert (a + b)[i] == b[i - |a|]; }
    }
  }

  /** Stripping twice is stripping once. */
  lemma StripIdempotent(s: string)
    ensures Strip(Strip(s)) == Strip(s)
  {
    var r := Strip(s);
    if r != [] {
      assert StripLeft(r) == r;
    }
  }

  // ---------------------------------------------------------------------
  // str(int) and its inverse
  // ---------------------------------------------------------------------

  predicate IsDigit(c: char) { '0' <= c <= '9' }

  function DigitChar(d: nat): (c: char)
    requires d < 10
    ensures IsDigit(c)
  {
    ('0' as int + d) as char
  }

  function DigitValue(c: char): (d: nat)
    requires IsDigit(c)
    ensures d < 10
  {
    c as int - '0' as int
  }

  /** The decimal digits of `n`, most significant first, without leading
      zeros (`str(n)` for `n >= 0`). */
  function Digits(n: nat): (s: string)
    ensures s != []
    ensures forall i :: 0 <= i < |s| ==> IsDigit(s[i])
    ensures |s| > 1 ==> s[0] != '0'
  {
    if n < 10 then [DigitChar(n)] else Digits(n / 10) + [DigitChar(n % 10)]
  }

  /** `str(i)` for any Python int. */
  function IntToString(i: int): (s: string)
    ensures s != []
  {
    if i < 0 then "-" + Digits(-i) else Digits(i)
  }

  /** `int(s)` on a string of decimal digits. */
  function DecimalValue(s: string): nat
    requires forall i :: 0 <= i < |s| ==> IsDigit(s[i])
  {
    if s == [] then 0 else DecimalValue(s[..|s| - 1]) * 10 + DigitValue(s[|s| - 1])
  }

  /** Reading back the digits `str(n)` produced gives `n`. */
  lemma {:induction false} DigitsRoundTrip(n: nat)
    ensures DecimalValue(Digits(n)) == n
  {
    if n >= 10 {
      var s := Digits(n);
      assert s[..|s| - 1] == Digits(n / 10);
      DigitsRoundTrip(n / 10);
    }
  }

  /** The length of the run of decimal digits at the start of `s`. */
  function LeadingDigits(s: string): (k: nat)
    ensures k <= |s|
    ensures forall i :: 0 <= i < k ==> IsDigit(s[i])
    ensures k < |s| ==> !IsDigit(s[k])
  {
    if s != [] && IsDigit(s[0]) then 1 + LeadingDigits(s[1..]) else 0
  }

  /** After `str(n)` the digit run ends exactly where the next non-digit
      starts. */
  lemma {:induction false} LeadingDigitsOfDigits(d: string, tail: string)
    requires forall i :: 0 <= i < |d| ==> IsDigit(d[i])
    requires tail == [] || !IsDigit(tail[0])
    ensures LeadingDigits(d + tail) == |d|
  {
    if d != [] {
      assert (d + tail)[1..] == d[1..] + tail;
      LeadingDigitsOfDigits(d[1..], tail);
    } else {
      assert d + tail == tail;
    }
  }

  /** Parses the form `str(i)` produces at the start of `s`: an optional
      minus sign and a maximal run of digits. Returns the value and the
      rest of the string. */
  function ParseIntPrefix(s: string): Option<(int, string)>
  {
    var neg := s != [] && s[0] == '-';
    var body := if neg then s[1..] else s;
    var k := LeadingDigits(body);
    if k == 0 then None
    else
      var n: int := DecimalValue(body[..k]);
      Some((if neg then -n else n, body[k..]))
  }

  /** A run of digits followed by anything that does not start with a
      digit is read back as its value and that remainder. */
  lemma ParseDigitRun(d: string, tail: string)
    requires d != [] && forall i :: 0 <= i < |d| ==> IsDigit(d[i])
    requires tail == [] || !IsDigit(tail[0])
    ensures var n: int := DecimalValue(d); ParseIntPrefix(d + tail) == Some((n, tail))
  {
    var body := d + tail;
    assert body[0] == d[0];
    LeadingDigitsOfDigits(d, tail);
    assert body[..|d|] == d && body[|d|..] == tail;
  }

  /** A minus sign in front of a digit negates what the rest parses to. */
  lemma ParseNegated(b: string, n: int, rest: string)
    requires b != [] && IsDigit(b[0]) && ParseIntPrefix(b) == Some((n, rest))
    ensures ParseIntPrefix(['-'] + b) == Some((-n, rest))
  {
    assert (['-'] + b)[1..] == b;
  }

  /** `str(i)` followed by anything that does not start with a digit is
      read back as `i` and that remainder. */
  lemma IntToStringRoundTrip(i: int, tail: string)
    requires tail == [] || !IsDigit(tail[0])
    ensures ParseIntPrefix(IntToString(i) + tail) == Some((i, tail))
  {
    var m: nat := if i < 0 then -i else i;
    var d := Digits(m);
    DigitsRoundTrip(m);
    ParseDigitRun(d, tail);
    if i < 0 {
      assert (d + tail)[0] == d[0];
      ParseNegated(d + tail, m, tail);
      assert IntToString(i) + tail == ['-'] + (d + tail);
    }
  }
}
