/** String operations of Python's `str` that the bots rely on: `strip`,
    `rstrip(chars)`, `lower`, the `in` substring test, `replace(p, "")` and
    the decimal rendering of an integer used in f-strings. */
module Text {

  /** Python's `str.isspace()` for a single character. */
  predicate IsSpace(c: char) {
    || c == ' '
    || ('\t' <= c <= '\r')
    || ('\U{1C}' <= c <= '\U{1F}')
    || c == '\U{85}' || c == '\U{A0}' || c == '\U{1680}'
    || ('\U{2000}' <= c <= '\U{200A}')
    || c == '\U{2028}' || c == '\U{2029}' || c == '\U{202F}' || c == '\U{205F}'
    || c == '\U{3000}'
  }

  /** Removes the leading characters that satisfy `drop` (Python's lstrip). */
  function LStrip(s: string, drop: char -> bool): (r: string)
    ensures |r| <= |s| && r == s[|s| - |r|..]
    ensures forall k :: 0 <= k < |s| - |r| ==> drop(s[k])
    ensures r != [] ==> !drop(r[0])
    decreases |s|
  {
    if s != [] && drop(s[0]) then LStrip(s[1..], drop) else s
  }

  /** Removes the trailing characters that satisfy `drop` (Python's rstrip). */
  function RStrip(s: string, drop: char -> bool): (r: string)
    ensures |r| <= |s| && r == s[..|r|]
    ensures forall k :: |r| <= k < |s| ==> drop(s[k])
    ensures r != [] ==> !drop(r[|r| - 1])
    decreases |s|
  {
    if s != [] && drop(s[|s| - 1]) then RStrip(s[..|s| - 1], drop) else s
  }

  /** `r` is `s` from position `k` on, with only whitespace before it and
      after it. */
  predicate WhitespaceAround(s: string, k: int, r: string) {
    && 0 <= k <= |s| - |r| && r == s[k..k + |r|]
    && (forall i :: 0 <= i < k ==> IsSpace(s[i]))
    && (forall i :: k + |r| <= i < |s| ==> IsSpace(s[i]))
  }

  /** Where `RStrip(LStrip(s))` sits in `s`: it starts right after the
      leading whitespace and everything after it is whitespace too. */
  lemma StripParts(s: string)
    ensures WhitespaceAround(s, |s| - |LStrip(s, IsSpace)|, RStrip(LStrip(s, IsSpace), IsSpace))
  {
    var l := LStrip(s, IsSpace);
    var k := |s| - |l|;
    var r := RStrip(l, IsSpace);
    assert l == s[k..];
    assert r == l[..|r|];
    forall i | k + |r| <= i < |s|
      ensures IsSpace(s[i])
    {
      assert s[i] == l[i - k];
    }
  }

  /** Python's `str.strip()` with no argument: the input with its leading
      and trailing whitespace, and nothing else, removed. */
  function Strip(s: string): (r: string)
    ensures |r| <= |s|
    ensures r != [] ==> !IsSpace(r[0]) && !IsSpace(r[|r| - 1])
    ensures exists k :: WhitespaceAround(s, k, r)
  {
    StripParts(s);
    RStrip(LStrip(s, IsSpace), IsSpace)
  }

  lemma StripIdempotent(s: string)
    ensures Strip(Strip(s)) == Strip(s)
  {
    var t := Strip(s);
    assert LStrip(t, IsSpace) == t;
    assert RStrip(t, IsSpace) == t;
  }

  /** Python's `str.lower()`, restricted to the ASCII letters. */
  function LowerChar(c: char): char {
    if 'A' <= c <= 'Z' then (c as int + 32) as char else c
  }

  function Lower(s: string): (r: string)
    ensures |r| == |s|
  {
    seq(|s|, i requires 0 <= i < |s| => LowerChar(s[i]))
  }

  /** Python's `p in s` for strings: `p` occurs in `s` as a contiguous run
      (the empty string occurs in every string). */
  predicate Contains(s: string, p: string)
    decreases |s|
  {
    |p| <= |s| && (s[..|p|] == p || (|s| > 0 && Contains(s[1..], p)))
  }

  /** Every occurrence found in a string with its last character dropped is
      an occurrence in the whole string. */
  lemma {:induction false} ContainsInit(s: string, p: string)
    requires s != [] && Contains(s[..|s| - 1], p)
    ensures Contains(s, p)
  {
    var t := s[..|s| - 1];
    assert t[..|p|] == s[..|p|];
    if t[..|p|] != p {
      assert t[1..] == s[1..][..|s[1..]| - 1];
      ContainsInit(s[1..], p);
    }
  }

  /** A string holding a non-empty `p` holds `p`'s first character. */
  lemma {:induction false} ContainsHead(s: string, p: string)
    requires p != [] && Contains(s, p)
    ensures p[0] in s
    decreases |s|
  {
    if s[..|p|] == p {
      assert s[0] == p[0];
    } else {
      ContainsHead(s[1..], p);
      assert p[0] in s[1..];
    }
  }

  /** An occurrence in what `LStrip` keeps is an occurrence in the input. */
  lemma {:induction false} ContainsLStrip(s: string, drop: char -> bool, p: string)
    requires Contains(LStrip(s, drop), p)
    ensures Contains(s, p)
    decreases |s|
  {
    if s != [] && drop(s[0]) {
      ContainsLStrip(s[1..], drop, p);
    }
  }

  /** An occurrence in what `RStrip` keeps is an occurrence in the input. */
  lemma {:induction false} ContainsRStrip(s: string, drop: char -> bool, p: string)
    requires Contains(RStrip(s, drop), p)
    ensures Contains(s, p)
    decreases |s|
  {
    if s != [] && drop(s[|s| - 1]) {
      ContainsRStrip(s[..|s| - 1], drop, p);
      ContainsInit(s, p);
    }
  }

  /** `strip` cannot create an occurrence that was not there before. */
  lemma ContainsStrip(s: string, p: string)
    requires Contains(Strip(s), p)
    ensures Contains(s, p)
  {
    ContainsRStrip(LStrip(s, IsSpace), IsSpace, p);
    ContainsLStrip(s, IsSpace, p);
  }

  /** Python's `s.replace(p, "")`: occurrences of `p` are removed from left to
      right without overlap; with an empty `p` the string comes back as is. */
  function RemoveAll(s: string, p: string): (r: string)
    ensures |r| <= |s|
    decreases |s|
  {
    if p == [] || |s| < |p| then s
    else if s[..|p|] == p then RemoveAll(s[|p|..], p)
    else [s[0]] + RemoveAll(s[1..], p)
  }

  /** Removing a token that does not occur leaves the string unchanged. */
  lemma {:induction false} RemoveAbsent(s: string, p: string)
    requires !Contains(s, p)
    ensures RemoveAll(s, p) == s
    decreases |s|
  {
    if p != [] && |s| >= |p| {
      RemoveAbsent(s[1..], p);
      assert s == [s[0]] + s[1..];
    }
  }

  /** Removing a non-empty token that occurs makes the string shorter. */
  lemma {:induction false} RemovePresent(s: string, p: string)
    requires p != [] && Contains(s, p)
    ensures |RemoveAll(s, p)| < |s|
    decreases |s|
  {
    if s[..|p|] != p {
      RemovePresent(s[1..], p);
    }
  }

  function DigitChar(d: nat): char
    requires d < 10
  {
    "0123456789"[d]
  }

  predicate IsDigit(c: char) {
    '0' <= c <= '9'
  }

  /** Decimal rendering of a natural number, as `f"{n}"` does. */
  function Decimal(n: nat): (r: string)
    ensures r != [] && forall i :: 0 <= i < |r| ==> IsDigit(r[i])
    decreases n
  {
    if n < 10 then [DigitChar(n)] else Decimal(n / 10) + [DigitChar(n % 10)]
  }

  /** The number a string of decimal digits denotes: the inverse of Decimal. */
  function DigitsValue(s: string): int
    requires forall i :: 0 <= i < |s| ==> IsDigit(s[i])
  {
    if s == [] then 0 else DigitsValue(s[..|s| - 1]) * 10 + (s[|s| - 1] as int - '0' as int)
  }

  lemma {:induction false} DecimalRoundTrip(n: nat)
    ensures DigitsValue(Decimal(n)) == n
    decreases n
  {
    if n >= 10 {
      var s := Decimal(n);
      assert s[..|s| - 1] == Decimal(n / 10);
      DecimalRoundTrip(n / 10);
    }
  }

  /** Different numbers have different decimal renderings. */
  lemma DecimalInjective(a: nat, b: nat)
    requires Decimal(a) == Decimal(b)
    ensures a == b
  {
    DecimalRoundTrip(a);
    DecimalRoundTrip(b);
  }

  /** Equal strings that share a prefix agree after it. */
  lemma CancelPrefix(p: string, x: string, y: string)
    requires p + x == p + y
    ensures x == y
  {
    assert x == (p + x)[|p|..];
    assert y == (p + y)[|p|..];
  }

  /** Equal strings that share a suffix agree before it. */
  lemma CancelSuffix(x: string, y: string, q: string)
    requires x + q == y + q
    ensures x == y
  {
    assert x == (x + q)[..|x|];
    assert y == (y + q)[..|y|];
  }
}
