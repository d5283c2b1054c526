/**
 * The JavaScript string primitives the pages rely on: `trim`, `includes`,
 * `toLowerCase`, `length` (in UTF-16 code units), number-to-decimal
 * conversion in template literals, and `Array.prototype.join`.
 */
module Text {

  /** The characters ECMAScript counts as WhiteSpace or LineTerminator:
      what `trim` removes and what the regular-expression class `\s` matches. */
  predicate IsWhitespace(c: char)
  {
    c == '\t' || c == '\n' || c == '\U{000B}' || c == '\U{000C}' || c == '\r' || c == ' '
    || c == '\U{00A0}' || c == '\U{1680}' || ('\U{2000}' <= c <= '\U{200A}')
    || c == '\U{2028}' || c == '\U{2029}' || c == '\U{202F}' || c == '\U{205F}'
    || c == '\U{3000}' || c == '\U{FEFF}'
  }

  /** Every character of `s` is whitespace (the empty string included). */
  predicate IsBlank(s: string)
  {
    forall i :: 0 <= i < |s| ==> IsWhitespace(s[i])
  }

  /** No character of `s` is whitespace: every character matches `\S`. */
  predicate NoWhitespace(s: string)
  {
    forall i :: 0 <= i < |s| ==> !IsWhitespace(s[i])
  }

  /** How many whitespace characters `s` begins with: all of them are
      whitespace, and the next one, if any, is not. */
  function LeadingWhitespace(s: string): (k: nat)
    ensures k <= |s|
    ensures forall i :: 0 <= i < k ==> IsWhitespace(s[i])
    ensures k < |s| ==> !IsWhitespace(s[k])
  {
    if |s| > 0 && IsWhitespace(s[0]) then
      var k := LeadingWhitespace(s[1..]);
      assert forall i :: 1 <= i < k + 1 ==> s[i] == s[1..][i - 1];
      k + 1
    else 0
  }

  /** How many whitespace characters `s` ends with: all of them are
      whitespace, and the one before them, if any, is not. */
  function TrailingWhitespace(s: string): (k: nat)
    ensures k <= |s|
    ensures forall i :: |s| - k <= i < |s| ==> IsWhitespace(s[i])
    ensures k < |s| ==> !IsWhitespace(s[|s| - k - 1])
  {
    if |s| > 0 && IsWhitespace(s[|s| - 1]) then
      var k := TrailingWhitespace(s[..|s| - 1]);
      assert forall i :: |s| - k - 1 <= i < |s| - 1 ==> s[i] == s[..|s| - 1][i];
      k + 1
    else 0
  }

  /** `String.prototype.trim`: leading whitespace off, then trailing whitespace off. */
  function Trim(s: string): (r: string)
  {
    var t := s[LeadingWhitespace(s)..];
    t[..|t| - TrailingWhitespace(t)]
  }

  /** The trimmed string is empty exactly when `s` is blank. */
  lemma {:induction false} TrimEmptyIffBlank(s: string)
    ensures Trim(s) == [] <==> IsBlank(s)
  {
    var a := LeadingWhitespace(s);
    if a < |s| {
      assert s[a..][0] == s[a];
    }
  }

  /** `!s.trim()`: the trimmed string is empty, which is the case exactly
      when `s` is blank. */
  function TrimmedIsEmpty(s: string): (b: bool)
    ensures b <==> IsBlank(s)
  {
    TrimEmptyIffBlank(s);
    Trim(s) == ""
  }

  /** `s` begins with `prefix` (`String.prototype.startsWith`). */
  predicate StartsWith(s: string, prefix: string)
  {
    prefix <= s
  }

  /** `s.includes(needle)`: `needle` occurs in `s` at some index. */
  predicate Contains(s: string, needle: string)
  {
    exists i :: 0 <= i <= |s| && needle <= s[i..]
  }

  /** An occurrence of `needle` inside the substring at `i` is an occurrence in `s`. */
  lemma ContainsAt(s: string, needle: string, i: nat)
    requires i + |needle| <= |s| && s[i..i + |needle|] == needle
    ensures Contains(s, needle)
  {
    assert needle <= s[i..];
  }

  /** A string contains each of its infixes. */
  lemma ContainsInfix(pre: string, needle: string, post: string)
    ensures Contains(pre + needle + post, needle)
  {
    assert needle <= (pre + needle + post)[|pre|..];
  }

  /** If `outer` occurs in `s`, so does every part of it. */
  lemma {:induction false} ContainsTransitive(s: string, outer: string, inner: string)
    requires Contains(s, outer) && Contains(outer, inner)
    ensures Contains(s, inner)
  {
    var i :| 0 <= i <= |s| && outer <= s[i..];
    var j :| 0 <= j <= |outer| && inner <= outer[j..];
    assert s[i + j..][..|inner|] == outer[j..][..|inner|];
    assert inner <= s[i + j..];
  }

  /** `toLowerCase` on one character, for every character whose lower-case form
      is an ASCII letter: 'A'..'Z' and the Kelvin sign U+212A. Other characters
      are left as they are. */
  function LowerChar(c: char): (r: char)
  {
    if 'A' <= c <= 'Z' then (c as int + 32) as char
    else if c == '\U{212A}' then 'k'
    else c
  }

  /** `String.prototype.toLowerCase`, as far as matching against lower-case ASCII text is concerned. */
  function ToLower(s: string): (r: string)
    ensures |r| == |s|
    ensures forall i :: 0 <= i < |s| ==> r[i] == LowerChar(s[i])
  {
    seq(|s|, i requires 0 <= i < |s| => LowerChar(s[i]))
  }

  /** Lower-casing keeps every occurrence: if `needle` occurs in `s`, the
      lower-cased `needle` occurs in the lower-cased `s`, at the same index. */
  lemma {:induction false} ContainsToLower(s: string, needle: string)
    requires Contains(s, needle)
    ensures Contains(ToLower(s), ToLower(needle))
  {
    var i :| 0 <= i <= |s| && needle <= s[i..];
    var ls, ln := ToLower(s), ToLower(needle);
    forall k | 0 <= k < |ln| ensures ls[i..i + |ln|][k] == ln[k] {
      assert s[i..][k] == needle[k];
    }
    ContainsAt(ls, ln, i);
  }

  /** How many UTF-16 code units encode `c`: JavaScript's `length` counts a
      character outside the Basic Multilingual Plane twice. */
  function Utf16Units(c: char): (n: nat)
    ensures 1 <= n <= 2
  {
    if c as int >= 0x1_0000 then 2 else 1
  }

  /** `s.length` in JavaScript: the number of UTF-16 code units. */
  function Utf16Length(s: string): (n: nat)
    ensures |s| <= n <= 2 * |s|
    ensures n == 0 <==> s == []
  {
    if s == [] then 0 else Utf16Units(s[0]) + Utf16Length(s[1..])
  }

  /** The decimal digit characters. */
  predicate IsDigit(c: char)
  {
    '0' <= c <= '9'
  }

  function DigitChar(d: nat): (c: char)
    requires d < 10
    ensures IsDigit(c)
  {
    ('0' as int + d) as char
  }

  /** `${n}` for a non-negative integer: its decimal digits, most significant
      first, with no leading zero. */
  function NatToString(n: nat): (r: string)
    ensures r != []
    ensures forall i :: 0 <= i < |r| ==> IsDigit(r[i])
    ensures r[0] == '0' ==> n == 0
    decreases n
  {
    if n < 10 then [DigitChar(n)] else NatToString(n / 10) + [DigitChar(n % 10)]
  }

  /** The number a string of decimal digits denotes. */
  function DigitsValue(s: string): nat
    requires forall i :: 0 <= i < |s| ==> IsDigit(s[i])
  {
    if s == [] then 0
    else
      assert IsDigit(s[|s| - 1]);
      10 * DigitsValue(s[..|s| - 1]) + (s[|s| - 1] as int - '0' as int)
  }

  /** Reading the digits back gives the number: the decimal text of a count or
      status loses nothing. */
  lemma {:induction false} NatToStringRoundTrip(n: nat)
    ensures DigitsValue(NatToString(n)) == n
    decreases n
  {
    var r := NatToString(n);
    if n >= 10 {
      NatToStringRoundTrip(n / 10);
      assert r[..|r| - 1] == NatToString(n / 10);
    }
  }

  /** Distinct numbers have distinct decimal texts. */
  lemma NatToStringInjective(m: nat, n: nat)
    requires NatToString(m) == NatToString(n)
    ensures m == n
  {
    NatToStringRoundTrip(m);
    NatToStringRoundTrip(n);
  }

  /** `parts.join(sep)`. */
  function Join(parts: seq<string>, sep: string): (r: string)
    ensures parts == [] ==> r == []
    ensures |parts| == 1 ==> r == parts[0]
  {
    if |parts| == 0 then []
    else if |parts| == 1 then parts[0]
    else parts[0] + sep + Join(parts[1..], sep)
  }

  /** Two parts are joined by one separator. */
  lemma JoinTwo(a: string, b: string, sep: string)
    ensures Join([a, b], sep) == a + sep + b
  {
    assert [a, b][1..] == [b];
  }
}
