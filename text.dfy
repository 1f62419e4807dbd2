/**
 * The string primitives the application borrows from JavaScript: `trim`,
 * `toLowerCase` and `parseInt(s, 10)`. Strings are sequences of UTF-16 code
 * units in the application and of characters here; case folding is restricted
 * to ASCII letters and whitespace to the named code points listed below.
 */
module Text {
  import opened Wrappers

  /** The code points JavaScript's `trim` removes that have a name of their own
    * (tab, line feed, vertical tab, form feed, carriage return, space, no-break
    * space, the byte order mark and the line and paragraph separators). */
  predicate IsWhitespace(c: char) {
    c == ' ' || c == '\t' || c == '\n' || c == '\r' || c == '\U{000B}' || c == '\U{000C}'
    || c == '\U{00A0}' || c == '\U{FEFF}' || c == '\U{2028}' || c == '\U{2029}'
  }

  /** The index of the first character of `s` at or after `i` that is not whitespace, `|s|` if there is none. */
  function SkipWhitespace(s: string, i: nat): (n: nat)
    requires i <= |s|
    ensures i <= n <= |s|
    ensures forall k :: i <= k < n ==> IsWhitespace(s[k])
    ensures n == |s| || !IsWhitespace(s[n])
    decreases |s| - i
  {
    if i < |s| && IsWhitespace(s[i]) then SkipWhitespace(s, i + 1) else i
  }

  /** The end of `s[lo..hi]` once the whitespace at its end is cut away. */
  function SkipTrailingWhitespace(s: string, lo: nat, hi: nat): (m: nat)
    requires lo <= hi <= |s|
    ensures lo <= m <= hi
    ensures forall k :: m <= k < hi ==> IsWhitespace(s[k])
    ensures m == lo || !IsWhitespace(s[m - 1])
  {
    if lo < hi && IsWhitespace(s[hi - 1]) then SkipTrailingWhitespace(s, lo, hi - 1) else hi
  }

  /** `s` without its leading whitespace (what `parseInt` skips). */
  function TrimStart(s: string): (r: string)
    ensures r == [] || !IsWhitespace(r[0])
  {
    s[SkipWhitespace(s, 0)..]
  }

  /** JavaScript's `String.prototype.trim`: neither end of the result is whitespace. */
  function Trim(s: string): (r: string)
    ensures r == [] || (!IsWhitespace(r[0]) && !IsWhitespace(r[|r| - 1]))
  {
    var i := SkipWhitespace(s, 0);
    s[i..SkipTrailingWhitespace(s, i, |s|)]
  }

  /** `trim` keeps the slice of `s` left once the whitespace on both ends is cut away. */
  lemma TrimCutsWhitespace(s: string)
    ensures var i, r := |s| - |TrimStart(s)|, Trim(s);
      i + |r| <= |s| && r == s[i..i + |r|]
      && (forall k :: 0 <= k < i ==> IsWhitespace(s[k]))
      && (forall k :: i + |r| <= k < |s| ==> IsWhitespace(s[k]))
  {
  }

  /** `trim` gives the empty string exactly when `s` is all whitespace. */
  lemma TrimEmptyIffAllWhitespace(s: string)
    ensures Trim(s) == [] <==> forall k :: 0 <= k < |s| ==> IsWhitespace(s[k])
  {
  }

  predicate IsUpper(c: char) {
    'A' <= c <= 'Z'
  }

  function LowerChar(c: char): char {
    if IsUpper(c) then (c as int + 32) as char else c
  }

  /** `toLowerCase`, restricted to the ASCII letters: no capital is left, each
    * capital becomes its small letter and every other character stays. */
  function ToLower(s: string): (r: string)
    ensures |r| == |s|
    ensures forall k :: 0 <= k < |r| ==> !IsUpper(r[k])
    ensures forall k :: 0 <= k < |s| && IsUpper(s[k]) ==> 'a' <= r[k] <= 'z' && r[k] as int - 'a' as int == s[k] as int - 'A' as int
    ensures forall k :: 0 <= k < |s| && !IsUpper(s[k]) ==> r[k] == s[k]
  {
    seq(|s|, k requires 0 <= k < |s| => LowerChar(s[k]))
  }

  /** Lower-casing twice is lower-casing once. */
  lemma ToLowerIdempotent(s: string)
    ensures ToLower(ToLower(s)) == ToLower(s)
  {
  }

  /** Two characters that are equal, or the capital and the small form of one letter. */
  predicate SameLetterIgnoringCase(c: char, d: char) {
    || c == d
    || (IsUpper(c) && d as int == c as int + 32)
    || (IsUpper(d) && c as int == d as int + 32)
  }

  /** `a.toLowerCase() === b.toLowerCase()`. */
  predicate SameIgnoringCase(a: string, b: string) {
    ToLower(a) == ToLower(b)
  }

  /** Two strings are equal ignoring case exactly when they have the same length
    * and differ at most in the ASCII case of their letters. */
  lemma SameIgnoringCaseIff(a: string, b: string)
    ensures SameIgnoringCase(a, b) <==>
      |a| == |b| && forall k :: 0 <= k < |a| ==> SameLetterIgnoringCase(a[k], b[k])
  {
    if |a| == |b| && forall k :: 0 <= k < |a| ==> SameLetterIgnoringCase(a[k], b[k]) {
      forall k | 0 <= k < |a|
        ensures ToLower(a)[k] == ToLower(b)[k]
      {
        assert SameLetterIgnoringCase(a[k], b[k]);
      }
    }
    if SameIgnoringCase(a, b) {
      forall k | 0 <= k < |a|
        ensures SameLetterIgnoringCase(a[k], b[k])
      {
        assert ToLower(a)[k] == ToLower(b)[k];
      }
    }
  }

  predicate IsDigit(c: char) {
    '0' <= c <= '9'
  }

  predicate AllDigits(d: string) {
    forall k :: 0 <= k < |d| ==> IsDigit(d[k])
  }

  /** The longest prefix of `s` made of decimal digits. */
  function DigitPrefix(s: string): (d: string)
    ensures |d| <= |s| && d == s[..|d|] && AllDigits(d)
    ensures |d| == |s| || !IsDigit(s[|d|])
  {
    if s != [] && IsDigit(s[0]) then [s[0]] + DigitPrefix(s[1..]) else []
  }

  /** The number a string of decimal digits denotes. */
  function DigitsValue(d: string): nat
    requires AllDigits(d)
  {
    if d == [] then 0 else DigitsValue(d[..|d| - 1]) * 10 + (d[|d| - 1] as int - '0' as int)
  }

  /**
   * `parseInt(s, 10)`: skip leading whitespace, read an optional sign, then the
   * longest run of decimal digits; `None` (JavaScript's NaN) when there is no digit.
   */
  function ParseInt(s: string): Option<int> {
    ParseSigned(TrimStart(s))
  }

  /** The sign and the digits once the leading whitespace is gone. */
  function ParseSigned(t: string): Option<int> {
    if t != [] && t[0] == '-' then Negate(ParseUnsigned(t[1..]))
    else if t != [] && t[0] == '+' then ParseUnsigned(t[1..])
    else ParseUnsigned(t)
  }

  function Negate(r: Option<int>): Option<int> {
    if r.Some? then Some(-r.value) else None
  }

  /** The value of the leading digits, if there is at least one. */
  function ParseUnsigned(body: string): Option<int> {
    var digits := DigitPrefix(body);
    if digits == [] then None
    else
      var value: int := DigitsValue(digits);
      Some(value)
  }

  /** Text that does not start with whitespace is left alone by TrimStart. */
  lemma TrimStartNoWhitespace(s: string)
    requires s == [] || !IsWhitespace(s[0])
    ensures TrimStart(s) == s
  {
  }

  lemma {:induction false} DigitPrefixOfDigits(d: string, rest: string)
    requires AllDigits(d)
    requires rest == [] || !IsDigit(rest[0])
    ensures DigitPrefix(d + rest) == d
  {
    if d != [] {
      assert (d + rest)[1..] == d[1..] + rest;
      DigitPrefixOfDigits(d[1..], rest);
    }
  }

  /** A non-empty run of digits, followed by non-digit text, reads as its value. */
  lemma ParseUnsignedDigits(d: string, rest: string)
    requires d != [] && AllDigits(d)
    requires rest == [] || !IsDigit(rest[0])
    ensures ParseUnsigned(d + rest) == Some(DigitsValue(d))
  {
    DigitPrefixOfDigits(d, rest);
  }

  /** `parseInt` reads a run of digits as its decimal value, whatever non-digit
    * text follows it (as in "12 points"). */
  lemma ParseIntDigits(d: string, rest: string)
    requires d != [] && AllDigits(d)
    requires rest == [] || !IsDigit(rest[0])
    ensures ParseInt(d + rest) == Some(DigitsValue(d))
  {
    var s := d + rest;
    assert s[0] == d[0];
    TrimStartNoWhitespace(s);
    ParseUnsignedDigits(d, rest);
  }

  /** A leading minus sign negates whatever follows it. */
  lemma ParseIntMinus(body: string)
    ensures ParseInt(['-'] + body) == Negate(ParseUnsigned(body))
  {
    var s := ['-'] + body;
    assert s[0] == '-' && s[1..] == body;
    TrimStartNoWhitespace(s);
  }

  /** A minus sign before any text that reads as a number gives the negated number. */
  lemma ParseIntNegative(body: string, v: int)
    requires ParseUnsigned(body) == Some(v)
    ensures ParseInt(['-'] + body) == Some(-v)
  {
    ParseIntMinus(body);
  }

  /** A string without any digit parses to NaN. */
  lemma ParseIntNoDigits(s: string)
    requires forall k :: 0 <= k < |s| ==> !IsDigit(s[k])
    ensures ParseInt(s) == None
  {
    var t := TrimStart(s);
    var i := |s| - |t|;
    if t != [] {
      assert t[0] == s[i];
      assert DigitPrefix(t) == [];
      if |t| > 1 {
        assert t[1..][0] == s[i + 1];
        assert DigitPrefix(t[1..]) == [];
      } else {
        assert t[1..] == [];
      }
    }
  }
}
