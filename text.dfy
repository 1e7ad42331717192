/** The string primitives the application relies on: JavaScript's
    `String.prototype.trim`, lower-casing for the letters that matter, and the
    decimal rendering of a whole number that a template literal performs. */
module Text {

  /** White space and line terminators, as ECMAScript defines them for `trim`. */
  predicate IsJsWhitespace(c: char) {
    var n := c as int;
    n == 0x09 || n == 0x0A || n == 0x0B || n == 0x0C || n == 0x0D || n == 0x20
    || n == 0xA0 || n == 0x1680 || (0x2000 <= n <= 0x200A)
    || n == 0x2028 || n == 0x2029 || n == 0x202F || n == 0x205F || n == 0x3000 || n == 0xFEFF
  }

  /** The positions of `s` holding a character outside the Basic
      Multilingual Plane, which UTF-16 writes as a surrogate pair. */
  ghost function AstralPositions(s: string): set<nat> {
    set i: nat | i < |s| && s[i] as int >= 0x10000
  }

  /** JavaScript's `length`: UTF-16 code units, two for a character outside
      the Basic Multilingual Plane and one for any other. */
  function Utf16Length(s: string): (n: nat)
    ensures n == |s| + |AstralPositions(s)|
    ensures |s| <= n <= 2 * |s|
    ensures n == |s| <==> forall i :: 0 <= i < |s| ==> s[i] as int < 0x10000
  {
    if s == [] then 0
    else
      var init := s[..|s| - 1];
      var last := |s| - 1;
      assert AstralPositions(s) ==
             AstralPositions(init) + (if s[last] as int >= 0x10000 then {last} else {});
      assert last !in AstralPositions(init);
      assert forall i :: 0 <= i < |s| && s[i] as int >= 0x10000 ==> i in AstralPositions(s);
      Utf16Length(init) + (if s[last] as int < 0x10000 then 1 else 2)
  }

  /** How many white-space characters `s` starts with. */
  function LeadingWhitespace(s: string): (k: nat)
    ensures k <= |s|
    ensures forall i :: 0 <= i < k ==> IsJsWhitespace(s[i])
    ensures k < |s| ==> !IsJsWhitespace(s[k])
  {
    if s != [] && IsJsWhitespace(s[0]) then 1 + LeadingWhitespace(s[1..]) else 0
  }

  /** How many white-space characters `s` ends with. */
  function TrailingWhitespace(s: string): (k: nat)
    ensures k <= |s|
    ensures forall i :: |s| - k <= i < |s| ==> IsJsWhitespace(s[i])
    ensures k < |s| ==> !IsJsWhitespace(s[|s| - k - 1])
  {
    if s != [] && IsJsWhitespace(s[|s| - 1]) then 1 + TrailingWhitespace(s[..|s| - 1]) else 0
  }

  /** Cutting text after its first non-white character keeps its leading white space. */
  lemma {:induction false} LeadingOfPrefix(s: string, n: nat)
    requires LeadingWhitespace(s) < n <= |s|
    ensures LeadingWhitespace(s[..n]) == LeadingWhitespace(s)
  {
    if IsJsWhitespace(s[0]) {
      assert s[..n][1..] == s[1..][..n - 1];
      LeadingOfPrefix(s[1..], n - 1);
    }
  }

  /** `s.trim()`: empty exactly when `s` is all white space; otherwise the
      slice of `s` that starts at its first non-white character, ends at its
      last one, and is followed by nothing but white space. */
  function Trim(s: string): (r: string)
    ensures |r| <= |s|
    ensures r == [] <==> forall i :: 0 <= i < |s| ==> IsJsWhitespace(s[i])
    ensures r != [] ==> !IsJsWhitespace(r[0]) && !IsJsWhitespace(r[|r| - 1])
    ensures r != [] ==>
              && LeadingWhitespace(s) + |r| <= |s|
              && r == s[LeadingWhitespace(s)..LeadingWhitespace(s) + |r|]
              && forall i :: LeadingWhitespace(s) + |r| <= i < |s| ==> IsJsWhitespace(s[i])
  {
    var e := s[..|s| - TrailingWhitespace(s)];
    var lead := LeadingWhitespace(e);
    if lead < |e| then
      LeadingOfPrefix(s, |e|);
      e[lead..]
    else
      assert forall i :: 0 <= i < |s| ==> IsJsWhitespace(s[i]) by {
        forall i | 0 <= i < |s| ensures IsJsWhitespace(s[i]) {
          if i < |e| { assert s[i] == e[i]; }
        }
      }
      []
  }

  /** Trimming text that is white space only leaves the empty string. */
  lemma TrimAllWhitespace(s: string)
    requires forall i :: 0 <= i < |s| ==> IsJsWhitespace(s[i])
    ensures Trim(s) == ""
  {
  }

  predicate IsAsciiUpper(c: char) { 'A' <= c <= 'Z' }
  predicate IsAsciiLower(c: char) { 'a' <= c <= 'z' }
  predicate IsAsciiDigit(c: char) { '0' <= c <= '9' }

  function LowerChar(c: char): char {
    if IsAsciiUpper(c) then (c as int + 32) as char else c
  }

  /** `s.toLowerCase()` restricted to the ASCII letters. */
  function ToLower(s: string): (r: string)
    ensures |r| == |s|
  {
    seq(|s|, i requires 0 <= i < |s| => LowerChar(s[i]))
  }

  /** Two characters that are the same letter in either case, or identical. */
  predicate SameIgnoringCase(x: char, y: char) {
    x == y
    || (IsAsciiUpper(x) && IsAsciiLower(y) && y as int - x as int == 32)
    || (IsAsciiLower(x) && IsAsciiUpper(y) && x as int - y as int == 32)
  }

  /** Case-insensitive equality, defined character by character without
      reference to lower-casing. */
  predicate EqualsIgnoringCase(a: string, b: string) {
    |a| == |b| && forall i :: 0 <= i < |a| ==> SameIgnoringCase(a[i], b[i])
  }

  /** Lower-casing identifies exactly the strings that are equal ignoring case. */
  lemma ToLowerEqualIff(a: string, b: string)
    ensures ToLower(a) == ToLower(b) <==> EqualsIgnoringCase(a, b)
  {
    if ToLower(a) == ToLower(b) {
      forall i | 0 <= i < |a| ensures SameIgnoringCase(a[i], b[i]) {
        assert ToLower(a)[i] == ToLower(b)[i];
      }
    }
    if EqualsIgnoringCase(a, b) {
      assert forall i :: 0 <= i < |a| ==> ToLower(a)[i] == ToLower(b)[i];
    }
  }

  predicate AllDigits(s: string) {
    forall i :: 0 <= i < |s| ==> IsAsciiDigit(s[i])
  }

  function DigitChar(d: nat): (c: char)
    requires d < 10
    ensures IsAsciiDigit(c)
  {
    ('0' as int + d) as char
  }

  function DigitValue(c: char): nat
    requires IsAsciiDigit(c)
  {
    c as int - '0' as int
  }

  /** The decimal text of `n` as a template literal renders an integer: digits
      only, never empty, and without a leading zero unless `n` is zero. */
  function DecimalText(n: nat): (r: string)
    ensures |r| > 0 && AllDigits(r)
    ensures r[0] == '0' ==> n == 0
  {
    if n < 10 then [DigitChar(n)] else DecimalText(n / 10) + [DigitChar(n % 10)]
  }

  /** Reads a string of decimal digits back as a number. */
  function DecimalValue(s: string): nat
    requires AllDigits(s)
  {
    if s == [] then 0 else DecimalValue(s[..|s| - 1]) * 10 + DigitValue(s[|s| - 1])
  }

  lemma {:induction false} DecimalRoundTrip(n: nat)
    ensures DecimalValue(DecimalText(n)) == n
  {
    if n >= 10 {
      var t := DecimalText(n);
      assert t[..|t| - 1] == DecimalText(n / 10);
      DecimalRoundTrip(n / 10);
    }
  }

  /** Splits off the longest prefix of decimal digits. */
  function SpanDigits(s: string): (r: (string, string))
    ensures r.0 + r.1 == s && AllDigits(r.0)
    ensures r.1 == [] || !IsAsciiDigit(r.1[0])
  {
    if s != [] && IsAsciiDigit(s[0]) then
      var rest := SpanDigits(s[1..]);
      ([s[0]] + rest.0, rest.1)
    else
      ([], s)
  }

  /** Digits followed by text that does not start with a digit split back
      into exactly those two parts. */
  lemma {:induction false} SpanDigitsOf(digits: string, tail: string)
    requires AllDigits(digits)
    requires tail == [] || !IsAsciiDigit(tail[0])
    ensures SpanDigits(digits + tail) == (digits, tail)
  {
    if digits != [] {
      assert (digits + tail)[1..] == digits[1..] + tail;
      SpanDigitsOf(digits[1..], tail);
      assert [digits[0]] + digits[1..] == digits;
    } else {
      assert digits + tail == tail;
    }
  }
}
