/** String operations of the JavaScript runtime that the tool relies on,
    restricted to what its code needs: ASCII case mapping (`toLowerCase`,
    `toUpperCase`, `/[A-Z]/`), `startsWith`, `endsWith`, `includes`,
    `replace` with a string pattern, `replaceAll`, `indexOf` on arrays and
    `parseInt(s, 10)`. */
module Strings {
  import opened Wrappers

  predicate IsAsciiUpper(c: char) { 'A' <= c <= 'Z' }

  predicate IsAsciiLower(c: char) { 'a' <= c <= 'z' }

  predicate IsDigit(c: char) { '0' <= c <= '9' }

  function LowerChar(c: char): char {
    if IsAsciiUpper(c) then (c as int + 32) as char else c
  }

  function UpperChar(c: char): char {
    if IsAsciiLower(c) then (c as int - 32) as char else c
  }

  /** `s.toLowerCase()`, ASCII letters only. */
  function Lower(s: string): (r: string)
    ensures |r| == |s|
    ensures forall i :: 0 <= i < |s| ==> r[i] == LowerChar(s[i])
  {
    if s == [] then [] else [LowerChar(s[0])] + Lower(s[1..])
  }

  predicate StartsWith(s: string, prefix: string) {
    |prefix| <= |s| && s[..|prefix|] == prefix
  }

  predicate EndsWith(s: string, suffix: string) {
    |suffix| <= |s| && s[|s| - |suffix|..] == suffix
  }

  /** `s.includes(needle)`: `needle` occurs somewhere in `s`. */
  predicate Contains(s: string, needle: string)
    decreases |s|
  {
    StartsWith(s, needle) || (s != [] && Contains(s[1..], needle))
  }

  /** `s.replaceAll(pattern, replacement)` for a non-empty string pattern:
      occurrences are found left to right and do not overlap. */
  function ReplaceAll(s: string, pattern: string, replacement: string): string
    requires pattern != []
    decreases |s|
  {
    if s == [] then []
    else if StartsWith(s, pattern) then replacement + ReplaceAll(s[|pattern|..], pattern, replacement)
    else [s[0]] + ReplaceAll(s[1..], pattern, replacement)
  }

  /** `s.replace(pattern, replacement)` for a non-empty string pattern: only
      the first occurrence is replaced. */
  function ReplaceFirst(s: string, pattern: string, replacement: string): string
    requires pattern != []
    decreases |s|
  {
    if StartsWith(s, pattern) then replacement + s[|pattern|..]
    else if s == [] then []
    else [s[0]] + ReplaceFirst(s[1..], pattern, replacement)
  }

  /** `xs.indexOf(x)`: the first index of `x`, or -1. */
  function IndexOf<T(==)>(xs: seq<T>, x: T): (k: int)
    ensures -1 <= k < |xs|
    ensures k == -1 <==> x !in xs
    ensures k >= 0 ==> xs[k] == x && forall j :: 0 <= j < k ==> xs[j] != x
  {
    if xs == [] then -1
    else if xs[0] == x then 0
    else var k := IndexOf(xs[1..], x); if k == -1 then -1 else k + 1
  }

  // ---------------------------------------------------------------------
  // parseInt(s, 10)

  /** The characters ECMAScript's `parseInt` skips before the number:
      WhiteSpace and LineTerminator (section 7.2 and 7.3 of ECMA-262). */
  predicate IsJsWhitespace(c: char) {
    c == '\t' || c == '\n' || c == '\U{000B}' || c == '\U{000C}' || c == '\r' || c == ' '
    || c == '\U{00A0}' || c == '\U{1680}' || ('\U{2000}' <= c <= '\U{200A}')
    || c == '\U{2028}' || c == '\U{2029}' || c == '\U{202F}' || c == '\U{205F}'
    || c == '\U{3000}' || c == '\U{FEFF}'
  }

  function TrimStart(s: string): (r: string)
    ensures r == [] || !IsJsWhitespace(r[0])
    ensures |r| <= |s| && r == s[|s| - |r|..]
  {
    if s != [] && IsJsWhitespace(s[0]) then TrimStart(s[1..]) else s
  }

  /** The longest prefix of `s` made of decimal digits. */
  function DigitPrefix(s: string): (r: string)
    ensures |r| <= |s| && r == s[..|r|]
    ensures forall i :: 0 <= i < |r| ==> IsDigit(r[i])
    ensures |r| < |s| ==> !IsDigit(s[|r|])
  {
    if s != [] && IsDigit(s[0]) then [s[0]] + DigitPrefix(s[1..]) else []
  }

  function DigitValue(c: char): nat requires IsDigit(c) { c as int - '0' as int }

  /** The value of a string of decimal digits, most significant first. */
  function DecimalValue(ds: string): nat
    requires forall i :: 0 <= i < |ds| ==> IsDigit(ds[i])
  {
    if ds == [] then 0 else 10 * DecimalValue(ds[..|ds| - 1]) + DigitValue(ds[|ds| - 1])
  }

  /** `parseInt(s, 10)`: leading whitespace, an optional sign, then the
      longest run of digits; `None` stands for NaN (no digit at all). */
  function ParseInt(s: string): Option<int> {
    ParseSigned(TrimStart(s))
  }

  /** `parseInt` after the leading whitespace: an optional sign, then the
      digits. */
  function ParseSigned(t: string): Option<int> {
    if t != [] && t[0] == '-' then Negate(ParseDigits(t[1..]))
    else if t != [] && t[0] == '+' then ParseDigits(t[1..])
    else ParseDigits(t)
  }

  /** The value of the digits `s` starts with, or `None` when it does not
      start with a digit. */
  function ParseDigits(s: string): Option<int> {
    var digits := DigitPrefix(s);
    if digits == [] then None else Some(DecimalValue(digits))
  }

  function Negate(n: Option<int>): Option<int> {
    if n.Some? then Some(-n.value) else None
  }

  /** The decimal numeral of `n`, as `String(n)` prints it. */
  function DecimalString(n: nat): (r: string)
    ensures r != [] && forall i :: 0 <= i < |r| ==> IsDigit(r[i])
  {
    var d := ['0' + (n % 10) as char];
    if n < 10 then d else DecimalString(n / 10) + d
  }

  // ---------------------------------------------------------------------
  // Lemmas

  lemma {:induction false} DecimalStringValue(n: nat)
    ensures DecimalValue(DecimalString(n)) == n
  {
    var d := ['0' + (n % 10) as char];
    if n >= 10 {
      var s := DecimalString(n);
      assert s == DecimalString(n / 10) + d;
      assert s[..|s| - 1] == DecimalString(n / 10);
      DecimalStringValue(n / 10);
    }
  }

  lemma DigitPrefixOfDigits(ds: string, tail: string)
    requires forall i :: 0 <= i < |ds| ==> IsDigit(ds[i])
    requires tail == [] || !IsDigit(tail[0])
    ensures DigitPrefix(ds + tail) == ds
    decreases |ds|
  {
    if ds != [] {
      assert (ds + tail)[1..] == ds[1..] + tail;
      DigitPrefixOfDigits(ds[1..], tail);
    } else {
      assert ds + tail == tail;
    }
  }

  lemma ParseIntOfDigitStart(s: string)
    requires s != [] && IsDigit(s[0])
    ensures ParseInt(s) == ParseDigits(s)
  {
    assert !IsJsWhitespace(s[0]);
    var t := TrimStart(s);
    assert t == s;
    assert t != [] && t[0] != '-' && t[0] != '+';
  }

  /** `parseInt` reads a numeral and ignores whatever follows its digits:
      `parseInt("3abc") == 3`. */
  lemma ParseIntPrefix(ds: string, tail: string)
    requires ds != [] && forall i :: 0 <= i < |ds| ==> IsDigit(ds[i])
    requires tail == [] || !IsDigit(tail[0])
    ensures ParseInt(ds + tail) == Some(DecimalValue(ds))
  {
    assert (ds + tail)[0] == ds[0];
    ParseIntOfDigitStart(ds + tail);
    DigitPrefixOfDigits(ds, tail);
  }

  /** Round trip: `parseInt(String(n), 10) == n` for every natural `n`. */
  lemma ParseIntOfDecimalString(n: nat)
    ensures ParseInt(DecimalString(n)) == Some(n)
  {
    var s := DecimalString(n);
    assert s + [] == s;
    ParseIntPrefix(s, []);
    DecimalStringValue(n);
  }

  /** Leading whitespace does not change what `parseInt` reads. */
  lemma {:induction false} TrimStartSkips(pad: string, s: string)
    requires forall i :: 0 <= i < |pad| ==> IsJsWhitespace(pad[i])
    requires s == [] || !IsJsWhitespace(s[0])
    ensures TrimStart(pad + s) == s
    decreases |pad|
  {
    if pad == [] {
      assert pad + s == s;
    } else {
      assert (pad + s)[0] == pad[0];
      assert (pad + s)[1..] == pad[1..] + s;
      TrimStartSkips(pad[1..], s);
    }
  }

  lemma ParseIntSkipsWhitespace(pad: string, s: string)
    requires forall i :: 0 <= i < |pad| ==> IsJsWhitespace(pad[i])
    requires s == [] || !IsJsWhitespace(s[0])
    ensures ParseInt(pad + s) == ParseInt(s)
  {
    TrimStartSkips(pad, s);
    TrimStartSkips([], s);
    assert [] + s == s;
  }

  /** `parseInt` reads the digits after leading whitespace and before
      anything that is not a digit. */
  lemma ParseIntOfPaddedDigits(pad: string, ds: string, tail: string)
    requires forall i :: 0 <= i < |pad| ==> IsJsWhitespace(pad[i])
    requires ds != [] && forall i :: 0 <= i < |ds| ==> IsDigit(ds[i])
    requires tail == [] || !IsDigit(tail[0])
    ensures ParseInt(pad + (ds + tail)) == Some(DecimalValue(ds))
  {
    var s := ds + tail;
    assert s[0] == ds[0] && IsDigit(ds[0]);
    assert !IsJsWhitespace(s[0]);
    ParseIntSkipsWhitespace(pad, s);
    ParseIntPrefix(ds, tail);
  }

  /** In particular it reads back the numeral of `n`. */
  lemma ParseIntOfPaddedNumeral(pad: string, n: nat, tail: string)
    requires forall i :: 0 <= i < |pad| ==> IsJsWhitespace(pad[i])
    requires tail == [] || !IsDigit(tail[0])
    ensures ParseInt(pad + (DecimalString(n) + tail)) == Some(n)
  {
    ParseIntOfPaddedDigits(pad, DecimalString(n), tail);
    DecimalStringValue(n);
  }

  lemma ParseIntOfEmpty()
    ensures ParseInt("") == None
  {
  }

  lemma {:induction false} ContainsAppendLeft(a: string, b: string, needle: string)
    requires Contains(b, needle)
    ensures Contains(a + b, needle)
    decreases |a|
  {
    if a == [] {
      assert a + b == b;
    } else {
      assert (a + b)[1..] == a[1..] + b;
      ContainsAppendLeft(a[1..], b, needle);
    }
  }

  lemma {:induction false} ContainsAppendRight(a: string, b: string, needle: string)
    requires Contains(a, needle)
    ensures Contains(a + b, needle)
    decreases |a|
  {
    if StartsWith(a, needle) {
      assert (a + b)[..|needle|] == a[..|needle|];
    } else {
      assert (a + b)[1..] == a[1..] + b;
      ContainsAppendRight(a[1..], b, needle);
    }
  }

  lemma ContainsEmpty(s: string)
    ensures Contains(s, "")
  {
  }

  /** A string in which the pattern does not occur comes back unchanged. */
  lemma {:induction false} ReplaceAllWithoutOccurrence(s: string, pattern: string, replacement: string)
    requires pattern != []
    requires !Contains(s, pattern)
    ensures ReplaceAll(s, pattern, replacement) == s
    decreases |s|
  {
    if s != [] {
      ReplaceAllWithoutOccurrence(s[1..], pattern, replacement);
      assert [s[0]] + s[1..] == s;
    }
  }

  /** With a replacement shorter than the pattern, `replaceAll` never grows
      the string, and it keeps its length exactly when nothing was replaced. */
  lemma {:induction false} ReplaceAllShortens(s: string, pattern: string, replacement: string)
    requires pattern != [] && |replacement| < |pattern|
    ensures |ReplaceAll(s, pattern, replacement)| <= |s|
    ensures |ReplaceAll(s, pattern, replacement)| == |s| <==> !Contains(s, pattern)
    decreases |s|
  {
    if s == [] {
    } else if StartsWith(s, pattern) {
      ReplaceAllShortens(s[|pattern|..], pattern, replacement);
    } else {
      ReplaceAllShortens(s[1..], pattern, replacement);
    }
  }

  /** `replace` inserts its replacement whenever the pattern occurs, so
      whatever the replacement contains occurs in the result. */
  lemma {:induction false} ReplaceFirstInserts(s: string, pattern: string, replacement: string, needle: string)
    requires pattern != []
    requires Contains(s, pattern) && Contains(replacement, needle)
    ensures Contains(ReplaceFirst(s, pattern, replacement), needle)
    decreases |s|
  {
    if StartsWith(s, pattern) {
      ContainsAppendRight(replacement, s[|pattern|..], needle);
    } else {
      ReplaceFirstInserts(s[1..], pattern, replacement, needle);
      ContainsAppendLeft([s[0]], ReplaceFirst(s[1..], pattern, replacement), needle);
    }
  }

  /** Without an occurrence of the pattern, `replace` changes nothing. */
  lemma {:induction false} ReplaceFirstWithoutOccurrence(s: string, pattern: string, replacement: string)
    requires pattern != []
    requires !Contains(s, pattern)
    ensures ReplaceFirst(s, pattern, replacement) == s
    decreases |s|
  {
    if s != [] {
      ReplaceFirstWithoutOccurrence(s[1..], pattern, replacement);
      assert [s[0]] + s[1..] == s;
    }
  }
}
