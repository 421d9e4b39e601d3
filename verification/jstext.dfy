/**
 * The JavaScript string operations the route handlers rely on:
 * `indexOf`, `substring`, `toLowerCase`, `trim` and `parseInt`.
 * Strings are sequences of Unicode scalar values.
 */
module JsText {
  import opened Wrappers

  /** `pattern` occurs in `s` starting at position `i`. */
  predicate OccursAt(s: string, pattern: string, i: int) {
    0 <= i && i + |pattern| <= |s| && s[i..i + |pattern|] == pattern
  }

  /** A one-character pattern occurs exactly where that character is. */
  lemma OccursAtChar(s: string, c: char, i: int)
    requires 0 <= i < |s|
    ensures OccursAt(s, [c], i) <==> s[i] == c
  {
    assert s[i..i + 1] == [s[i]];
  }

  /** First occurrence of `pattern` at or after `from`, or -1. */
  function IndexFrom(s: string, pattern: string, from: nat): (r: int)
    requires from <= |s|
    ensures r == -1 || (from <= r <= |s| && OccursAt(s, pattern, r))
    ensures forall i :: from <= i && (r == -1 || i < r) ==> !OccursAt(s, pattern, i)
    decreases |s| - from
  {
    if OccursAt(s, pattern, from) then from
    else if from == |s| then -1
    else IndexFrom(s, pattern, from + 1)
  }

  /** `s.indexOf(pattern)`: the first position where `pattern` occurs, or -1 if it never does. */
  function IndexOf(s: string, pattern: string): (r: int)
    ensures r == -1 || (0 <= r <= |s| && OccursAt(s, pattern, r))
    ensures forall i :: 0 <= i && (r == -1 || i < r) ==> !OccursAt(s, pattern, i)
  {
    IndexFrom(s, pattern, 0)
  }

  /** `s.indexOf(pattern) > -1`. */
  predicate Contains(s: string, pattern: string) {
    IndexOf(s, pattern) > -1
  }

  /** The empty pattern occurs in every string, so `s.indexOf("") > -1` always holds. */
  lemma ContainsEmpty(s: string)
    ensures Contains(s, "")
  {
    assert OccursAt(s, "", 0);
  }

  function Clamp(i: int, len: nat): (r: nat)
    ensures r <= len
  {
    if i < 0 then 0 else if i > len then len else i
  }

  /**
   * `s.substring(start, end)`: both arguments are clamped to `[0, |s|]`
   * and swapped when the first is the larger one.
   */
  function Substring(s: string, start: int, end: int): string {
    var a, b := Clamp(start, |s|), Clamp(end, |s|);
    if a <= b then s[a..b] else s[b..a]
  }

  /** `s.substring(start)`. */
  function SubstringFrom(s: string, start: int): string {
    Substring(s, start, |s|)
  }

  function LowerChar(c: char): char {
    if 'A' <= c <= 'Z' then (c as int + 32) as char else c
  }

  /** `s.toLowerCase()` on the ASCII letters. */
  function ToLower(s: string): (r: string)
    ensures |r| == |s|
    ensures forall i :: 0 <= i < |s| ==> r[i] == LowerChar(s[i])
    ensures forall i :: 0 <= i < |r| ==> !('A' <= r[i] <= 'Z')
  {
    if s == [] then [] else [LowerChar(s[0])] + ToLower(s[1..])
  }

  /** The characters `String.prototype.trim` removes: ECMAScript WhiteSpace and LineTerminator. */
  predicate IsWhitespace(c: char) {
    || c == '\t' || c == '\n' || c == '\U{000B}' || c == '\U{000C}' || c == '\r' || c == ' '
    || c == '\U{00A0}' || c == '\U{1680}' || ('\U{2000}' <= c <= '\U{200A}')
    || c == '\U{2028}' || c == '\U{2029}' || c == '\U{202F}' || c == '\U{205F}'
    || c == '\U{3000}' || c == '\U{FEFF}'
  }

  predicate AllWhitespace(s: string) {
    forall i :: 0 <= i < |s| ==> IsWhitespace(s[i])
  }

  /** Lowercasing neither creates nor removes white space. */
  lemma ToLowerKeepsWhitespace(s: string)
    ensures forall i :: 0 <= i < |s| ==> (IsWhitespace(ToLower(s)[i]) <==> IsWhitespace(s[i]))
    ensures AllWhitespace(ToLower(s)) <==> AllWhitespace(s)
  {
    var r := ToLower(s);
    forall i | 0 <= i < |s| ensures IsWhitespace(r[i]) <==> IsWhitespace(s[i]) {
      assert r[i] == LowerChar(s[i]);
    }
  }

  /** No ASCII capital in `s`. */
  predicate NoCapitals(s: string) {
    forall i :: 0 <= i < |s| ==> !('A' <= s[i] <= 'Z')
  }

  /** Trimming keeps a string free of ASCII capitals, since it only cuts off ends. */
  lemma TrimKeepsNoCapitals(s: string)
    requires NoCapitals(s)
    ensures NoCapitals(Trim(s))
  {
    var t := Trim(s);
    var k := SkipWhitespace(s, 0);
    assert t == s[k..k + |t|];
  }

  /**
   * `s.toLowerCase().trim()` is no longer than `s`, has no ASCII capital, is
   * empty exactly when `s` is all white space, and otherwise neither starts
   * nor ends with white space.
   */
  lemma LowerTrimShape(s: string)
    ensures var r := Trim(ToLower(s));
      && |r| <= |s|
      && NoCapitals(r)
      && (r == [] <==> AllWhitespace(s))
      && (r != [] ==> !IsWhitespace(r[0]) && !IsWhitespace(r[|r| - 1]))
  {
    ToLowerKeepsWhitespace(s);
    TrimKeepsNoCapitals(ToLower(s));
  }

  /**
   * `r` is what `trim` leaves of `s`: it sits in `s` right after the leading
   * white space, and only white space follows it.
   */
  predicate IsTrimOf(s: string, r: string) {
    var a := SkipWhitespace(s, 0);
    OccursAt(s, r, a) && AllWhitespace(s[..a]) && AllWhitespace(s[a + |r|..])
  }

  /** `Trim` meets `IsTrimOf`. */
  lemma TrimIsTrimOf(s: string)
    ensures IsTrimOf(s, Trim(s))
  {
    var r := Trim(s);
    var a := SkipWhitespace(s, 0);
    assert OccursAt(s, r, a);
    assert AllWhitespace(s[..a]);
    assert AllWhitespace(s[a + |r|..]);
  }

  /** The position of the first non-whitespace character at or after `from`, or `|s|`. */
  function SkipWhitespace(s: string, from: nat): (r: nat)
    requires from <= |s|
    ensures from <= r <= |s|
    ensures forall i :: from <= i < r ==> IsWhitespace(s[i])
    ensures r == |s| || !IsWhitespace(s[r])
    decreases |s| - from
  {
    if from < |s| && IsWhitespace(s[from]) then SkipWhitespace(s, from + 1) else from
  }

  /** The position just after the last non-whitespace character before `to`, or 0. */
  function SkipWhitespaceBack(s: string, to: nat): (r: nat)
    requires to <= |s|
    ensures r <= to
    ensures forall i :: r <= i < to ==> IsWhitespace(s[i])
    ensures r == 0 || !IsWhitespace(s[r - 1])
  {
    if 0 < to && IsWhitespace(s[to - 1]) then SkipWhitespaceBack(s, to - 1) else to
  }

  /**
   * `s.trim()`: the result sits in `s` at `SkipWhitespace(s, 0)` with only
   * whitespace before and after it, it is empty exactly when `s` is all
   * whitespace, and otherwise it neither starts nor ends with whitespace.
   */
  function Trim(s: string): (r: string)
    ensures |r| <= |s|
    ensures OccursAt(s, r, SkipWhitespace(s, 0))
    ensures AllWhitespace(s[..SkipWhitespace(s, 0)])
    ensures AllWhitespace(s[SkipWhitespace(s, 0) + |r|..])
    ensures r == [] <==> AllWhitespace(s)
    ensures r != [] ==> !IsWhitespace(r[0]) && !IsWhitespace(r[|r| - 1])
  {
    var a := SkipWhitespace(s, 0);
    if a == |s| then
      assert forall i :: 0 <= i < |s| ==> IsWhitespace(s[i]);
      []
    else
      var b := SkipWhitespaceBack(s, |s|);
      assert !AllWhitespace(s) by {
        assert !IsWhitespace(s[a]);
      }
      assert a < b;
      assert OccursAt(s, s[a..b], a);
      s[a..b]
  }

  predicate IsDigit(c: char) {
    '0' <= c <= '9'
  }

  function DigitValue(c: char): (d: nat)
    requires IsDigit(c)
    ensures d < 10
  {
    c as int - '0' as int
  }

  function DigitChar(d: nat): (c: char)
    requires d < 10
    ensures IsDigit(c) && DigitValue(c) == d
  {
    ('0' as int + d) as char
  }

  predicate AllDigits(s: string) {
    forall i :: 0 <= i < |s| ==> IsDigit(s[i])
  }

  /** The number of decimal digits `s` starts with. */
  function LeadingDigits(s: string): (n: nat)
    ensures n <= |s| && AllDigits(s[..n])
    ensures n < |s| ==> !IsDigit(s[n])
  {
    if s != [] && IsDigit(s[0]) then
      var n := 1 + LeadingDigits(s[1..]);
      assert s[..n] == [s[0]] + s[1..][..n - 1];
      n
    else 0
  }

  /** The value of a string of decimal digits, most significant first. */
  function DecimalValue(ds: string): nat
    requires AllDigits(ds)
  {
    if ds == [] then 0 else DecimalValue(ds[..|ds| - 1]) * 10 + DigitValue(ds[|ds| - 1])
  }

  /**
   * `parseInt(s)` for a string that starts with a digit: the value of its
   * leading run of digits; `None` stands for `NaN`, when `s` does not start
   * with a digit.
   */
  function ParseInt(s: string): (r: Option<nat>)
    ensures r.None? <==> (s == [] || !IsDigit(s[0]))
  {
    var n := LeadingDigits(s);
    if n == 0 then None else Some(DecimalValue(s[..n]))
  }

  /** The decimal representation of `n`, as `String(n)` gives it. */
  function Decimal(n: nat): (s: string)
    ensures s != [] && AllDigits(s)
    decreases n
  {
    if n < 10 then [DigitChar(n)] else Decimal(n / 10) + [DigitChar(n % 10)]
  }

  lemma {:induction false} DecimalValueOfDecimal(n: nat)
    ensures DecimalValue(Decimal(n)) == n
    decreases n
  {
    if n >= 10 {
      var s := Decimal(n);
      assert s[..|s| - 1] == Decimal(n / 10);
      DecimalValueOfDecimal(n / 10);
    }
  }

  /** `parseInt` reads back what `Decimal` writes, even when non-digits follow. */
  lemma {:induction false} ParseIntDecimal(n: nat, rest: string)
    requires rest == [] || !IsDigit(rest[0])
    ensures ParseInt(Decimal(n) + rest) == Some(n)
  {
    var d := Decimal(n);
    var s := d + rest;
    LeadingDigitsOfDigitsThen(d, rest);
    assert s[..|d|] == d;
    DecimalValueOfDecimal(n);
  }

  lemma {:induction false} LeadingDigitsOfDigitsThen(d: string, rest: string)
    requires AllDigits(d)
    requires rest == [] || !IsDigit(rest[0])
    ensures LeadingDigits(d + rest) == |d|
    decreases |d|
  {
    if d != [] {
      assert (d + rest)[1..] == d[1..] + rest;
      LeadingDigitsOfDigitsThen(d[1..], rest);
    }
  }
}
