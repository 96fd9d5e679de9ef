/**
 * The few JavaScript string operations the storefront relies on:
 * `Number.prototype.toString()` on the integer `Date.now()` returns,
 * `toLowerCase`, `includes` and `trim`.
 */
module JsString {

  predicate IsDigit(c: char) {
    '0' <= c <= '9'
  }

  predicate AllDigits(s: string) {
    forall i :: 0 <= i < |s| ==> IsDigit(s[i])
  }

  function DigitChar(d: nat): (c: char)
    requires d < 10
    ensures IsDigit(c)
  {
    (('0' as int) + d) as char
  }

  function DigitValue(c: char): (d: nat)
    requires IsDigit(c)
    ensures d < 10 && DigitChar(d) == c
  {
    (c as int) - ('0' as int)
  }

  /**
   * The decimal rendering of a non-negative integer, as `String(n)` gives for
   * the millisecond timestamps of `Date.now()`: digits only, most significant
   * first, and no leading zero unless the number is zero.
   */
  function DecimalString(n: nat): (r: string)
    ensures |r| >= 1
    ensures AllDigits(r)
    ensures r[0] == '0' ==> n == 0
  {
    if n < 10 then [DigitChar(n)] else DecimalString(n / 10) + [DigitChar(n % 10)]
  }

  /** Reads a string of decimal digits as a number (the inverse of DecimalString). */
  function ParseDecimal(s: string): nat
    requires AllDigits(s)
  {
    if s == [] then 0 else ParseDecimal(s[..|s| - 1]) * 10 + DigitValue(s[|s| - 1])
  }

  lemma {:induction false} ParseDecimalString(n: nat)
    ensures ParseDecimal(DecimalString(n)) == n
  {
    if n >= 10 {
      var s := DecimalString(n / 10);
      var t := s + [DigitChar(n % 10)];
      assert t[..|t| - 1] == s;
      ParseDecimalString(n / 10);
    }
  }

  /** Distinct timestamps render as distinct strings. */
  lemma DecimalStringInjective(m: nat, n: nat)
    ensures DecimalString(m) == DecimalString(n) <==> m == n
  {
    ParseDecimalString(m);
    ParseDecimalString(n);
  }

  /**
   * `toLowerCase` on one character. Only the ASCII capitals are mapped; every
   * other character is returned unchanged.
   */
  function LowerChar(c: char): char {
    if 'A' <= c <= 'Z' then ((c as int) + 32) as char else c
  }

  function ToLowerCase(s: string): string {
    seq(|s|, i requires 0 <= i < |s| => LowerChar(s[i]))
  }

  /** Lower-casing leaves no ASCII capital behind, so doing it twice is doing it once. */
  lemma ToLowerCaseIdempotent(s: string)
    ensures forall i :: 0 <= i < |ToLowerCase(s)| ==> !('A' <= ToLowerCase(s)[i] <= 'Z')
    ensures ToLowerCase(ToLowerCase(s)) == ToLowerCase(s)
  {
  }

  /** `needle` occurs in `haystack` starting at index `i`. */
  predicate OccursAt(haystack: string, needle: string, i: int) {
    0 <= i && i + |needle| <= |haystack| && haystack[i..i + |needle|] == needle
  }

  /** `haystack.includes(needle)`. */
  function Includes(haystack: string, needle: string): (r: bool)
    ensures r <==> exists i :: OccursAt(haystack, needle, i)
  {
    if needle <= haystack then
      assert OccursAt(haystack, needle, 0);
      true
    else if haystack == [] then
      false
    else
      var rest := Includes(haystack[1..], needle);
      assert forall i :: OccursAt(haystack[1..], needle, i) <==> OccursAt(haystack, needle, i + 1) by {
        forall i ensures OccursAt(haystack[1..], needle, i) <==> OccursAt(haystack, needle, i + 1) {
          if 0 <= i && i + |needle| <= |haystack| - 1 {
            assert haystack[1..][i..i + |needle|] == haystack[i + 1..i + 1 + |needle|];
          }
        }
      }
      assert !OccursAt(haystack, needle, 0);
      assert (exists i :: OccursAt(haystack, needle, i)) ==> exists i :: OccursAt(haystack[1..], needle, i) by {
        if exists i :: OccursAt(haystack, needle, i) {
          var i :| OccursAt(haystack, needle, i);
          assert OccursAt(haystack[1..], needle, i - 1);
        }
      }
      rest
  }

  /** Every string includes the empty string. */
  lemma IncludesEmpty(haystack: string)
    ensures Includes(haystack, "")
  {
    assert OccursAt(haystack, "", 0);
  }

  /** The characters `String.prototype.trim` strips: ECMAScript WhiteSpace and LineTerminator. */
  predicate IsTrimmable(c: char) {
    || c == '\t' || c == '\n' || c == '\U{000B}' || c == '\U{000C}' || c == '\r' || c == ' '
    || c == '\U{00A0}' || c == '\U{1680}' || ('\U{2000}' <= c <= '\U{200A}')
    || c == '\U{2028}' || c == '\U{2029}' || c == '\U{202F}' || c == '\U{205F}'
    || c == '\U{3000}' || c == '\U{FEFF}'
  }

  predicate IsBlank(s: string) {
    forall i :: 0 <= i < |s| ==> IsTrimmable(s[i])
  }

  /** `trimStart`: the suffix that remains once the leading trimmable characters are dropped. */
  function TrimStart(s: string): (r: string)
    ensures |r| <= |s| && r == s[|s| - |r|..]
    ensures IsBlank(s[..|s| - |r|])
    ensures r != [] ==> !IsTrimmable(r[0])
  {
    if s != [] && IsTrimmable(s[0]) then
      var r := TrimStart(s[1..]);
      assert s[..|s| - |r|] == [s[0]] + s[1..][..|s| - 1 - |r|];
      r
    else s
  }

  /** `trimEnd`: the prefix that remains once the trailing trimmable characters are dropped. */
  function TrimEnd(s: string): (r: string)
    ensures |r| <= |s| && r == s[..|r|]
    ensures IsBlank(s[|r|..])
    ensures r != [] ==> !IsTrimmable(r[|r| - 1])
  {
    if s != [] && IsTrimmable(s[|s| - 1]) then
      var r := TrimEnd(s[..|s| - 1]);
      assert s[|r|..] == s[..|s| - 1][|r|..] + [s[|s| - 1]];
      r
    else s
  }

  /** `s.trim()`. */
  function Trim(s: string): string {
    TrimEnd(TrimStart(s))
  }

  /** `!s.trim()` holds exactly when every character of `s` is whitespace. */
  lemma TrimEmptyIffBlank(s: string)
    ensures Trim(s) == [] <==> IsBlank(s)
  {
    var t := TrimStart(s);
    if t == [] {
      assert s[..|s|] == s;
    } else {
      assert !IsTrimmable(t[0]);
      assert !IsTrimmable(s[|s| - |t|]);
    }
  }
}
