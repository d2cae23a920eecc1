/**
 * The JavaScript string operations the mail client relies on, stated on
 * `string` (a sequence of Unicode code points): `trim`, `toLowerCase`
 * (ASCII letters only), `split("@")[0]`, `startsWith` and the decimal
 * rendering of integers used by template literals.
 */
module Text {

  /** The WhiteSpace and LineTerminator code points that `String.prototype.trim` removes. */
  predicate IsJsWhitespace(c: char) {
    || c == '\t' || c == '\n' || c == '\U{000B}' || c == '\U{000C}' || c == '\r'
    || c == ' ' || c == '\U{00A0}' || c == '\U{1680}' || ('\U{2000}' <= c <= '\U{200A}')
    || c == '\U{2028}' || c == '\U{2029}' || c == '\U{202F}' || c == '\U{205F}'
    || c == '\U{3000}' || c == '\U{FEFF}'
  }

  /** `s` with its leading whitespace removed. */
  function TrimStart(s: string): (r: string)
    ensures |r| <= |s| && r == s[|s| - |r|..]
    ensures forall i :: 0 <= i < |s| - |r| ==> IsJsWhitespace(s[i])
    ensures r != [] ==> !IsJsWhitespace(r[0])
  {
    if s != [] && IsJsWhitespace(s[0]) then TrimStart(s[1..]) else s
  }

  /** `s` with its trailing whitespace removed. */
  function TrimEnd(s: string): (r: string)
    ensures |r| <= |s| && r == s[..|r|]
    ensures forall i :: |r| <= i < |s| ==> IsJsWhitespace(s[i])
    ensures r != [] ==> !IsJsWhitespace(r[|r| - 1])
  {
    if s != [] && IsJsWhitespace(s[|s| - 1]) then TrimEnd(s[..|s| - 1]) else s
  }

  /** `s.trim()`: neither end of the result is whitespace. */
  function Trim(s: string): (r: string)
    ensures |r| <= |s|
    ensures r != [] ==> !IsJsWhitespace(r[0]) && !IsJsWhitespace(r[|r| - 1])
  {
    TrimEnd(TrimStart(s))
  }

  /** A string whose ends are not whitespace is its own trim. */
  lemma TrimOfTrimmed(s: string)
    requires s != [] ==> !IsJsWhitespace(s[0]) && !IsJsWhitespace(s[|s| - 1])
    ensures Trim(s) == s
  {
  }

  /** Trimming twice is trimming once. */
  lemma TrimIdempotent(s: string)
    ensures Trim(Trim(s)) == Trim(s)
  {
    TrimOfTrimmed(Trim(s));
  }

  /** `toLowerCase` on one character; only the ASCII letters A-Z are mapped. */
  function LowerChar(c: char): char {
    if 'A' <= c <= 'Z' then (c as int + 32) as char else c
  }

  /** `s.toLowerCase()`, character by character. */
  function ToLower(s: string): (r: string)
    ensures |r| == |s|
    ensures forall i :: 0 <= i < |s| ==> r[i] == LowerChar(s[i])
  {
    if s == [] then [] else [LowerChar(s[0])] + ToLower(s[1..])
  }

  predicate IsLower(s: string) {
    forall i :: 0 <= i < |s| ==> !('A' <= s[i] <= 'Z')
  }

  lemma ToLowerIsLower(s: string)
    ensures IsLower(ToLower(s))
  {
  }

  /** A string without upper-case ASCII letters is unchanged by `toLowerCase`. */
  lemma ToLowerOfLower(s: string)
    requires IsLower(s)
    ensures ToLower(s) == s
  {
  }

  /** Lower-casing maps no whitespace to non-whitespace and back. */
  lemma LowerCharKeepsWhitespace(c: char)
    ensures IsJsWhitespace(LowerChar(c)) == IsJsWhitespace(c)
  {
  }

  /** `s.split("@")[0]`: everything before the first '@', or all of `s` when it has none. */
  function LocalPart(s: string): (r: string)
    ensures |r| <= |s| && r == s[..|r|]
    ensures '@' !in r
    ensures |r| < |s| ==> s[|r|] == '@'
  {
    if s == [] || s[0] == '@' then [] else [s[0]] + LocalPart(s[1..])
  }

  /** Appending to a string after its first '@' does not change its local part. */
  lemma {:induction false} LocalPartOfConcat(a: string, b: string)
    requires '@' !in a
    ensures LocalPart(a + "@" + b) == a
  {
    if a != [] {
      assert (a + "@" + b)[1..] == a[1..] + "@" + b;
      LocalPartOfConcat(a[1..], b);
    } else {
      assert (a + "@" + b)[0] == '@';
    }
  }

  /** `s.startsWith(p)`. */
  predicate StartsWith(s: string, p: string) {
    |p| <= |s| && s[..|p|] == p
  }

  predicate IsDigit(c: char) {
    '0' <= c <= '9'
  }

  function DigitChar(d: nat): (c: char)
    requires d < 10
    ensures IsDigit(c) && c as int - '0' as int == d
  {
    ('0' as int + d) as char
  }

  /** The decimal rendering of a natural number, as `${n}` gives it. */
  function NatToString(n: nat): (r: string)
    ensures r != []
    ensures forall i :: 0 <= i < |r| ==> IsDigit(r[i])
    ensures n >= 10 ==> |r| >= 2
  {
    if n < 10 then [DigitChar(n)] else NatToString(n / 10) + [DigitChar(n % 10)]
  }

  /** The decimal rendering of an integer, with a leading '-' when negative. */
  function IntToString(i: int): (r: string)
    ensures r != [] && ':' !in r
  {
    if i < 0 then "-" + NatToString(-i) else NatToString(i)
  }

  /** Distinct numbers render as distinct strings. */
  lemma {:induction false} NatToStringInjective(a: nat, b: nat)
    ensures NatToString(a) == NatToString(b) ==> a == b
  {
    var ra, rb := NatToString(a), NatToString(b);
    if a < 10 && b < 10 {
      assert ra[0] == DigitChar(a) && rb[0] == DigitChar(b);
    } else if a < 10 || b < 10 {
      assert |ra| != |rb|;
    } else {
      assert ra == NatToString(a / 10) + [DigitChar(a % 10)];
      assert rb == NatToString(b / 10) + [DigitChar(b % 10)];
      assert ra[|ra| - 1] == DigitChar(a % 10) && rb[|rb| - 1] == DigitChar(b % 10);
      assert ra[..|ra| - 1] == NatToString(a / 10);
      assert rb[..|rb| - 1] == NatToString(b / 10);
      NatToStringInjective(a / 10, b / 10);
    }
  }

  lemma IntToStringInjective(a: int, b: int)
    ensures IntToString(a) == IntToString(b) ==> a == b
  {
    var ra, rb := IntToString(a), IntToString(b);
    if a < 0 && b < 0 {
      assert ra[1..] == NatToString(-a) && rb[1..] == NatToString(-b);
      NatToStringInjective(-a, -b);
    } else if a < 0 || b < 0 {
      assert !IsDigit('-');
      assert ra[0] != rb[0];
    } else {
      NatToStringInjective(a, b);
    }
  }
}
