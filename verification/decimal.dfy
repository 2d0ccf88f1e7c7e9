/**
  Integer <-> text conversions as JavaScript performs them: template-literal
  rendering of an integral number, and the global `parseInt` with no radix.
  Numbers are unbounded integers here; the loss of precision of JavaScript
  numbers beyond 2^53 is not modelled.
*/
module Decimal {
  import opened Text

  predicate IsDigit(c: char) {
    '0' <= c <= '9'
  }

  predicate AllDigits(s: string) {
    forall i :: 0 <= i < |s| ==> IsDigit(s[i])
  }

  predicate IsHexDigit(c: char) {
    IsDigit(c) || 'a' <= c <= 'f' || 'A' <= c <= 'F'
  }

  predicate AllHexDigits(s: string) {
    forall i :: 0 <= i < |s| ==> IsHexDigit(s[i])
  }

  function DigitChar(d: nat): (c: char)
    requires d < 10
    ensures IsDigit(c)
  {
    (('0' as int) + d) as char
  }

  function DigitValue(c: char): (d: nat)
    requires IsHexDigit(c)
    ensures d < 16
    ensures IsDigit(c) ==> d < 10
  {
    if IsDigit(c) then (c as int) - ('0' as int)
    else if 'a' <= c <= 'f' then (c as int) - ('a' as int) + 10
    else (c as int) - ('A' as int) + 10
  }

  /** The value of a string of digits in the given radix, most significant first. */
  function ValueOf(s: string, radix: nat): nat
    requires radix == 10 || radix == 16
    requires AllHexDigits(s)
    requires radix == 10 ==> AllDigits(s)
  {
    if |s| == 0 then 0
    else
      var high := ValueOf(s[..|s| - 1], radix);
      (if radix == 10 then high * 10 else high * 16) + DigitValue(s[|s| - 1])
  }

  /** The decimal rendering of a natural number: digits only, no leading zero, and its value is `n`. */
  function NatToString(n: nat): (s: string)
    ensures |s| > 0 && AllDigits(s)
    ensures n > 0 ==> s[0] != '0'
    ensures ValueOf(s, 10) == n
  {
    if n < 10 then [DigitChar(n)]
    else
      var s := NatToString(n / 10) + [DigitChar(n % 10)];
      assert s[..|s| - 1] == NatToString(n / 10);
      s
  }

  /** `${n}` for an integral JavaScript number. */
  function IntToString(n: int): (s: string)
    ensures |s| > 0
    ensures ':' !in s
  {
    if n < 0 then "-" + NatToString(-n) else NatToString(n)
  }

  /** The result of `parseInt`: an integer, or NaN when no digit could be read. */
  datatype JsNumber = Num(value: int) | NaN

  /** The longest prefix of `s` made of decimal digits. */
  function DecimalPrefix(s: string): (r: string)
    ensures r <= s && AllDigits(r)
    ensures |r| < |s| ==> !IsDigit(s[|r|])
    decreases |s|
  {
    if |s| == 0 || !IsDigit(s[0]) then ""
    else [s[0]] + DecimalPrefix(s[1..])
  }

  /** The longest prefix of `s` made of hexadecimal digits. */
  function HexPrefix(s: string): (r: string)
    ensures r <= s && AllHexDigits(r)
    ensures |r| < |s| ==> !IsHexDigit(s[|r|])
    decreases |s|
  {
    if |s| == 0 || !IsHexDigit(s[0]) then ""
    else [s[0]] + HexPrefix(s[1..])
  }

  /**
    `parseInt(s)`: leading whitespace is skipped, then an optional sign, then a
    `0x`/`0X` prefix switches to radix 16; the longest run of digits that follows
    is read, and NaN is returned when that run is empty.
  */
  function ParseInt(s: string): JsNumber {
    var t := TrimStart(s);
    var negative := |t| > 0 && t[0] == '-';
    var u := if |t| > 0 && (t[0] == '-' || t[0] == '+') then t[1..] else t;
    if |u| >= 2 && u[0] == '0' && (u[1] == 'x' || u[1] == 'X') then
      var d := HexPrefix(u[2..]);
      if |d| == 0 then NaN else Num(if negative then -(ValueOf(d, 16) as int) else ValueOf(d, 16))
    else
      var d := DecimalPrefix(u);
      if |d| == 0 then NaN else Num(if negative then -(ValueOf(d, 10) as int) else ValueOf(d, 10))
  }

  /** A string made only of digits is its own longest digit prefix. */
  lemma DecimalPrefixOfDigits(s: string)
    requires AllDigits(s)
    ensures DecimalPrefix(s) == s
  {
  }

  /** `parseInt` reads back every rendered integer: the round trip of `IntToString`. */
  lemma ParseIntOfIntToString(n: int)
    ensures ParseInt(IntToString(n)) == Num(n)
  {
    var m: nat := if n < 0 then -n else n;
    var digits := NatToString(m);
    var s := IntToString(n);
    assert !IsWhitespace(s[0]);
    assert LeadingWhitespace(s) == 0;
    assert TrimStart(s) == s;
    DecimalPrefixOfDigits(digits);
    if n < 0 {
      assert s[1..] == digits;
    }
  }

  /** Rendering is injective: distinct integers have distinct renderings. */
  lemma IntToStringInjective(a: int, b: int)
    requires IntToString(a) == IntToString(b)
    ensures a == b
  {
    ParseIntOfIntToString(a);
    ParseIntOfIntToString(b);
  }

  /** Rendering of naturals is injective. */
  lemma NatToStringInjective(a: nat, b: nat)
    requires NatToString(a) == NatToString(b)
    ensures a == b
  {
  }

  /** A text whose first non-blank character is neither a sign nor a digit parses to NaN. */
  lemma ParseIntNaN(s: string)
    requires |TrimStart(s)| > 0
    requires var c := TrimStart(s)[0]; !IsDigit(c) && c != '-' && c != '+'
    ensures ParseInt(s) == NaN
  {
  }
}
