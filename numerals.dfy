/** The integer conversions the connectors rely on: Python's `int(s)`, `int(s, 16)` and `str(n)`. */
module Numerals {
  import opened Wrappers

  predicate IsDigit(c: char) {
    '0' <= c <= '9'
  }

  predicate AllDigits(s: string) {
    forall i | 0 <= i < |s| :: IsDigit(s[i])
  }

  /** The value of a string of decimal digits, most significant first. */
  function DigitsValue(s: string): nat
    requires AllDigits(s)
  {
    if s == [] then 0 else DigitsValue(s[..|s| - 1]) * 10 + (s[|s| - 1] as int - '0' as int)
  }

  /** `int(s)` for a string: one or more decimal digits, otherwise a ValueError (None). */
  function ParseDecimal(s: string): Option<nat> {
    if s != [] && AllDigits(s) then Some(DigitsValue(s)) else None
  }

  function DigitChar(d: nat): (c: char)
    requires d < 10
    ensures IsDigit(c) && c as int - '0' as int == d
  {
    ('0' as int + d) as char
  }

  /** `str(n)` for a non-negative integer: its decimal digits, with no leading zero. */
  function DecimalString(n: nat): (s: string)
    ensures s != [] && AllDigits(s)
    ensures s[0] == '0' <==> n == 0
  {
    if n < 10 then [DigitChar(n)] else DecimalString(n / 10) + [DigitChar(n % 10)]
  }

  lemma {:induction false} DigitsOfDecimalString(n: nat)
    ensures DigitsValue(DecimalString(n)) == n
  {
    if n >= 10 {
      var s := DecimalString(n);
      assert s[..|s| - 1] == DecimalString(n / 10);
      DigitsOfDecimalString(n / 10);
    }
  }

  /** `int(str(n)) == n`: rendering a block number in decimal loses nothing. */
  lemma DecimalRoundTrip(n: nat)
    ensures ParseDecimal(DecimalString(n)) == Some(n)
  {
    DigitsOfDecimalString(n);
  }

  /** A string `int()` accepts in canonical form (no leading zero) is what `str()` gives back. */
  lemma {:induction false} DecimalStringOfDigits(s: string)
    requires s != [] && AllDigits(s) && (|s| > 1 ==> s[0] != '0')
    ensures DecimalString(DigitsValue(s)) == s
  {
    if |s| > 1 {
      var init := s[..|s| - 1];
      assert init[0] == s[0];
      DecimalStringOfDigits(init);
      var n := DigitsValue(s);
      var d := s[|s| - 1] as int - '0' as int;
      assert n == DigitsValue(init) * 10 + d;
      assert DigitsValue(init) > 0;
      assert n / 10 == DigitsValue(init) && n % 10 == d;
      assert DecimalString(n) == DecimalString(n / 10) + [DigitChar(n % 10)];
      assert DigitChar(d) == s[|s| - 1];
      assert s == init + [s[|s| - 1]];
    }
  }

  /** A decimal numeral as `str()` writes one: digits, and no leading zero unless it is "0". */
  predicate Canonical(s: string) {
    s != [] && AllDigits(s) && (|s| > 1 ==> s[0] != '0')
  }

  /** A number has exactly one canonical decimal numeral, and it is `str(n)`. */
  lemma CanonicalNumeralIsDecimalString(s: string, n: nat)
    requires Canonical(s) && ParseDecimal(s) == Some(n)
    ensures s == DecimalString(n)
  {
    DecimalStringOfDigits(s);
  }

  predicate IsHexDigit(c: char) {
    '0' <= c <= '9' || 'a' <= c <= 'f' || 'A' <= c <= 'F'
  }

  predicate AllHexDigits(s: string) {
    forall i | 0 <= i < |s| :: IsHexDigit(s[i])
  }

  function HexDigitValue(c: char): (d: nat)
    requires IsHexDigit(c)
    ensures d < 16
  {
    if '0' <= c <= '9' then c as int - '0' as int
    else if 'a' <= c <= 'f' then c as int - 'a' as int + 10
    else c as int - 'A' as int + 10
  }

  function HexDigitsValue(s: string): nat
    requires AllHexDigits(s)
  {
    if s == [] then 0 else HexDigitsValue(s[..|s| - 1]) * 16 + HexDigitValue(s[|s| - 1])
  }

  /** The digits of a base-16 literal: `int(s, 16)` accepts an optional `0x`/`0X` prefix. */
  function HexBody(s: string): string {
    if |s| >= 2 && s[0] == '0' && (s[1] == 'x' || s[1] == 'X') then s[2..] else s
  }

  /** `int(s, 16)`: one or more hex digits after an optional prefix, otherwise a ValueError (None). */
  function ParseHex(s: string): (r: Option<nat>)
    ensures r.Some? <==> HexBody(s) != [] && AllHexDigits(HexBody(s))
  {
    var body := HexBody(s);
    if body != [] && AllHexDigits(body) then Some(HexDigitsValue(body)) else None
  }
}
