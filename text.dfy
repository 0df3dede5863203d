/** Character and string helpers shared by the models: ASCII case mapping,
    decimal rendering of integers (Java string concatenation, JavaScript
    `toString`) and decimal parsing (Java's `Integer.parseInt`). */
module Text {
  import opened Wrappers

  /** Java's `toLowerCase`, restricted to the ASCII letters. */
  function LowerChar(c: char): char {
    if 'A' <= c <= 'Z' then (c as int + 32) as char else c
  }

  /** Java's `toUpperCase`, restricted to the ASCII letters. */
  function UpperChar(c: char): char {
    if 'a' <= c <= 'z' then (c as int - 32) as char else c
  }

  /** `String.toLowerCase()` on ASCII text. */
  function Lower(s: string): (r: string)
    ensures |r| == |s|
    ensures forall i :: 0 <= i < |s| ==> r[i] == LowerChar(s[i])
  {
    seq(|s|, i requires 0 <= i < |s| => LowerChar(s[i]))
  }

  predicate IsDigit(c: char) {
    '0' <= c <= '9'
  }

  predicate AllDigits(s: string) {
    forall i :: 0 <= i < |s| ==> IsDigit(s[i])
  }

  function DigitChar(d: nat): (c: char)
    requires d < 10
    ensures IsDigit(c)
  {
    ('0' as int + d) as char
  }

  function DigitValue(c: char): nat
    requires IsDigit(c)
  {
    c as int - '0' as int
  }

  /** The value of a string of decimal digits (leading zeros allowed). */
  function DigitsValue(s: string): nat
    requires AllDigits(s)
  {
    if s == [] then 0 else DigitsValue(s[..|s| - 1]) * 10 + DigitValue(s[|s| - 1])
  }

  /** The decimal digits of `n`, without leading zeros. */
  function DecimalString(n: nat): (r: string)
    ensures |r| >= 1 && AllDigits(r)
    ensures n < 10 <==> |r| == 1
    ensures n < 100 <==> |r| <= 2
  {
    if n < 10 then [DigitChar(n)] else DecimalString(n / 10) + [DigitChar(n % 10)]
  }

  /** Rendering an integer in decimal and reading it back gives the integer:
      the digit string is a faithful encoding. */
  lemma {:induction false} DecimalStringValue(n: nat)
    ensures DigitsValue(DecimalString(n)) == n
  {
    var r := DecimalString(n);
    if n >= 10 {
      DecimalStringValue(n / 10);
      assert r[..|r| - 1] == DecimalString(n / 10);
    }
  }

  /** The decimal form has no leading zero, except for zero itself. */
  lemma {:induction false} DecimalStringCanonical(n: nat)
    ensures DecimalString(n)[0] == '0' <==> n == 0
  {
    if n >= 10 {
      DecimalStringCanonical(n / 10);
    }
  }

  /** Decimal text of an integer: a minus sign before the digits of a
      negative number, as Java string concatenation and JavaScript's
      `toString` write it. */
  function IntString(i: int): string {
    if i < 0 then "-" + DecimalString(-i) else DecimalString(i)
  }

  /** An optionally signed decimal number, with no range limit: an optional
      '+' or '-' followed by at least one ASCII digit. */
  function ParseSigned(s: string): (r: Option<int>)
    ensures r.Some? ==> |s| >= 1
  {
    if |s| >= 1 && (s[0] == '-' || s[0] == '+') then
      var digits := s[1..];
      if |digits| >= 1 && AllDigits(digits) then
        var magnitude: int := DigitsValue(digits);
        Some(if s[0] == '-' then -magnitude else magnitude)
      else None
    else if |s| >= 1 && AllDigits(s) then Some(DigitsValue(s))
    else None
  }

  const IntMin: int := -0x8000_0000
  const IntMax: int := 0x7fff_ffff

  /** Java's `Integer.parseInt` on ASCII text: a signed decimal number that
      fits in 32 bits, or `None` where Java throws NumberFormatException. */
  function ParseInt(s: string): (r: Option<int>)
    ensures r.Some? ==> IntMin <= r.value <= IntMax
  {
    match ParseSigned(s)
    case Some(v) => if IntMin <= v <= IntMax then Some(v) else None
    case None => None
  }

  /** A non-empty digit string parses to its value. */
  lemma DigitsParse(d: string)
    requires |d| >= 1 && AllDigits(d)
    ensures ParseSigned(d) == Some(DigitsValue(d))
  {
    assert IsDigit(d[0]);
  }

  /** A sign followed by a non-empty digit string parses to the signed value. */
  lemma SignedDigitsParse(sign: char, d: string)
    requires sign == '-' || sign == '+'
    requires |d| >= 1 && AllDigits(d)
    ensures ParseSigned([sign] + d) == Some(if sign == '-' then -(DigitsValue(d) as int) else DigitsValue(d))
  {
    assert ([sign] + d)[1..] == d;
  }

  /** Every integer, written in decimal, parses back to itself. */
  lemma IntStringParses(i: int)
    ensures ParseSigned(IntString(i)) == Some(i)
  {
    if i < 0 {
      var d := DecimalString(-i);
      DecimalStringValue(-i);
      SignedDigitsParse('-', d);
      assert IntString(i) == ['-'] + d;
      assert -(DigitsValue(d) as int) == i;
    } else {
      DecimalStringValue(i);
      DigitsParse(DecimalString(i));
      assert IntString(i) == DecimalString(i);
    }
  }

  /** A '+' sign in front of the digits of a positive number parses back too
      (the form a positive HP-change floater takes). */
  lemma PlusStringParses(n: nat)
    ensures ParseSigned("+" + DecimalString(n)) == Some(n)
  {
    DecimalStringValue(n);
    SignedDigitsParse('+', DecimalString(n));
  }

  /** `Integer.parseInt` accepts every 32-bit integer as Java prints it. */
  lemma ParseIntRoundTrip(i: int)
    requires IntMin <= i <= IntMax
    ensures ParseInt(IntString(i)) == Some(i)
  {
    IntStringParses(i);
  }
}
