/**
  Decimal rendering of integers, as a JavaScript template literal `${n}` prints
  an integral Number of magnitude below 10^21 (larger ones switch to exponent
  form, which is not modelled), together with the parser that undoes it. The order
  handlers use the renderer to build the "title xN" product descriptions.
 */
module Numerals {

  predicate IsDigit(c: char) {
    '0' <= c <= '9'
  }

  predicate AllDigits(s: string) {
    forall i :: 0 <= i < |s| ==> IsDigit(s[i])
  }

  /** A canonical decimal numeral: non-empty digits and no leading zero unless it is "0". */
  predicate IsNatNumeral(s: string) {
    && |s| >= 1
    && AllDigits(s)
    && (|s| > 1 ==> s[0] != '0')
  }

  /** A canonical numeral for an integer: a natural numeral, or "-" before a non-zero one. */
  predicate IsIntNumeral(s: string) {
    || IsNatNumeral(s)
    || (|s| >= 2 && s[0] == '-' && IsNatNumeral(s[1..]) && s[1] != '0')
  }

  function DigitChar(d: nat): (c: char)
    requires d < 10
    ensures IsDigit(c)
  {
    ('0' as int + d) as char
  }

  function DigitValue(c: char): (d: nat)
    requires IsDigit(c)
    ensures d < 10
    ensures DigitChar(d) == c
  {
    c as int - '0' as int
  }

  /** The shortest decimal numeral for `n`, most significant digit first. */
  function NatToString(n: nat): (s: string)
    ensures IsNatNumeral(s)
    ensures n < 10 <==> |s| == 1
    decreases n
  {
    if n < 10 then [DigitChar(n)]
    else
      var prefix := NatToString(n / 10);
      prefix + [DigitChar(n % 10)]
  }

  /** The value of a string of decimal digits (the empty string reads as 0). */
  function ParseDigits(s: string): nat
    requires AllDigits(s)
    decreases |s|
  {
    if |s| == 0 then 0
    else 10 * ParseDigits(s[..|s| - 1]) + DigitValue(s[|s| - 1])
  }

  /** How JavaScript renders an integral Number: a "-" sign for negative values. */
  function IntToString(i: int): (s: string)
    ensures IsIntNumeral(s)
    ensures i < 0 <==> s[0] == '-'
  {
    if i < 0 then "-" + NatToString(-i) else NatToString(i)
  }

  function ParseInt(s: string): int
    requires IsIntNumeral(s)
  {
    if s[0] == '-' then 0 - ParseDigits(s[1..]) else ParseDigits(s)
  }

  lemma {:induction false} ParseNatToString(n: nat)
    ensures ParseDigits(NatToString(n)) == n
    decreases n
  {
    if n >= 10 {
      var s := NatToString(n);
      assert s[..|s| - 1] == NatToString(n / 10);
      ParseNatToString(n / 10);
    }
  }

  /** A digit string whose first character is not '0' reads as at least 1. */
  lemma {:induction false} ParseDigitsPositive(s: string)
    requires AllDigits(s)
    requires |s| >= 1 && s[0] != '0'
    ensures ParseDigits(s) >= 1
    decreases |s|
  {
    if |s| > 1 {
      ParseDigitsPositive(s[..|s| - 1]);
    }
  }

  lemma {:induction false} NatToStringOfParse(s: string)
    requires IsNatNumeral(s)
    ensures NatToString(ParseDigits(s)) == s
    decreases |s|
  {
    if |s| > 1 {
      var prefix := s[..|s| - 1];
      assert IsNatNumeral(prefix);
      ParseDigitsPositive(prefix);
      NatToStringOfParse(prefix);
      var n := ParseDigits(s);
      assert n / 10 == ParseDigits(prefix) && n % 10 == DigitValue(s[|s| - 1]);
      assert s == prefix + [s[|s| - 1]];
    }
  }

  /** Rendering then parsing gives the integer back. */
  lemma IntToStringRoundTrip(i: int)
    ensures ParseInt(IntToString(i)) == i
  {
    if i < 0 {
      assert IntToString(i)[1..] == NatToString(-i);
      ParseNatToString(-i);
    } else {
      ParseNatToString(i);
    }
  }

  /** Every canonical integer numeral is the rendering of the integer it denotes. */
  lemma ParseIntRoundTrip(s: string)
    requires IsIntNumeral(s)
    ensures IntToString(ParseInt(s)) == s
  {
    if s[0] == '-' {
      var t := s[1..];
      NatToStringOfParse(t);
      ParseDigitsPositive(t);
      assert s == "-" + t;
    } else {
      NatToStringOfParse(s);
    }
  }

  /** Distinct integers render to distinct strings. */
  lemma IntToStringInjective(i: int, j: int)
    requires IntToString(i) == IntToString(j)
    ensures i == j
  {
    IntToStringRoundTrip(i);
    IntToStringRoundTrip(j);
  }
}
