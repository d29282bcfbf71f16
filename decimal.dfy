/** Decimal text of integers, as Python's str() writes an int: an optional
    leading '-', then the digits of the magnitude without leading zeros.
    ParseInt reads that text back; the two are inverse bijections between
    the integers and the canonical decimal strings. */
module Decimal {

  predicate IsDigit(c: char) {
    '0' <= c <= '9'
  }

  function DigitValue(c: char): (d: nat)
    requires IsDigit(c)
    ensures d < 10
  {
    (c as int) - ('0' as int)
  }

  function DigitChar(d: nat): (c: char)
    requires d < 10
    ensures IsDigit(c) && DigitValue(c) == d
  {
    (('0' as int) + d) as char
  }

  predicate AllDigits(s: string) {
    forall i :: 0 <= i < |s| ==> IsDigit(s[i])
  }

  /** Non-empty digits, and a leading '0' only for "0" itself. */
  predicate IsCanonicalNat(s: string) {
    |s| > 0 && AllDigits(s) && (s[0] == '0' ==> |s| == 1)
  }

  /** A canonical natural, or '-' followed by a canonical natural other than "0". */
  predicate IsCanonicalInt(s: string) {
    IsCanonicalNat(s) || (|s| > 1 && s[0] == '-' && IsCanonicalNat(s[1..]) && s[1..] != "0")
  }

  /** The decimal digits of n, most significant first. */
  function NatToString(n: nat): (s: string)
    ensures IsCanonicalNat(s)
    ensures s[0] == '0' <==> n == 0
    decreases n
  {
    if n < 10 then [DigitChar(n)] else NatToString(n / 10) + [DigitChar(n % 10)]
  }

  /** str(n) for a Python int n. */
  function IntToString(n: int): (s: string)
    ensures IsCanonicalInt(s)
    ensures s[0] == '-' <==> n < 0
  {
    if n < 0 then "-" + NatToString(-n) else NatToString(n)
  }

  /** The value of a string of digits (the empty string reads as 0). */
  function ParseNat(s: string): (n: nat)
    requires AllDigits(s)
  {
    if s == [] then 0 else ParseNat(s[..|s| - 1]) * 10 + DigitValue(s[|s| - 1])
  }

  /** int(s) for canonical decimal text s. */
  function ParseInt(s: string): (n: int)
    requires IsCanonicalInt(s)
  {
    if s[0] == '-' then -(ParseNat(s[1..]) as int) else ParseNat(s)
  }

  lemma {:induction false} ParseNatToString(n: nat)
    ensures ParseNat(NatToString(n)) == n
    decreases n
  {
    if n >= 10 {
      ParseNatToString(n / 10);
      var s := NatToString(n);
      assert s[..|s| - 1] == NatToString(n / 10);
    }
  }

  /** Reading str(n) back gives n. */
  lemma ParseIntToString(n: int)
    ensures ParseInt(IntToString(n)) == n
  {
    if n < 0 {
      ParseNatToString(-n);
      var s := IntToString(n);
      assert s[1..] == NatToString(-n);
    } else {
      ParseNatToString(n);
    }
  }

  lemma {:induction false} ParseNatPositive(s: string)
    requires AllDigits(s) && |s| > 0 && s[0] != '0'
    ensures ParseNat(s) > 0
    decreases |s|
  {
    if |s| > 1 {
      ParseNatPositive(s[..|s| - 1]);
    }
  }

  lemma {:induction false} NatToStringOfParse(s: string)
    requires IsCanonicalNat(s)
    ensures NatToString(ParseNat(s)) == s
    decreases |s|
  {
    var last := s[|s| - 1];
    if |s| == 1 {
      assert DigitChar(DigitValue(last)) == last;
    } else {
      var t := s[..|s| - 1];
      NatToStringOfParse(t);
      ParseNatPositive(t);
      var n := ParseNat(s);
      assert n / 10 == ParseNat(t) && n % 10 == DigitValue(last);
      assert DigitChar(DigitValue(last)) == last;
      assert s == t + [last];
    }
  }

  /** Every canonical decimal string is str() of the integer it denotes. */
  lemma IntToStringOfParse(s: string)
    requires IsCanonicalInt(s)
    ensures IntToString(ParseInt(s)) == s
  {
    if s[0] == '-' {
      var t := s[1..];
      NatToStringOfParse(t);
      ParseNatPositive(t);
      assert s == "-" + t;
    } else {
      NatToStringOfParse(s);
    }
  }

  /** Distinct integers have distinct decimal text. */
  lemma IntToStringInjective(a: int, b: int)
    ensures IntToString(a) == IntToString(b) <==> a == b
  {
    if IntToString(a) == IntToString(b) {
      ParseIntToString(a);
      ParseIntToString(b);
    }
  }
}
