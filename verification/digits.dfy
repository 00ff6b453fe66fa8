/**
 * Python's `str()` on an integer, as used by the f-string that embeds an
 * upstream status code into the error reply: an optional minus sign followed
 * by the decimal digits, without leading zeros.
 */
module Digits {

  predicate IsDigit(c: char) {
    '0' <= c <= '9'
  }

  predicate AllDigits(s: string) {
    forall i :: 0 <= i < |s| ==> IsDigit(s[i])
  }

  function DigitChar(d: nat): (c: char)
    requires d < 10
    ensures IsDigit(c)
  {
    ('0' as int + d) as char
  }

  function DigitValue(c: char): (d: nat)
    requires IsDigit(c)
    ensures d < 10
  {
    c as int - '0' as int
  }

  /** The digits of `n`, most significant first. */
  function NatDigits(n: nat): (s: string)
    ensures |s| > 0 && AllDigits(s)
    ensures |s| > 1 ==> s[0] != '0'
    decreases n
  {
    if n < 10 then [DigitChar(n)] else NatDigits(n / 10) + [DigitChar(n % 10)]
  }

  /** `str(n)` for a Python int. */
  function Decimal(n: int): (s: string)
    ensures |s| > 0
    ensures forall i :: 0 <= i < |s| ==> IsDigit(s[i]) || (i == 0 && s[i] == '-')
    ensures s[0] == '-' <==> n < 0
    ensures n >= 0 ==> AllDigits(s) && DigitsValue(s) == n
    ensures n < 0 ==> AllDigits(s[1..]) && DigitsValue(s[1..]) == -n
    ensures n >= 0 && |s| > 1 ==> s[0] != '0'
    ensures n < 0 ==> |s| >= 2 && (|s| > 2 ==> s[1] != '0')
  {
    if n < 0 then
      NatDigitsRoundTrip(-n);
      var digits := NatDigits(-n);
      assert ("-" + digits)[1..] == digits;
      "-" + digits
    else
      NatDigitsRoundTrip(n);
      NatDigits(n)
  }

  /** Reads a string of digits back as a number (the inverse of NatDigits). */
  function DigitsValue(s: string): nat
    requires AllDigits(s)
  {
    if s == [] then 0 else DigitsValue(s[..|s| - 1]) * 10 + DigitValue(s[|s| - 1])
  }

  lemma {:induction false} NatDigitsRoundTrip(n: nat)
    ensures DigitsValue(NatDigits(n)) == n
    decreases n
  {
    var s := NatDigits(n);
    if n >= 10 {
      NatDigitsRoundTrip(n / 10);
      assert s[..|s| - 1] == NatDigits(n / 10);
    }
  }

  /** Distinct integers print differently, so a printed status code identifies the code. */
  lemma DecimalInjective(a: int, b: int)
    ensures Decimal(a) == Decimal(b) ==> a == b
  {
    if Decimal(a) == Decimal(b) {
      if a < 0 {
        assert b < 0;
        assert NatDigits(-a) == Decimal(a)[1..];
        assert NatDigits(-b) == Decimal(b)[1..];
        NatDigitsRoundTrip(-a);
        NatDigitsRoundTrip(-b);
      } else {
        assert b >= 0;
        NatDigitsRoundTrip(a);
        NatDigitsRoundTrip(b);
      }
    }
  }
}
