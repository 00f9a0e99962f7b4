/**
 * Decimal rendering of a Kotlin `Int` inside a string template (`"$code"`),
 * and its inverse, used to show that an error message still names its status code.
 */
module Decimal {
  import opened Wrappers

  predicate IsDigit(c: char) {
    '0' <= c <= '9'
  }

  predicate AllDigits(s: string) {
    forall i :: 0 <= i < |s| ==> IsDigit(s[i])
  }

  function DigitValue(c: char): (d: nat)
    requires IsDigit(c)
    ensures d < 10
  {
    (c as int) - ('0' as int)
  }

  function DigitChar(d: nat): (c: char)
    requires d < 10
    ensures IsDigit(c) && DigitValue(c) == d
  {
    (('0' as int) + d) as char
  }

  /**
   * Decimal numeral of `n`, most significant digit first, no leading zeros:
   * it starts with '0' only when it is the numeral of zero, which is "0".
   */
  function NatToString(n: nat): (s: string)
    ensures s != [] && AllDigits(s)
    ensures s[0] == '0' <==> n == 0
    ensures |s| == 1 <==> n < 10
    decreases n
  {
    if n < 10 then [DigitChar(n)] else NatToString(n / 10) + [DigitChar(n % 10)]
  }

  /**
   * `Int.toString()`: canonical decimal. A minus sign exactly for negative
   * numbers, then digits with no leading zero; zero is "0" and there is no "-0".
   */
  function IntToString(n: int): (s: string)
    ensures s != [] && ')' !in s
    ensures s[0] == '-' <==> n < 0
    ensures n < 0 ==> |s| > 1 && AllDigits(s[1..]) && s[1] != '0'
    ensures n >= 0 ==> AllDigits(s) && (s[0] == '0' <==> s == "0")
  {
    if n < 0 then "-" + NatToString(-n) else NatToString(n)
  }

  /** Value of a string of digits, read most significant digit first. */
  function DigitsValue(s: string): nat
    requires AllDigits(s)
    decreases |s|
  {
    if s == [] then 0 else DigitsValue(s[..|s| - 1]) * 10 + DigitValue(s[|s| - 1])
  }

  /** Reads back an optionally signed decimal numeral; None for anything else. */
  function ParseInt(s: string): Option<int> {
    if |s| > 1 && s[0] == '-' && AllDigits(s[1..]) then Some(-(DigitsValue(s[1..]) as int))
    else if s != [] && AllDigits(s) then Some(DigitsValue(s))
    else None
  }

  lemma {:induction false} NatToStringRoundTrip(n: nat)
    ensures DigitsValue(NatToString(n)) == n
    decreases n
  {
    if n >= 10 {
      NatToStringRoundTrip(n / 10);
      var s := NatToString(n);
      assert s[..|s| - 1] == NatToString(n / 10);
    }
  }

  /** Reading back the rendering of any `Int` gives that `Int`. */
  lemma IntToStringRoundTrip(n: int)
    ensures ParseInt(IntToString(n)) == Some(n)
  {
    if n < 0 { NegativeRoundTrip(n); } else { NonNegativeRoundTrip(n); }
  }

  /** The round trip for a negative number: a minus sign, then its magnitude. */
  lemma NegativeRoundTrip(n: int)
    requires n < 0
    ensures ParseInt(IntToString(n)) == Some(n)
  {
    var digits := NatToString(-n);
    NatToStringRoundTrip(-n);
    var s := "-" + digits;
    assert s == IntToString(n);
    assert s[1..] == digits;
  }

  /** The round trip for zero and positive numbers: digits only. */
  lemma NonNegativeRoundTrip(n: int)
    requires n >= 0
    ensures ParseInt(IntToString(n)) == Some(n)
  {
    NatToStringRoundTrip(n);
    var s := NatToString(n);
    assert s == IntToString(n);
    assert s[0] != '-';
  }
}
