/**
 * Decimal rendering of integers, as printf's `%d` and `%02d` conversions
 * produce it. The iCalendar writer uses `%d` for the orbit number (in the
 * UID and in the default file name) and `%02d` for the minutes and seconds
 * of a pass's duration.
 */
module Decimal {

  predicate IsDigit(c: char) {
    '0' <= c <= '9'
  }

  predicate AllDigits(s: string) {
    forall i :: 0 <= i < |s| ==> IsDigit(s[i])
  }

  /** The character for one decimal digit. */
  function DigitChar(d: nat): (c: char)
    requires d < 10
    ensures IsDigit(c)
    ensures DigitValue(c) == d
  {
    (('0' as int) + d) as char
  }

  /** The value of one decimal digit character. */
  function DigitValue(c: char): (d: nat)
    requires IsDigit(c)
    ensures d < 10
  {
    (c as int) - ('0' as int)
  }

  /** The number a string of decimal digits denotes, most significant first. */
  function ValueOf(s: string): (v: nat)
    requires AllDigits(s)
  {
    if s == [] then 0 else ValueOf(s[..|s| - 1]) * 10 + DigitValue(s[|s| - 1])
  }

  /** `%d` of a non-negative number: its digits, with no leading zero. */
  function NatDigits(n: nat): (r: string)
    ensures |r| >= 1
    ensures AllDigits(r)
    ensures r[0] == '0' ==> n == 0
    ensures n < 10 <==> |r| == 1
  {
    if n < 10 then [DigitChar(n)] else NatDigits(n / 10) + [DigitChar(n % 10)]
  }

  /** Reading back the digits `%d` prints gives the number printed. */
  lemma {:induction false} ValueOfNatDigits(n: nat)
    ensures ValueOf(NatDigits(n)) == n
  {
    var r := NatDigits(n);
    if n >= 10 {
      ValueOfNatDigits(n / 10);
      assert r[..|r| - 1] == NatDigits(n / 10);
    }
  }

  /** `%d` of a signed number: a minus sign for negatives, then the digits. */
  function IntDecimal(n: int): (r: string)
    ensures forall i :: 0 <= i < |r| ==> IsDigit(r[i]) || (i == 0 && r[i] == '-')
  {
    if n < 0 then "-" + NatDigits(-n) else NatDigits(n)
  }

  /** The inverse of IntDecimal on the strings it produces. */
  function ParseInt(s: string): (r: int)
    requires s != [] && AllDigits(if s[0] == '-' then s[1..] else s)
  {
    if s[0] == '-' then -(ValueOf(s[1..]) as int) else ValueOf(s)
  }

  /** Every `%d` rendering parses back to the number rendered. */
  lemma IntDecimalRoundTrip(n: int)
    ensures var s := IntDecimal(n);
            s != [] && AllDigits(if s[0] == '-' then s[1..] else s) && ParseInt(s) == n
  {
    var s := IntDecimal(n);
    if n < 0 {
      assert s[1..] == NatDigits(-n);
      ValueOfNatDigits(-n);
    } else {
      ValueOfNatDigits(n);
    }
  }

  /** Two different numbers never share a `%d` rendering. */
  lemma IntDecimalInjective(a: int, b: int)
    requires IntDecimal(a) == IntDecimal(b)
    ensures a == b
  {
    IntDecimalRoundTrip(a);
    IntDecimalRoundTrip(b);
  }

  /** `%02d` of a number below one hundred: exactly two digits, zero-padded. */
  function Pad2(n: nat): (r: string)
    requires n < 100
    ensures |r| == 2 && AllDigits(r)
    ensures ValueOf(r) == n
  {
    var r := [DigitChar(n / 10), DigitChar(n % 10)];
    assert r[..1][..0] == [];
    assert ValueOf(r[..1]) == n / 10;
    assert ValueOf(r) == (n / 10) * 10 + n % 10;
    r
  }
}
