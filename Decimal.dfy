/** Decimal text of integers, as Java's Integer.toString produces it:
    an optional '-' followed by the digits of the magnitude, no leading zeros. */
module Decimal {

  predicate IsDigit(c: char) {
    '0' <= c <= '9'
  }

  predicate AllDigits(s: string) {
    forall i :: 0 <= i < |s| ==> IsDigit(s[i])
  }

  /** True when `s` is empty or does not begin with a digit: the text that may
      follow a number without being read as part of it. */
  predicate StartsWithNonDigit(s: string) {
    s == [] || !IsDigit(s[0])
  }

  function DigitChar(d: nat): (c: char)
    requires d < 10
    ensures IsDigit(c) && DigitValue(c) == d
  {
    ('0' as int + d) as char
  }

  function DigitValue(c: char): nat
    requires IsDigit(c)
  {
    c as int - '0' as int
  }

  /** The decimal numeral of `n`: never empty, only digits, and a leading zero
      only for zero itself. */
  function NatToString(n: nat): (s: string)
    ensures |s| > 0 && AllDigits(s)
    ensures s[0] == '0' <==> n == 0
    ensures n < 10 <==> |s| == 1
  {
    if n < 10 then [DigitChar(n)] else NatToString(n / 10) + [DigitChar(n % 10)]
  }

  /** The value of a numeral, read left to right. */
  function DigitsValue(s: string): nat
    requires AllDigits(s)
  {
    if s == [] then 0 else DigitsValue(s[..|s| - 1]) * 10 + DigitValue(s[|s| - 1])
  }

  /** Java's Integer.toString: a '-' exactly for negative values, then the magnitude. */
  function IntToString(i: int): (s: string)
    ensures |s| > 0
    ensures s[0] == '-' <==> i < 0
    ensures i < 0 ==> s == "-" + NatToString(-i)
    ensures i >= 0 ==> s == NatToString(i)
  {
    if i < 0 then "-" + NatToString(-i) else NatToString(i)
  }

  /** Reading the numeral back gives the number. */
  lemma {:induction false} NatToStringRoundTrip(n: nat)
    ensures DigitsValue(NatToString(n)) == n
  {
    var s := NatToString(n);
    if n >= 10 {
      NatToStringRoundTrip(n / 10);
      assert s[..|s| - 1] == NatToString(n / 10);
    }
  }

  /** A numeral with an optional leading '-'. */
  predicate IsIntNumeral(s: string) {
    if s != [] && s[0] == '-' then AllDigits(s[1..]) else AllDigits(s)
  }

  /** The value of a signed numeral. */
  function IntValue(s: string): int
    requires IsIntNumeral(s)
  {
    if s != [] && s[0] == '-' then -(DigitsValue(s[1..]) as int) else DigitsValue(s)
  }

  /** Reading the printed int back gives the int, negative ones included. */
  lemma IntToStringRoundTrip(i: int)
    ensures IsIntNumeral(IntToString(i)) && IntValue(IntToString(i)) == i
  {
    var s := IntToString(i);
    if i < 0 {
      assert s[1..] == NatToString(-i);
      NatToStringRoundTrip(-i);
    } else {
      NatToStringRoundTrip(i);
    }
  }

  lemma NatToStringInjective(m: nat, n: nat)
    requires NatToString(m) == NatToString(n)
    ensures m == n
  {
    NatToStringRoundTrip(m);
    NatToStringRoundTrip(n);
  }

  /** The number of digits at the front of `s`. */
  function LeadingDigits(s: string): nat
  {
    if s != [] && IsDigit(s[0]) then 1 + LeadingDigits(s[1..]) else 0
  }

  lemma {:induction false} LeadingDigitsOfNumeral(d: string, s: string)
    requires AllDigits(d) && StartsWithNonDigit(s)
    ensures LeadingDigits(d + s) == |d|
  {
    if d == [] {
      assert d + s == s;
    } else {
      LeadingDigitsOfNumeral(d[1..], s);
      assert (d + s)[1..] == d[1..] + s;
    }
  }

  /** A run of digits followed by text that starts with a non-digit splits in
      exactly one way. */
  lemma DigitsSplitUnique(d1: string, s1: string, d2: string, s2: string)
    requires AllDigits(d1) && AllDigits(d2)
    requires StartsWithNonDigit(s1) && StartsWithNonDigit(s2)
    requires d1 + s1 == d2 + s2
    ensures d1 == d2 && s1 == s2
  {
    LeadingDigitsOfNumeral(d1, s1);
    LeadingDigitsOfNumeral(d2, s2);
    assert d1 == (d1 + s1)[..|d1|];
    assert d2 == (d2 + s2)[..|d2|];
    assert s1 == (d1 + s1)[|d1|..];
    assert s2 == (d2 + s2)[|d2|..];
  }

  /** A Java int printed in front of text that starts with a non-digit can be
      read back: both the number and the rest are determined. */
  lemma IntToStringPrefixUnique(i: int, s1: string, j: int, s2: string)
    requires StartsWithNonDigit(s1) && StartsWithNonDigit(s2)
    requires IntToString(i) + s1 == IntToString(j) + s2
    ensures i == j && s1 == s2
  {
    var a, b := IntToString(i), IntToString(j);
    assert (a + s1)[0] == a[0];
    assert (b + s2)[0] == b[0];
    assert i < 0 <==> j < 0;
    if i < 0 {
      var ma, mb := NatToString(-i), NatToString(-j);
      assert ma + s1 == (a + s1)[1..];
      assert mb + s2 == (b + s2)[1..];
      DigitsSplitUnique(ma, s1, mb, s2);
      NatToStringInjective(-i, -j);
    } else {
      DigitsSplitUnique(a, s1, b, s2);
      NatToStringInjective(i, j);
    }
  }
}
