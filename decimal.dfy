/**
 * Decimal rendering of integers, the behaviour of `QString::number` on `int` and `qint64`
 * arguments: an optional '-' followed by the digits of the magnitude, most significant first,
 * without leading zeros. A parser is given as its inverse.
 */
module Decimal {

  import opened Wrappers

  /** The range of a C++ `int` on the platforms Qt supports. */
  type Int32 = x: int | -0x8000_0000 <= x < 0x8000_0000

  /** The range of `qint64`. */
  type Int64 = x: int | -0x8000_0000_0000_0000 <= x < 0x8000_0000_0000_0000

  predicate IsDigit(c: char) {
    '0' <= c <= '9'
  }

  predicate AllDigits(s: string) {
    forall i :: 0 <= i < |s| ==> IsDigit(s[i])
  }

  /** A non-empty digit string without a leading zero (a lone "0" is allowed). */
  predicate Canonical(s: string) {
    |s| >= 1 && AllDigits(s) && (|s| == 1 || s[0] != '0')
  }

  function DigitChar(d: nat): (c: char)
    requires d < 10
    ensures IsDigit(c)
  {
    ('0' as int + d) as char
  }

  function DigitValue(c: char): (d: nat)
    requires IsDigit(c)
    ensures d < 10 && DigitChar(d) == c
  {
    c as int - '0' as int
  }

  /** The digits of `n`. */
  function NatToString(n: nat): (s: string)
    ensures Canonical(s)
    decreases n
  {
    if n < 10 then [DigitChar(n)] else NatToString(n / 10) + [DigitChar(n % 10)]
  }

  /** `QString::number(n)` for an integer `n`. */
  function IntToString(n: int): (s: string)
    ensures |s| >= 1
    ensures n >= 0 ==> Canonical(s)
    ensures n < 0 ==> s[0] == '-' && Canonical(s[1..])
  {
    if n < 0 then "-" + NatToString(-n) else NatToString(n)
  }

  /** The number a digit string denotes. */
  function DigitsValue(s: string): nat
    requires AllDigits(s)
  {
    if s == [] then 0 else DigitsValue(s[..|s| - 1]) * 10 + DigitValue(s[|s| - 1])
  }

  /** Reads back an integer rendered by IntToString; any other text is refused. */
  function ParseInt(s: string): Option<int> {
    if |s| >= 2 && s[0] == '-' && Canonical(s[1..]) && s[1] != '0' then Some(-(DigitsValue(s[1..]) as int))
    else if Canonical(s) then Some(DigitsValue(s))
    else None
  }

  lemma {:induction false} NatToStringValue(n: nat)
    ensures DigitsValue(NatToString(n)) == n
    decreases n
  {
    var s := NatToString(n);
    if n >= 10 {
      NatToStringValue(n / 10);
      assert s[..|s| - 1] == NatToString(n / 10);
    }
  }

  lemma {:induction false} LeadingDigitPositive(s: string)
    requires |s| >= 1 && AllDigits(s) && s[0] != '0'
    ensures DigitsValue(s) > 0
    decreases |s|
  {
    if |s| > 1 {
      LeadingDigitPositive(s[..|s| - 1]);
    }
  }

  lemma {:induction false} ValueToNatString(s: string)
    requires Canonical(s)
    ensures NatToString(DigitsValue(s)) == s
    decreases |s|
  {
    if |s| > 1 {
      var t := s[..|s| - 1];
      LeadingDigitPositive(t);
      ValueToNatString(t);
      assert s == t + [s[|s| - 1]];
    }
  }

  /** The first char of a non-zero magnitude is never '0'. */
  lemma NatToStringNonZeroLead(n: nat)
    requires n > 0
    ensures NatToString(n)[0] != '0'
  {
    if 0 < n < 10 {
      assert NatToString(n)[0] == DigitChar(n);
    }
  }

  /** Reading back the rendering of any integer gives that integer. */
  lemma IntToStringRoundTrip(n: int)
    ensures ParseInt(IntToString(n)) == Some(n)
  {
    NatToStringValue(if n < 0 then -n else n);
    if n < 0 {
      var s := IntToString(n);
      assert s[1..] == NatToString(-n);
      NatToStringNonZeroLead(-n);
    }
  }

  /** Any text the parser accepts is the rendering of the number it yields. */
  lemma ParseIntRendersBack(s: string)
    requires ParseInt(s).Some?
    ensures IntToString(ParseInt(s).value) == s
  {
    if |s| >= 2 && s[0] == '-' && Canonical(s[1..]) && s[1] != '0' {
      LeadingDigitPositive(s[1..]);
      ValueToNatString(s[1..]);
      assert s == "-" + s[1..];
    } else {
      ValueToNatString(s);
    }
  }

  /** Distinct integers have distinct renderings. */
  lemma IntToStringInjective(a: int, b: int)
    requires IntToString(a) == IntToString(b)
    ensures a == b
  {
    IntToStringRoundTrip(a);
    IntToStringRoundTrip(b);
  }

  /** A rendering holds digits and, at most, a leading '-'. */
  lemma IntToStringChars(n: int, i: int)
    requires 0 <= i < |IntToString(n)|
    ensures IsDigit(IntToString(n)[i]) || (i == 0 && n < 0 && IntToString(n)[i] == '-')
  {
  }
}
