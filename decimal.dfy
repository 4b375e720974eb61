/** Decimal rendering of whole numbers, as used for the choice labels of the
    parameter layout, and the matching reader used to state what a label denotes. */
module Decimal {

  predicate IsDigit(c: char)
  {
    '0' <= c <= '9'
  }

  predicate IsDigits(s: string)
  {
    |s| >= 1 && forall i :: 0 <= i < |s| ==> IsDigit(s[i])
  }

  function DigitChar(d: nat): char
    requires d < 10
  {
    "0123456789"[d]
  }

  function DigitValue(c: char): nat
    requires IsDigit(c)
  {
    (c as int - '0' as int) as nat
  }

  /** The decimal digits of `n`, most significant first, without leading zeros. */
  function NatToString(n: nat): (s: string)
    decreases n
  {
    if n < 10 then [DigitChar(n)] else NatToString(n / 10) + [DigitChar(n % 10)]
  }

  /** The value of a run of decimal digits. */
  function ParseNat(s: string): nat
    requires IsDigits(s)
    decreases |s|
  {
    if |s| == 1 then DigitValue(s[0])
    else ParseNat(s[..|s| - 1]) * 10 + DigitValue(s[|s| - 1])
  }

  lemma DigitRoundTrip(d: nat)
    requires d < 10
    ensures IsDigit(DigitChar(d)) && DigitValue(DigitChar(d)) == d
  {
  }

  /** Reading back the rendering of `n` gives `n`. */
  lemma {:induction false} NatRoundTrip(n: nat)
    ensures IsDigits(NatToString(n))
    ensures ParseNat(NatToString(n)) == n
    decreases n
  {
    DigitRoundTrip(n % 10);
    if n >= 10 {
      NatRoundTrip(n / 10);
      var s := NatToString(n);
      assert s[..|s| - 1] == NatToString(n / 10);
    }
  }

  /** A value held in tenths, rendered with exactly one decimal place, as
      `juce::String (value, 1)` renders it: "1.5", "50.0". */
  function OneDecimal(tenths: nat): string
  {
    NatToString(tenths / 10) + "." + [DigitChar(tenths % 10)]
  }

  predicate IsOneDecimal(s: string)
  {
    |s| >= 3 && s[|s| - 2] == '.' && IsDigits(s[..|s| - 2]) && IsDigit(s[|s| - 1])
  }

  /** The value, in tenths, of a one-decimal rendering. */
  function ParseOneDecimal(s: string): nat
    requires IsOneDecimal(s)
  {
    ParseNat(s[..|s| - 2]) * 10 + DigitValue(s[|s| - 1])
  }

  /** A one-decimal label reads back as the value it was made from. */
  lemma OneDecimalRoundTrip(tenths: nat)
    ensures IsOneDecimal(OneDecimal(tenths))
    ensures ParseOneDecimal(OneDecimal(tenths)) == tenths
  {
    var s := OneDecimal(tenths);
    NatRoundTrip(tenths / 10);
    DigitRoundTrip(tenths % 10);
    assert s[..|s| - 2] == NatToString(tenths / 10);
  }
  /** A whole number as `juce::String` writes it: a minus sign before the
      digits of a negative value, no sign otherwise. */
  function IntToString(i: int): string
  {
    if i < 0 then "-" + NatToString(-i) else NatToString(i)
  }

  predicate IsIntText(s: string)
  {
    IsDigits(s) || (|s| >= 2 && s[0] == '-' && IsDigits(s[1..]))
  }

  /** The value of an optionally signed run of decimal digits. */
  function ParseInt(s: string): int
    requires IsIntText(s)
  {
    if IsDigits(s) then ParseNat(s) else -(ParseNat(s[1..]) as int)
  }

  /** Reading back the rendering of `i` gives `i`. */
  lemma IntRoundTrip(i: int)
    ensures IsIntText(IntToString(i))
    ensures ParseInt(IntToString(i)) == i
  {
    if i < 0 {
      var digits := NatToString(-i);
      NatRoundTrip(-i);
      var s := "-" + digits;
      assert IntToString(i) == s;
      assert s[1..] == digits;
      assert !IsDigit(s[0]);
    } else {
      NatRoundTrip(i);
    }
  }
}
