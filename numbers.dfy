/**
 * Java's fixed-width integer types, and the decimal parsing that
 * `Integer.valueOf(String)` performs on the `port` property.
 */
module Numbers {
  import opened Wrappers

  const MinInt32: int := -0x8000_0000
  const MaxInt32: int := 0x7fff_ffff

  /** Java `byte` (signed). */
  newtype int8 = x: int | -0x80 <= x < 0x80
  /** Java `int`. */
  newtype int32 = x: int | -0x8000_0000 <= x < 0x8000_0000
  /** Java `long`. */
  newtype int64 = x: int | -0x8000_0000_0000_0000 <= x < 0x8000_0000_0000_0000

  predicate IsDigit(c: char) { '0' <= c <= '9' }

  predicate AllDigits(s: string) {
    forall i :: 0 <= i < |s| ==> IsDigit(s[i])
  }

  function DigitValue(c: char): (d: nat)
    requires IsDigit(c)
    ensures d < 10
  {
    (c as int) - ('0' as int)
  }

  function DigitChar(d: nat): (c: char)
    requires d < 10
    ensures IsDigit(c) && DigitValue(c) == d
  {
    (('0' as int) + d) as char
  }

  /** The value of a string of decimal digits, most significant digit first. */
  function DigitsValue(s: string): nat
    requires AllDigits(s)
  {
    if s == [] then 0 else DigitsValue(s[..|s| - 1]) * 10 + DigitValue(s[|s| - 1])
  }

  /**
   * `Integer.valueOf(s)`: an optional leading '-' or '+', then at least one
   * decimal digit, and a value that fits in a Java `int`; anything else is a
   * `NumberFormatException`, here `None`.
   */
  function ParseInt(s: string): (r: Option<int32>)
    ensures r.Some? ==> |s| > 0 && (IsDigit(s[0]) || s[0] == '-' || s[0] == '+')
    ensures r.Some? ==> forall i :: 0 < i < |s| ==> IsDigit(s[i])
    ensures r.Some? && s[0] == '-' ==> r.value <= 0
    ensures r.Some? && s[0] != '-' ==> r.value >= 0
    // A bare sign is not a number.
    ensures r.Some? ==> IsDigit(s[0]) || |s| > 1
    // Unsigned or '+'-signed digits: accepted exactly when the value fits, and then that value.
    ensures |s| > 0 && AllDigits(s) ==>
              (r.Some? <==> DigitsValue(s) <= MaxInt32)
              && (r.Some? ==> r.value as int == DigitsValue(s))
    ensures |s| > 1 && s[0] == '+' && AllDigits(s[1..]) ==>
              (r.Some? <==> DigitsValue(s[1..]) <= MaxInt32)
              && (r.Some? ==> r.value as int == DigitsValue(s[1..]))
    // '-'-signed digits: accepted exactly when the negated value fits, and then that value.
    ensures |s| > 1 && s[0] == '-' && AllDigits(s[1..]) ==>
              (r.Some? <==> DigitsValue(s[1..]) <= -MinInt32)
              && (r.Some? ==> r.value as int == 0 - DigitsValue(s[1..]) as int)
  {
    if |s| == 0 then None
    else
      var negative := s[0] == '-';
      var digits := if s[0] == '-' || s[0] == '+' then s[1..] else s;
      if |digits| == 0 || !AllDigits(digits) then None
      else
        var magnitude: int := DigitsValue(digits);
        var n: int := if negative then -magnitude else magnitude;
        if MinInt32 <= n <= MaxInt32 then Some(n as int32) else None
  }

  /** Decimal digits of a natural number, without leading zeros. */
  function NaturalDecimal(n: nat): string
  {
    if n < 10 then [DigitChar(n)] else NaturalDecimal(n / 10) + [DigitChar(n % 10)]
  }

  /** `Integer.toString(n)`: the canonical decimal text of a Java `int`. */
  function Decimal(n: int32): string
  {
    if n < 0 then "-" + NaturalDecimal(-(n as int)) else NaturalDecimal(n as int)
  }

  lemma {:induction false} NaturalDecimalValue(n: nat)
    ensures |NaturalDecimal(n)| > 0 && AllDigits(NaturalDecimal(n))
    ensures DigitsValue(NaturalDecimal(n)) == n
  {
    if n >= 10 {
      NaturalDecimalValue(n / 10);
      var s := NaturalDecimal(n);
      assert s[..|s| - 1] == NaturalDecimal(n / 10);
      assert s[|s| - 1] == DigitChar(n % 10);
    }
  }

  /** Every Java `int` survives printing and parsing back. */
  lemma ParseIntRoundTrip(n: int32)
    ensures ParseInt(Decimal(n)) == Some(n)
  {
    var m: nat := if n < 0 then -(n as int) else n as int;
    NaturalDecimalValue(m);
    var s := Decimal(n);
    if n < 0 {
      assert s[1..] == NaturalDecimal(m);
    } else {
      assert s == NaturalDecimal(m);
      assert IsDigit(s[0]);
    }
  }

  lemma {:induction false} LeadingZeroValue(s: string)
    requires AllDigits(s)
    ensures AllDigits("0" + s) && DigitsValue("0" + s) == DigitsValue(s)
  {
    var t := "0" + s;
    assert AllDigits(t) by {
      forall i | 0 <= i < |t| ensures IsDigit(t[i]) {
        if i > 0 { assert t[i] == s[i - 1]; }
      }
    }
    if s != [] {
      assert t[..|t| - 1] == "0" + s[..|s| - 1];
      var prefix := s[..|s| - 1];
      assert AllDigits(prefix) by {
        forall i | 0 <= i < |prefix| ensures IsDigit(prefix[i]) {
          assert prefix[i] == s[i];
        }
      }
      LeadingZeroValue(s[..|s| - 1]);
    }
  }

  /**
   * Non-canonical spellings parse as the canonical one: a leading '+' or a
   * leading zero does not change the result, so with the round trip every
   * in-range decimal text parses to its value.
   */
  lemma NonCanonicalSpellings(s: string)
    requires |s| > 0 && AllDigits(s)
    ensures ParseInt("+" + s) == ParseInt(s)
    ensures ParseInt("0" + s) == ParseInt(s)
    ensures ParseInt("-0" + s) == ParseInt("-" + s)
  {
    assert ("+" + s)[1..] == s;
    assert ("-" + s)[1..] == s;
    LeadingZeroValue(s);
    assert ("-0" + s)[1..] == "0" + s;
  }
}
