/**
 * Decimal text of integers, as .NET's `uint.ToString()`, `ushort.ToString()`
 * and `int.ToString()` produce it: the digits of the magnitude without
 * leading zeros or group separators, preceded by `-` when the value is
 * negative.
 */
module Decimal {

  predicate IsDigit(c: char) {
    '0' <= c <= '9'
  }

  predicate AllDigits(s: string) {
    forall i :: 0 <= i < |s| ==> IsDigit(s[i])
  }

  function DigitChar(d: nat): (c: char)
    requires d < 10
    ensures IsDigit(c) && c as int - '0' as int == d
  {
    ('0' as int + d) as char
  }

  function DigitValue(c: char): (d: nat)
    requires IsDigit(c)
    ensures d < 10 && DigitChar(d) == c
  {
    c as int - '0' as int
  }

  /** The decimal digits of `n`, most significant first. */
  function NatToDecimal(n: nat): (s: string)
    ensures |s| >= 1 && AllDigits(s)
    ensures s[0] == '0' ==> n == 0 && s == "0"
    decreases n
  {
    if n < 10 then [DigitChar(n)] else NatToDecimal(n / 10) + [DigitChar(n % 10)]
  }

  /** The number a string of decimal digits denotes (the reading direction of `NatToDecimal`). */
  function DecimalValue(s: string): nat
    requires AllDigits(s)
    decreases |s|
  {
    if s == [] then 0 else DecimalValue(s[..|s| - 1]) * 10 + DigitValue(s[|s| - 1])
  }

  lemma {:induction false} DecimalRoundTrip(n: nat)
    ensures DecimalValue(NatToDecimal(n)) == n
    decreases n
  {
    var s := NatToDecimal(n);
    if n >= 10 {
      DecimalRoundTrip(n / 10);
      assert s[..|s| - 1] == NatToDecimal(n / 10);
    }
  }

  /** A digit string of value at least 1 when it does not start with `0`. */
  lemma {:induction false} NonZeroLead(d: string)
    requires |d| >= 1 && AllDigits(d) && d[0] != '0'
    ensures DecimalValue(d) >= 1
    decreases |d|
  {
    if |d| > 1 {
      var init := d[..|d| - 1];
      assert init[0] == d[0];
      NonZeroLead(init);
    }
  }

  /**
   * A non-empty digit string without a leading zero (other than `"0"`
   * itself) is the decimal text of its value: such a text is canonical.
   */
  lemma {:induction false} CanonicalDecimal(d: string)
    requires |d| >= 1 && AllDigits(d) && (d[0] == '0' ==> d == "0")
    ensures NatToDecimal(DecimalValue(d)) == d
    decreases |d|
  {
    if |d| > 1 {
      var init := d[..|d| - 1];
      assert init[0] == d[0];
      CanonicalDecimal(init);
      NonZeroLead(init);
      var last := DigitValue(d[|d| - 1]);
      var n := DecimalValue(d);
      assert n == DecimalValue(init) * 10 + last;
      assert n / 10 == DecimalValue(init) && n % 10 == last;
      assert init + [d[|d| - 1]] == d;
    }
  }

  /** Different numbers never share a decimal text. */
  lemma NatToDecimalInjective(a: nat, b: nat)
    ensures NatToDecimal(a) == NatToDecimal(b) ==> a == b
  {
    DecimalRoundTrip(a);
    DecimalRoundTrip(b);
  }

  /** Signed decimal text, as `int.ToString()` writes it when the negative sign is `-`. */
  function IntToDecimal(i: int): (s: string)
    ensures |s| >= 1
    ensures s[0] == '-' <==> i < 0
    ensures var d := if i < 0 then s[1..] else s;
            |d| >= 1 && AllDigits(d) && (d[0] == '0' ==> d == "0")
  {
    if i < 0 then "-" + NatToDecimal(-i) else NatToDecimal(i)
  }

  /** Reads back a text that `IntToDecimal` could have produced. */
  function IntValue(s: string): int
    requires |s| >= 1
    requires AllDigits(if s[0] == '-' then s[1..] else s)
  {
    if s[0] == '-' then -(DecimalValue(s[1..]) as int) else DecimalValue(s)
  }

  lemma IntRoundTrip(i: int)
    ensures IntValue(IntToDecimal(i)) == i
  {
    if i < 0 {
      DecimalRoundTrip(-i);
      assert IntToDecimal(i)[1..] == NatToDecimal(-i);
    } else {
      DecimalRoundTrip(i);
    }
  }
}
