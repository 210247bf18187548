/**
 * Decimal text of an integer, as Python writes an `int` inside an f-string:
 * an optional minus sign followed by the digits, without leading zeros.
 * The amounts of a shopping list are printed this way.
 */
module Decimal {

  datatype Option<T> = None | Some(value: T)

  function DigitChar(d: nat): (c: char)
    requires d < 10
    ensures IsDigit(c) && DigitValue(c) == d
  {
    ('0' as int + d) as char
  }

  predicate IsDigit(c: char) {
    '0' <= c <= '9'
  }

  function DigitValue(c: char): (d: nat)
    requires IsDigit(c)
    ensures d < 10
  {
    c as int - '0' as int
  }

  predicate AllDigits(s: string) {
    forall i :: 0 <= i < |s| ==> IsDigit(s[i])
  }

  /** The digits of `n`, most significant first. */
  function NatToDecimal(n: nat): (s: string)
    ensures |s| >= 1 && AllDigits(s)
    ensures s[0] == '0' ==> n == 0 && s == "0"
  {
    if n < 10 then [DigitChar(n)] else NatToDecimal(n / 10) + [DigitChar(n % 10)]
  }

  /** `str(i)` for a Python integer `i`. */
  function IntToDecimal(i: int): (s: string)
    ensures |s| >= 1
    ensures s[0] == '-' <==> i < 0
    ensures s[0] == '-' || IsDigit(s[0])
    ensures forall j :: 1 <= j < |s| ==> IsDigit(s[j])
  {
    if i < 0 then "-" + NatToDecimal(-i) else NatToDecimal(i)
  }

  /** The number a string of digits denotes (the empty string denotes 0). */
  function DigitsValue(s: string): nat
    requires AllDigits(s)
  {
    if s == [] then 0 else 10 * DigitsValue(s[..|s| - 1]) + DigitValue(s[|s| - 1])
  }

  /** Reads back an integer written as an optional '-' and at least one digit. */
  function ParseDecimal(s: string): Option<int> {
    if |s| >= 2 && s[0] == '-' && AllDigits(s[1..]) then Some(-(DigitsValue(s[1..]) as int))
    else if |s| >= 1 && AllDigits(s) then Some(DigitsValue(s))
    else None
  }

  lemma {:induction false} NatToDecimalValue(n: nat)
    ensures DigitsValue(NatToDecimal(n)) == n
  {
    var s := NatToDecimal(n);
    if n >= 10 {
      var p := NatToDecimal(n / 10);
      NatToDecimalValue(n / 10);
      assert s[..|s| - 1] == p;
    }
  }

  /** Reading the text of an amount back gives the amount: the rendering loses nothing. */
  lemma IntToDecimalRoundTrip(i: int)
    ensures ParseDecimal(IntToDecimal(i)) == Some(i)
  {
    var s := IntToDecimal(i);
    if i < 0 {
      NatToDecimalValue(-i);
      assert s[1..] == NatToDecimal(-i);
    } else {
      NatToDecimalValue(i);
    }
  }

  /** Different amounts are rendered as different texts. */
  lemma IntToDecimalInjective(i: int, j: int)
    ensures IntToDecimal(i) == IntToDecimal(j) ==> i == j
  {
    IntToDecimalRoundTrip(i);
    IntToDecimalRoundTrip(j);
  }
}
