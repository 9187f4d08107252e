/**
 * Decimal rendering of integers (Go's `strconv.Itoa`) and its inverse, used
 * by `Start` to compose the bind address.
 */
module Decimal {
  import opened BaseTypes

  predicate IsDigit(c: char) {
    '0' <= c <= '9'
  }

  predicate AllDigits(s: string) {
    forall i :: 0 <= i < |s| ==> IsDigit(s[i])
  }

  function DigitChar(d: nat): (c: char)
    requires d < 10
    ensures IsDigit(c) && c as int - '0' as int == d
  {
    ('0' as int + d) as char
  }

  function DigitValue(c: char): (d: nat)
    requires IsDigit(c)
    ensures d < 10 && DigitChar(d) == c
  {
    c as int - '0' as int
  }

  /** The decimal digits of `n`: no sign, no leading zero except for 0 itself. */
  function NatToDecimal(n: nat): (s: string)
    ensures |s| >= 1 && AllDigits(s)
    ensures n == 0 <==> s == "0"
    ensures s[0] == '0' ==> n == 0
    decreases n
  {
    if n < 10 then [DigitChar(n)] else NatToDecimal(n / 10) + [DigitChar(n % 10)]
  }

  /** `strconv.Itoa`: a leading '-' for negative values, then the digits of |i|. */
  function Itoa(i: int): (s: string)
    ensures |s| >= 1
    ensures (s[0] == '-') <==> i < 0
    ensures i < 0 ==> |s| >= 2 && AllDigits(s[1..]) && s[1] != '0'
    ensures i >= 0 ==> AllDigits(s) && (s[0] == '0' ==> i == 0)
  {
    if i < 0 then "-" + NatToDecimal(-i) else NatToDecimal(i)
  }

  /** The value of a string of decimal digits (the empty string is 0). */
  function DigitsValue(s: string): nat
    requires AllDigits(s)
  {
    if s == [] then 0 else 10 * DigitsValue(s[..|s| - 1]) + DigitValue(s[|s| - 1])
  }

  /** Parses an optionally '-'-signed, non-empty run of decimal digits. */
  function ParseInt(s: string): (r: Option<int>)
    ensures r.Some? ==> |s| >= 1
    ensures r.Some? && r.value < 0 ==> s[0] == '-'
  {
    if |s| >= 2 && s[0] == '-' && AllDigits(s[1..]) then Some(-(DigitsValue(s[1..]) as int))
    else if |s| >= 1 && AllDigits(s) then Some(DigitsValue(s))
    else None
  }

  lemma {:induction false} NatToDecimalValue(n: nat)
    ensures DigitsValue(NatToDecimal(n)) == n
    decreases n
  {
    if n >= 10 {
      var s := NatToDecimal(n);
      var prefix := NatToDecimal(n / 10);
      assert s[..|s| - 1] == prefix;
      NatToDecimalValue(n / 10);
    }
  }

  /** Itoa and ParseInt are inverse: the rendered port reads back as the port. */
  lemma ItoaRoundTrip(i: int)
    ensures ParseInt(Itoa(i)) == Some(i)
  {
    var s := Itoa(i);
    if i < 0 {
      var digits := NatToDecimal(-i);
      assert s == "-" + digits && s[1..] == digits;
      NatToDecimalValue(-i);
      assert ParseInt(s) == Some(-(DigitsValue(digits) as int));
    } else {
      NatToDecimalValue(i);
      assert s[0] != '-';
      assert ParseInt(s) == Some(DigitsValue(s) as int);
    }
  }

  /** Distinct integers render differently. */
  lemma ItoaInjective(i: int, j: int)
    requires Itoa(i) == Itoa(j)
    ensures i == j
  {
    ItoaRoundTrip(i);
    ItoaRoundTrip(j);
  }
}
