/** Decimal text of integers, as Python's `str(n)` / f-string formatting writes
    them: an optional minus sign, then digits without leading zeros. */
module Decimal {
  import opened Results

  predicate IsDigit(c: char) {
    '0' <= c <= '9'
  }

  predicate AllDigits(s: string) {
    forall i :: 0 <= i < |s| ==> IsDigit(s[i])
  }

  function DigitChar(d: nat): (c: char)
    requires d < 10
    ensures IsDigit(c) && c as int - '0' as int == d
  {
    ('0' as int + d) as char
  }

  function FromNat(n: nat): (s: string)
    ensures |s| >= 1 && AllDigits(s)
    ensures n > 0 ==> s[0] != '0'
  {
    if n < 10 then [DigitChar(n)] else FromNat(n / 10) + [DigitChar(n % 10)]
  }

  function FromInt(n: int): string {
    if n < 0 then "-" + FromNat(-n) else FromNat(n)
  }

  /** The number a string of digits denotes. */
  function DigitsValue(s: string): nat
    requires AllDigits(s)
  {
    if |s| == 0 then 0
    else DigitsValue(s[..|s| - 1]) * 10 + (s[|s| - 1] as int - '0' as int)
  }

  /** Reads back an optionally signed, non-empty run of digits. */
  function ToInt(s: string): Option<int> {
    if |s| > 1 && s[0] == '-' && AllDigits(s[1..]) then Some(-(DigitsValue(s[1..]) as int))
    else if |s| > 0 && AllDigits(s) then Some(DigitsValue(s))
    else None
  }

  lemma {:induction false} FromNatRoundTrip(n: nat)
    ensures DigitsValue(FromNat(n)) == n
    decreases n
  {
    if n >= 10 {
      var s := FromNat(n);
      assert s[..|s| - 1] == FromNat(n / 10);
      FromNatRoundTrip(n / 10);
    }
  }

  /** The decimal text of an integer determines it. */
  lemma FromIntRoundTrip(n: int)
    ensures ToInt(FromInt(n)) == Some(n)
  {
    if n < 0 {
      assert FromInt(n)[1..] == FromNat(-n);
      FromNatRoundTrip(-n);
    } else {
      FromNatRoundTrip(n);
    }
  }
}
