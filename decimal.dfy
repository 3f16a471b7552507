/**
 * Integers as the strings that `localStorage` holds: the template literal
 * `${n}` that writes a number, and `Number(s)` that reads it back.
 */
module Decimal {
  import opened Wrappers

  predicate IsDigit(c: char) {
    '0' <= c <= '9'
  }

  predicate AllDigits(s: string) {
    forall i :: 0 <= i < |s| ==> IsDigit(s[i])
  }

  function DigitChar(d: nat): (c: char)
    requires d < 10
    ensures IsDigit(c) && c as int - '0' as int == d
  {
    ('0' as int + d) as char
  }

  /** The value of a string of decimal digits, most significant first. */
  function DigitsValue(s: string): nat
    requires AllDigits(s)
  {
    if s == [] then 0 else DigitsValue(s[..|s| - 1]) * 10 + (s[|s| - 1] as int - '0' as int)
  }

  /** The shortest decimal spelling of a natural number. */
  function NatToDigits(n: nat): (s: string)
    ensures |s| > 0 && AllDigits(s)
  {
    if n < 10 then [DigitChar(n)] else NatToDigits(n / 10) + [DigitChar(n % 10)]
  }

  /** `${n}` for an integral number `n`: an optional minus sign, then its digits. */
  function FromInt(n: int): (s: string)
    ensures |s| > 0
    ensures s[0] == '-' <==> n < 0
  {
    if n < 0 then "-" + NatToDigits(-n) else NatToDigits(n)
  }

  /**
   * `Number(s)` on decimal integers: the empty string reads as 0, otherwise an
   * optional minus sign followed by at least one digit. `None` stands for every
   * other string (NaN, or a numeric form this model does not read).
   */
  function ToNumber(s: string): Option<int>
  {
    if s == "" then Some(0)
    else if s[0] == '-' then
      if |s| > 1 && AllDigits(s[1..]) then Some(-(DigitsValue(s[1..]) as int)) else None
    else if AllDigits(s) then Some(DigitsValue(s))
    else None
  }

  lemma {:induction false} DigitsRoundTrip(n: nat)
    ensures DigitsValue(NatToDigits(n)) == n
  {
    if n >= 10 {
      var s := NatToDigits(n);
      assert s[..|s| - 1] == NatToDigits(n / 10);
      DigitsRoundTrip(n / 10);
    }
  }

  /** What the store is given by `${n}` reads back as `n` through `Number`. */
  lemma RoundTrip(n: int)
    ensures ToNumber(FromInt(n)) == Some(n)
  {
    var s := FromInt(n);
    if n < 0 {
      assert s[1..] == NatToDigits(-n);
      DigitsRoundTrip(-n);
    } else {
      assert !IsDigit('-');
      DigitsRoundTrip(n);
    }
  }
}
