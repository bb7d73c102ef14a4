/**
 * Decimal text of page numbers: JavaScript's template literal `${n}` for an
 * integer, and `parseInt(s, 10)` restricted to optionally signed digit strings.
 */
module Decimal {
  import opened Wrappers

  predicate IsDigit(c: char) {
    '0' <= c <= '9'
  }

  predicate IsDigits(s: string) {
    forall i :: 0 <= i < |s| ==> IsDigit(s[i])
  }

  function DigitChar(d: nat): (c: char)
    requires d < 10
    ensures IsDigit(c) && c as int - '0' as int == d
  {
    ('0' as int + d) as char
  }

  /** The value of a string of decimal digits, most significant digit first. */
  function DigitsValue(s: string): (v: nat)
    requires IsDigits(s)
  {
    if s == [] then 0
    else DigitsValue(s[..|s| - 1]) * 10 + (s[|s| - 1] as int - '0' as int)
  }

  /** `${n}` for a non-negative integer: the shortest decimal, without leading zeros. */
  function NatToString(n: nat): (s: string)
    ensures |s| >= 1 && IsDigits(s)
    ensures (s[0] == '0') == (n == 0)
    ensures n == 0 ==> s == "0"
    decreases n
  {
    if n < 10 then [DigitChar(n)] else NatToString(n / 10) + [DigitChar(n % 10)]
  }

  /** `${n}` for any integer: a minus sign before the digits of a negative number. */
  function IntToString(n: int): (s: string)
    ensures |s| >= 1
    ensures (s[0] == '-') == (n < 0)
    ensures IsDecimalInteger(s)
  {
    if n < 0 then "-" + NatToString(-n) else NatToString(n)
  }

  predicate IsSign(c: char) {
    c == '-' || c == '+'
  }

  /** An optional sign followed by at least one decimal digit. */
  predicate IsDecimalInteger(s: string) {
    if |s| > 0 && IsSign(s[0]) then |s| > 1 && IsDigits(s[1..]) else |s| > 0 && IsDigits(s)
  }

  /**
   * `parseInt(s, 10)` on a decimal integer. Every other input (JavaScript's NaN,
   * or a number read from a prefix of the string) gives None.
   */
  function ParseInt(s: string): (r: Option<int>)
    ensures r.Some? <==> IsDecimalInteger(s)
    ensures r.Some? && s[0] == '-' ==> r.value <= 0
    ensures r.Some? && s[0] != '-' ==> r.value >= 0
  {
    if !IsDecimalInteger(s) then None
    else if s[0] == '-' then Some(-(DigitsValue(s[1..]) as int))
    else if s[0] == '+' then Some(DigitsValue(s[1..]))
    else Some(DigitsValue(s))
  }

  lemma {:induction false} NatToStringValue(n: nat)
    ensures DigitsValue(NatToString(n)) == n
    decreases n
  {
    if n >= 10 {
      NatToStringValue(n / 10);
      var s := NatToString(n);
      assert s[..|s| - 1] == NatToString(n / 10);
    }
  }

  /** Reading back the text of a page number gives that page number. */
  lemma ParseIntOfIntToString(n: int)
    ensures ParseInt(IntToString(n)) == Some(n)
  {
    if n < 0 {
      NatToStringValue(-n);
      assert IntToString(n)[1..] == NatToString(-n);
    } else {
      NatToStringValue(n);
    }
  }
}
