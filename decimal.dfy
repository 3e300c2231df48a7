/**
 * Decimal text of integers, and Rust's `u16::from_str` (an optional leading
 * `+`, then one or more ASCII digits whose value is at most 65535; leading
 * zeros are accepted).
 */
module Decimal {
  import opened Wrappers

  const U16Limit: nat := 65536

  predicate IsDigit(c: char) {
    '0' <= c <= '9'
  }

  predicate AllDigits(s: string) {
    forall i :: 0 <= i < |s| ==> IsDigit(s[i])
  }

  function DigitChar(d: nat): (c: char)
    requires d < 10
    ensures IsDigit(c)
  {
    ('0' as int + d) as char
  }

  function DigitValue(c: char): (d: nat)
    requires IsDigit(c)
    ensures d < 10
  {
    c as int - '0' as int
  }

  /** The canonical decimal text of a natural number: no sign, no leading zeros. */
  function NatText(n: nat): (s: string)
    ensures |s| > 0 && AllDigits(s)
    ensures n >= 10 ==> s[0] != '0'
  {
    if n < 10 then [DigitChar(n)] else NatText(n / 10) + [DigitChar(n % 10)]
  }

  /** The decimal text of an integer, with a leading `-` when it is negative. */
  function IntText(i: int): string {
    if i < 0 then "-" + NatText(-i) else NatText(i)
  }

  /** The value of a string of digits, read most significant digit first. */
  function DigitsValue(s: string): nat
    requires AllDigits(s)
  {
    if s == [] then 0 else DigitsValue(s[..|s| - 1]) * 10 + DigitValue(s[|s| - 1])
  }

  /** Rust's `"…".parse::<u16>()`, `Err` becoming `None`. */
  function ParseU16(s: string): (r: Option<nat>)
    ensures r.Some? ==> r.value < U16Limit
  {
    var digits := if |s| > 0 && s[0] == '+' then s[1..] else s;
    if |digits| == 0 || !AllDigits(digits) then None
    else if DigitsValue(digits) < U16Limit then Some(DigitsValue(digits))
    else None
  }

  lemma {:induction false} DigitsValueOfNatText(n: nat)
    ensures DigitsValue(NatText(n)) == n
  {
    if n >= 10 {
      var s := NatText(n);
      assert s[..|s| - 1] == NatText(n / 10);
      DigitsValueOfNatText(n / 10);
    }
  }

  /** Parsing the canonical text of a number gives the number back exactly when it fits in 16 bits. */
  lemma ParseU16OfNatText(n: nat)
    ensures ParseU16(NatText(n)) == if n < U16Limit then Some(n) else None
  {
    DigitsValueOfNatText(n);
  }

  /** A text holding a character that is neither a digit nor `+` never parses. */
  lemma ParseU16RejectsForeignChar(s: string, k: nat)
    requires k < |s| && !IsDigit(s[k]) && s[k] != '+'
    ensures ParseU16(s) == None
  {
    if s[0] == '+' {
      assert k > 0 && s[1..][k - 1] == s[k];
    }
  }
}
