/**
 The decimal text of a non-negative integer, as Rust's `to_string` writes an
 unsigned integer: most significant digit first, no sign, no leading zeros,
 and "0" for zero. `ValueOf` reads such text back.
 */
module Decimal {

  predicate IsDigit(c: char) {
    '0' <= c <= '9'
  }

  predicate AllDigits(s: string) {
    forall i :: 0 <= i < |s| ==> IsDigit(s[i])
  }

  function DigitChar(d: nat): (c: char)
    requires d < 10
    ensures IsDigit(c)
    ensures c as int - '0' as int == d
  {
    ('0' as int + d) as char
  }

  function DigitValue(c: char): (d: nat)
    requires IsDigit(c)
    ensures d < 10 && DigitChar(d) == c
  {
    c as int - '0' as int
  }

  function DecimalString(n: nat): (s: string)
    ensures |s| >= 1
    ensures AllDigits(s)
    ensures s[0] == '0' ==> n == 0
    decreases n
  {
    if n < 10 then [DigitChar(n)] else DecimalString(n / 10) + [DigitChar(n % 10)]
  }

  /** The value of a string of decimal digits, most significant first. */
  function ValueOf(s: string): nat
    requires AllDigits(s)
    decreases |s|
  {
    if |s| == 0 then 0 else ValueOf(s[..|s| - 1]) * 10 + DigitValue(s[|s| - 1])
  }

  /** The most significant decimal digit of `n`. */
  function LeadingDigit(n: nat): (d: nat)
    ensures d < 10
    ensures d == 0 <==> n == 0
    decreases n
  {
    if n < 10 then n else LeadingDigit(n / 10)
  }

  /** Reading the decimal text back gives the number: the text determines the number. */
  lemma {:induction false} ValueOfDecimalString(n: nat)
    ensures ValueOf(DecimalString(n)) == n
    decreases n
  {
    var s := DecimalString(n);
    if n >= 10 {
      var prefix := DecimalString(n / 10);
      assert s[..|s| - 1] == prefix;
      ValueOfDecimalString(n / 10);
    }
  }

  /** Distinct numbers have distinct decimal text. */
  lemma DecimalStringInjective(a: nat, b: nat)
    ensures DecimalString(a) == DecimalString(b) <==> a == b
  {
    if DecimalString(a) == DecimalString(b) {
      ValueOfDecimalString(a);
      ValueOfDecimalString(b);
    }
  }

  /** The first character of the decimal text is the leading digit. */
  lemma {:induction false} DecimalStringStartsWithLeadingDigit(n: nat)
    ensures DecimalString(n)[0] == DigitChar(LeadingDigit(n))
    decreases n
  {
    if n >= 10 {
      DecimalStringStartsWithLeadingDigit(n / 10);
    }
  }

  /** The leading digit of a number with `k + 1` digits is its quotient by `10^k`, for up to five digits. */
  lemma {:induction false} LeadingDigitByMagnitude(n: nat)
    ensures n < 10 ==> LeadingDigit(n) == n
    ensures 10 <= n < 100 ==> LeadingDigit(n) == n / 10
    ensures 100 <= n < 1000 ==> LeadingDigit(n) == n / 100
    ensures 1000 <= n < 10000 ==> LeadingDigit(n) == n / 1000
    ensures 10000 <= n < 100000 ==> LeadingDigit(n) == n / 10000
  {
    if n >= 10 {
      LeadingDigitByMagnitude(n / 10);
    }
  }
}
