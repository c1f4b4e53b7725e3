/** Decimal text of non-negative integers: what a template literal or `toString()` produces for
    one, and what `Number.parseInt` reads back from a string of digits. */
module Decimal {

  predicate IsDigit(c: char) { '0' <= c <= '9' }

  predicate IsDigits(s: string) { forall i :: 0 <= i < |s| ==> IsDigit(s[i]) }

  function DigitChar(d: nat): (c: char)
    requires d < 10
    ensures IsDigit(c) && c as int - '0' as int == d
  {
    ('0' as int + d) as char
  }

  /** The decimal representation of `n`: digits only, most significant first, no leading zero. */
  function ToDecimal(n: nat): (s: string)
    ensures |s| >= 1 && IsDigits(s)
    ensures |s| > 1 ==> s[0] != '0'
    decreases n
  {
    if n < 10 then [DigitChar(n)] else ToDecimal(n / 10) + [DigitChar(n % 10)]
  }

  /** The number a string of decimal digits denotes. */
  function Value(s: string): nat
    requires IsDigits(s)
    decreases |s|
  {
    if s == [] then 0 else Value(s[..|s| - 1]) * 10 + (s[|s| - 1] as int - '0' as int)
  }

  /** Reading back the decimal text of `n` gives `n`. */
  lemma {:induction false} ValueOfToDecimal(n: nat)
    ensures Value(ToDecimal(n)) == n
    decreases n
  {
    if n >= 10 {
      ValueOfToDecimal(n / 10);
      var s := ToDecimal(n);
      assert s[..|s| - 1] == ToDecimal(n / 10);
    }
  }

  /** Distinct numbers have distinct decimal texts. */
  lemma ToDecimalInjective(m: nat, n: nat)
    ensures ToDecimal(m) == ToDecimal(n) ==> m == n
  {
    ValueOfToDecimal(m);
    ValueOfToDecimal(n);
  }
}
