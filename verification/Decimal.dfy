/** Decimal notation of natural numbers. */
module Decimal {
  import opened Text

  predicate AllDigits(s: string) { forall i | 0 <= i < |s| :: IsDigit(s[i]) }

  function DigitValue(c: char): (d: nat)
    requires IsDigit(c)
    ensures d < 10
  {
    (c as int) - ('0' as int)
  }

  function DigitChar(d: nat): (c: char)
    requires d < 10
    ensures IsDigit(c) && DigitValue(c) == d
  {
    (d + '0' as int) as char
  }

  /** The number written by a string of digits, leading zeros allowed. */
  function Value(s: string): nat
    requires AllDigits(s)
  {
    if s == [] then 0 else Value(s[..|s| - 1]) * 10 + DigitValue(s[|s| - 1])
  }

  function Print(n: nat): (s: string)
    ensures s != [] && AllDigits(s)
  {
    if n < 10 then [DigitChar(n)] else Print(n / 10) + [DigitChar(n % 10)]
  }

  /** Printing and reading back is the identity, also behind leading zeros. */
  lemma {:induction false} PrintReadsBack(n: nat)
    ensures Value(Print(n)) == n
  {
    if n >= 10 {
      PrintReadsBack(n / 10);
      assert Print(n)[..|Print(n)| - 1] == Print(n / 10);
    }
  }

  lemma {:induction false} LeadingZeros(zeros: string, s: string)
    requires AllDigits(s) && forall i | 0 <= i < |zeros| :: zeros[i] == '0'
    ensures AllDigits(zeros + s) && Value(zeros + s) == Value(s)
    decreases |zeros| + |s|
  {
    if s != [] {
      LeadingZeros(zeros, s[..|s| - 1]);
      assert (zeros + s)[..|zeros + s| - 1] == zeros + s[..|s| - 1];
    } else if zeros != [] {
      LeadingZeros(zeros[..|zeros| - 1], []);
      assert (zeros + s)[..|zeros + s| - 1] == zeros[..|zeros| - 1] + [];
    }
  }
}
