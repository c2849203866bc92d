/** Decimal numbers as text: what `{n}` and `{n:0width}` print, and what a string
    of digits denotes. */
module Decimals {

  predicate IsDigit(c: char) {
    '0' <= c <= '9'
  }

  predicate AllDigits(s: string) {
    forall i :: 0 <= i < |s| ==> IsDigit(s[i])
  }

  function DigitOf(d: int): (c: char)
    requires 0 <= d < 10
    ensures IsDigit(c) && ValueOf(c) == d
  {
    "0123456789"[d]
  }

  function ValueOf(c: char): int {
    c as int - '0' as int
  }

  /** The number a string of digits denotes. */
  function Value(s: string): int {
    if s == [] then 0 else Value(s[..|s| - 1]) * 10 + ValueOf(s[|s| - 1])
  }

  function Decimal(n: nat): (s: string)
    ensures s != [] && AllDigits(s) && Value(s) == n
  {
    if n < 10 then
      assert Value([]) == 0;
      [DigitOf(n)]
    else Decimal(n / 10) + [DigitOf(n % 10)]
  }

  function Zeros(n: nat): (s: string)
    ensures |s| == n && AllDigits(s)
  {
    seq(n, _ => '0')
  }

  lemma {:induction false} LeadingZeros(n: nat, s: string)
    ensures Value(Zeros(n) + s) == Value(s)
    decreases n + |s|
  {
    if s != [] {
      LeadingZeros(n, s[..|s| - 1]);
      assert (Zeros(n) + s)[..n + |s| - 1] == Zeros(n) + s[..|s| - 1];
    } else if n > 0 {
      LeadingZeros(n - 1, []);
      assert (Zeros(n) + s)[..n - 1] == Zeros(n - 1) + [];
    }
  }

  lemma {:induction false} ValueIsNatural(s: string)
    requires AllDigits(s)
    ensures Value(s) >= 0
  {
    if s != [] { ValueIsNatural(s[..|s| - 1]); }
  }

  /** `{n:0width}`: zero-padded, the sign counted in the width. */
  function Padded(n: int, width: nat): string {
    var sign := if n < 0 then "-" else "";
    var digits := Decimal(if n < 0 then -n else n);
    sign + Zeros(if |sign| + |digits| < width then width - |sign| - |digits| else 0) + digits
  }

  lemma PaddedReads(n: nat, width: nat)
    ensures var s := Padded(n, width); s != [] && AllDigits(s) && Value(s) == n
  {
    var digits := Decimal(n);
    LeadingZeros(if |digits| < width then width - |digits| else 0, digits);
    assert Padded(n, width) == Zeros(if |digits| < width then width - |digits| else 0) + digits;
  }
}
