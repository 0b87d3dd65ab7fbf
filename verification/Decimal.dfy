/** Decimal printing of naturals, as `fmt.Sprintf("%d", n)` does it, and its inverse. */
module Decimal {
  const DIGITS := "0123456789"

  function Print(n: nat): (s: string)
    ensures |s| > 0
  {
    if n < 10 then [DIGITS[n]] else Print(n / 10) + [DIGITS[n % 10]]
  }

  function DigitValue(c: char): int { c as int - '0' as int }

  function Parse(s: string): int {
    if s == "" then 0 else 10 * Parse(s[..|s| - 1]) + DigitValue(s[|s| - 1])
  }

  lemma DigitRoundTrip(d: nat)
    requires d < 10
    ensures DigitValue(DIGITS[d]) == d
  {
    assert DIGITS[0] == '0' && DIGITS[1] == '1' && DIGITS[2] == '2' && DIGITS[3] == '3' && DIGITS[4] == '4';
    assert DIGITS[5] == '5' && DIGITS[6] == '6' && DIGITS[7] == '7' && DIGITS[8] == '8' && DIGITS[9] == '9';
  }

  lemma {:induction false} PrintParse(n: nat)
    ensures Parse(Print(n)) == n
  {
    var s := Print(n);
    if n < 10 {
      DigitRoundTrip(n);
      assert s[..|s| - 1] == "";
    } else {
      PrintParse(n / 10);
      DigitRoundTrip(n % 10);
      assert s[..|s| - 1] == Print(n / 10);
    }
  }

  lemma PrintInjective(m: nat, n: nat)
    requires Print(m) == Print(n)
    ensures m == n
  {
    PrintParse(m);
    PrintParse(n);
  }

  /** Print is canonical: digits only, and no leading zero but in "0" itself. */
  lemma {:induction false} PrintCanonical(n: nat)
    ensures forall i :: 0 <= i < |Print(n)| ==> '0' <= Print(n)[i] <= '9'
    ensures Print(n)[0] == '0' ==> n == 0 && |Print(n)| == 1
  {
    DigitRoundTrip(n % 10);
    if n >= 10 { PrintCanonical(n / 10); }
  }
}
