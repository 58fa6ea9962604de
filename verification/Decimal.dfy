// Natural numbers written in decimal digits, as the identifiers of the program use them.
module Decimal {

  function Digit(n: nat): char
    requires n < 10
  {
    "0123456789"[n]
  }

  predicate IsDigit(c: char) {
    '0' <= c <= '9'
  }

  function Written(n: nat): (s: string)
    ensures s != [] && forall c | c in s :: IsDigit(c)
  {
    if n < 10 then [Digit(n)] else Written(n / 10) + [Digit(n % 10)]
  }

  function Value(s: string): nat
    requires forall i | 0 <= i < |s| :: IsDigit(s[i])
  {
    if s == [] then 0
    else
      assert IsDigit(s[|s| - 1]);
      10 * Value(s[..|s| - 1]) + (s[|s| - 1] as int - '0' as int)
  }

  lemma {:induction false} WrittenValue(n: nat)
    ensures Value(Written(n)) == n
  {
    if n >= 10 {
      WrittenValue(n / 10);
      assert Written(n)[..|Written(n)| - 1] == Written(n / 10);
    }
  }

  // Different numbers are written differently.
  lemma WrittenDistinct(m: nat, n: nat)
    requires Written(m) == Written(n)
    ensures m == n
  {
    WrittenValue(m);
    WrittenValue(n);
  }
}
