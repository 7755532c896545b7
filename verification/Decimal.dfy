/** Decimal numerals, as std::to_string prints them. */
module Decimal {

  predicate IsDigit(c: char) {
    '0' <= c <= '9'
  }

  predicate AllDigits(s: string) {
    forall i :: 0 <= i < |s| ==> IsDigit(s[i])
  }

  function Print(n: nat): (s: string)
    ensures s != [] && AllDigits(s)
  {
    var last := ['0' + (n % 10) as char];
    if n < 10 then last else Print(n / 10) + last
  }

  function Value(s: string): nat
    requires AllDigits(s)
  {
    if s == [] then 0 else 10 * Value(s[..|s| - 1]) + (s[|s| - 1] - '0') as nat
  }

  lemma {:induction false} ValueOfPrint(n: nat)
    ensures Value(Print(n)) == n
  {
    var s := Print(n);
    if n >= 10 {
      ValueOfPrint(n / 10);
      assert s[..|s| - 1] == Print(n / 10);
    } else {
      assert s[..|s| - 1] == [];
    }
  }

  lemma PrintInjective(m: nat, n: nat)
    requires Print(m) == Print(n)
    ensures m == n
  {
    ValueOfPrint(m);
    ValueOfPrint(n);
  }

  /** What a digit appended to a numeral does to both functions, and the numerals of one digit. */
  lemma Numerals(n: nat, d: nat)
    requires 0 < n && d < 10
    ensures Print(10 * n + d) == Print(n) + Print(d) && Print(d) == ["0123456789"[d]]
    ensures Value(Print(n) + ["0123456789"[d]]) == 10 * n + d
  {
    assert "0123456789"[d] == '0' + d as char;
    assert (10 * n + d) / 10 == n && (10 * n + d) % 10 == d;
    ValueOfPrint(10 * n + d);
  }
}
