/** Decimal printing of natural numbers, as `String(n)` and template literals do it. */
module Decimal {
  import opened Basics

  predicate IsDigit(c: char) {
    '0' <= c <= '9'
  }

  function Digit(d: nat): char
    requires d < 10
  {
    ['0', '1', '2', '3', '4', '5', '6', '7', '8', '9'][d]
  }

  function Print(n: nat): string {
    if n < 10 then [Digit(n)] else Print(n / 10) + [Digit(n % 10)]
  }

  /** `parseInt(text, 10)` on a string of digits. */
  function Parse(s: string): nat
    requires forall i :: 0 <= i < |s| ==> IsDigit(s[i])
  {
    if s == "" then 0 else assert IsDigit(s[|s| - 1]); 10 * Parse(ButLast(s)) + (Last(s) as nat - '0' as nat)
  }

  lemma {:induction false} PrintsDigits(n: nat)
    ensures Print(n) != ""
    ensures forall i :: 0 <= i < |Print(n)| ==> IsDigit(Print(n)[i])
  {
    if n >= 10 {
      PrintsDigits(n / 10);
    }
  }

  /** A last figure d makes a number ten times as large plus d; nothing stands before the first one. */
  lemma PrintAppends(n: nat, d: nat)
    requires d < 10
    ensures Print(10 * n + d) == (if n == 0 then "" else Print(n)) + ["0123456789"[d]]
  {
    var m := 10 * n + d;
    assert m / 10 == n && m % 10 == d;
    assert "0123456789"[d] == Digit(d);
  }

  /** Reading back the cached limit gives the number that was stored. */
  lemma {:induction false} ParsePrint(n: nat)
    ensures forall i :: 0 <= i < |Print(n)| ==> IsDigit(Print(n)[i])
    ensures Parse(Print(n)) == n
  {
    PrintsDigits(n);
    if n >= 10 {
      ParsePrint(n / 10);
      AppendLast(Print(n / 10), Digit(n % 10));
    }
  }

  lemma PrintInjective(m: nat, n: nat)
    requires Print(m) == Print(n)
    ensures m == n
  {
    ParsePrint(m);
    ParsePrint(n);
  }
}
