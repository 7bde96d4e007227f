/** Numbers as a template literal prints them. */
module Decimals {
  function Digit(d: nat): char
    requires d < 10
  {
    ('0' as int + d) as char
  }

  predicate IsDigit(c: char) {
    '0' as int <= c as int <= '9' as int
  }

  function Decimal(n: nat): string {
    if n < 10 then [Digit(n)] else Decimal(n / 10) + [Digit(n % 10)]
  }

  function Integer(i: int): string {
    if i < 0 then "-" + Decimal(-i) else Decimal(i)
  }

  function DigitValue(c: char): nat
    requires IsDigit(c)
  {
    c as int - '0' as int
  }

  /** The number a string of digits stands for. */
  function Value(s: string): nat
    requires forall c :: c in s ==> IsDigit(c)
  {
    if s == [] then 0
    else
      assert s[|s| - 1] in s;
      10 * Value(s[..|s| - 1]) + DigitValue(s[|s| - 1])
  }

  lemma {:induction false} DecimalReadsBack(n: nat)
    ensures Decimal(n) != [] && forall c :: c in Decimal(n) ==> IsDigit(c)
    ensures Value(Decimal(n)) == n
  {
    if n >= 10 {
      DecimalReadsBack(n / 10);
      assert Decimal(n)[..|Decimal(n)| - 1] == Decimal(n / 10);
    } else {
      assert Decimal(n)[..0] == [];
    }
  }

  lemma {:induction false} DecimalLength(n: nat, digits: nat, bound: nat)
    requires 1 <= digits && n < bound && bound == Power10(digits)
    ensures |Decimal(n)| <= digits
    decreases digits
  {
    if n >= 10 { DecimalLength(n / 10, digits - 1, bound / 10); }
  }

  function Power10(k: nat): nat {
    if k == 0 then 1 else 10 * Power10(k - 1)
  }

  predicate InInteger(c: char) {
    IsDigit(c) || c == '-'
  }

  /** Different numbers print differently, and what is printed holds only digits and a minus sign. */
  lemma IntegerIsInjective(i: int, j: int)
    ensures Integer(i) == Integer(j) ==> i == j
    ensures forall c :: c in Integer(i) ==> InInteger(c)
  {
    DecimalReadsBack(if i < 0 then -i else i);
    DecimalReadsBack(if j < 0 then -j else j);
    if Integer(i) == Integer(j) {
      var a, b := Decimal(if i < 0 then -i else i), Decimal(if j < 0 then -j else j);
      assert a[0] in a && b[0] in b;
      assert Integer(i)[0] == (if i < 0 then '-' else a[0]) && Integer(j)[0] == (if j < 0 then '-' else b[0]);
      if i < 0 { assert Integer(i)[1..] == a && Integer(j)[1..] == b; }
      assert Value(a) == Value(b);
    }
  }
}
