/** Decimal numerals, as Python's str() writes an int. */
module Numerals {

  predicate IsDigit(c: char) {
    '0' <= c <= '9'
  }

  predicate AllDigits(s: string) {
    forall i | 0 <= i < |s| :: IsDigit(s[i])
  }

  function Decimal(n: nat): (s: string)
    ensures s != [] && AllDigits(s)
  {
    var last := "0123456789"[n % 10];
    if n < 10 then [last] else Decimal(n / 10) + [last]
  }

  /** What a run of digits stands for. */
  function Value(s: string): nat
    requires AllDigits(s)
  {
    if s == [] then 0 else 10 * Value(s[..|s| - 1]) + (s[|s| - 1] as int - '0' as int)
  }

  lemma {:induction false} ValueOfDecimal(n: nat)
    ensures Value(Decimal(n)) == n
  {
    if n >= 10 {
      ValueOfDecimal(n / 10);
      assert Decimal(n)[..|Decimal(n)| - 1] == Decimal(n / 10);
    }
  }

  /** And it is the shortest: no leading zero. */
  lemma {:induction false} NoLeadingZero(n: nat)
    ensures n > 0 ==> Decimal(n)[0] != '0'
    ensures n < 10 ==> |Decimal(n)| == 1
  {
    if n >= 10 {
      NoLeadingZero(n / 10);
    }
  }

  function IntText(n: int): (s: string)
    ensures s != [] && (forall i | 0 <= i < |s| :: IsDigit(s[i]) || s[i] == '-')
  {
    if n < 0 then "-" + Decimal(-n) else Decimal(n)
  }

  lemma IntTextInjective(a: int, b: int)
    requires IntText(a) == IntText(b)
    ensures a == b
  {
    var m, n := if a < 0 then -a else a, if b < 0 then -b else b;
    ValueOfDecimal(m);
    ValueOfDecimal(n);
    assert a < 0 <==> IntText(a)[0] == '-';
    assert b < 0 <==> IntText(b)[0] == '-';
    assert a < 0 ==> IntText(a)[1..] == Decimal(m);
    assert b < 0 ==> IntText(b)[1..] == Decimal(n);
  }
}
