/** Decimal texts, and how concatenations come apart again. */
module Decimals {

  function Hex(n: nat): char
    requires n < 16
  {
    if n < 10 then '0' + n as char else 'a' + (n - 10) as char
  }

  predicate Digit(c: char) {
    '0' <= c <= '9'
  }

  function NatText(n: nat): string {
    if n < 10 then [Hex(n)] else NatText(n / 10) + [Hex(n % 10)]
  }

  function NumberText(n: int): string {
    if n < 0 then "-" + NatText(-n) else NatText(n)
  }

  lemma Split(p: string, x: string, q: string, y: string)
    requires p + x == q + y && |p| == |q|
    ensures p == q && x == y
  {
    assert (p + x)[..|p|] == p && (q + y)[..|q|] == q;
    assert (p + x)[|p|..] == x && (q + y)[|q|..] == y;
  }

  lemma Regroup(p: string, q: string, x: string)
    ensures (p + q) + x == p + (q + x)
  {
  }

  lemma {:induction false} NatDigits(n: nat)
    ensures NatText(n) != "" && forall i :: 0 <= i < |NatText(n)| ==> Digit(NatText(n)[i])
  {
    if n >= 10 {
      NatDigits(n / 10);
    }
  }

  lemma {:induction false} NatInjective(m: nat, n: nat)
    requires NatText(m) == NatText(n)
    ensures m == n
  {
    NatDigits(m / 10);
    NatDigits(n / 10);
    if m >= 10 && n >= 10 {
      Split(NatText(m / 10), [Hex(m % 10)], NatText(n / 10), [Hex(n % 10)]);
      NatInjective(m / 10, n / 10);
      assert [Hex(m % 10)][0] == [Hex(n % 10)][0];
    }
  }
}
