/** Numbers of the control kernel: exact reals, and reals extended with the two
    infinities that claims, channel bounds and age tags use. */
module Num {

  datatype Option<+T> = None | Some(value: T)

  datatype Ext = NegInf | Fin(w: real) | PosInf

  predicate Le(a: Ext, b: Ext) {
    a.NegInf? || b.PosInf? || (a.Fin? && b.Fin? && a.w <= b.w)
  }

  predicate Lt(a: Ext, b: Ext) {
    !Le(b, a)
  }

  function MaxE(a: Ext, b: Ext): Ext {
    if Le(b, a) then a else b
  }

  function MinE(a: Ext, b: Ext): Ext {
    if Le(a, b) then a else b
  }

  /** The nested max/min the source writes for every clamp. */
  function ClampE(v: Ext, lo: Ext, hi: Ext): Ext {
    MaxE(lo, MinE(hi, v))
  }

  function Abs(x: real): real {
    if x < 0.0 then -x else x
  }

  function Max(a: real, b: real): real {
    if b <= a then a else b
  }

  function Min(a: real, b: real): real {
    if a <= b then a else b
  }

  function Clamp(v: real, lo: real, hi: real): real {
    Max(lo, Min(hi, v))
  }

  /** n times a, as repeated addition. */
  function Times(n: nat, a: real): real {
    if n == 0 then 0.0 else Times(n - 1, a) + a
  }

  lemma {:induction false} TimesIsProduct(n: nat, a: real)
    ensures Times(n, a) == n as real * a
  {
    if n > 0 {
      TimesIsProduct(n - 1, a);
      OneMore(n, a);
    }
  }

  lemma OneMore(n: nat, a: real)
    requires n > 0
    ensures n as real * a == (n - 1) as real * a + a
  {
    assert n as real == (n - 1) as real + 1.0;
  }
}
