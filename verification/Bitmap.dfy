/**
 * The priority bitmaps. A machine word is modelled by its value as a natural number, and the
 * bitwise operators by their definition on binary digits.
 */
module Bitmap {
  import opened Basics

  /** `1 << i` */
  function Shl(i: nat): (m: nat)
    ensures m > 0
  {
    if i == 0 then 1 else 2 * Shl(i - 1)
  }

  /** `a | b` */
  function Or(a: nat, b: nat): nat {
    if a == 0 && b == 0 then 0
    else 2 * Or(a / 2, b / 2) + (if a % 2 == 1 || b % 2 == 1 then 1 else 0)
  }

  /** `a & !b` */
  function AndNot(a: nat, b: nat): nat {
    if a == 0 then 0
    else 2 * AndNot(a / 2, b / 2) + (if a % 2 == 1 && b % 2 == 0 then 1 else 0)
  }

  predicate Bit(b: nat, i: nat) {
    if i == 0 then b % 2 == 1 else Bit(b / 2, i - 1)
  }

  /** The position of the most significant set bit, `None` for zero. */
  function Msb(n: nat): (r: Option<nat>)
    ensures r.None? <==> n == 0
  {
    if n == 0 then None else if n == 1 then Some(0) else Some(Msb(n / 2).value + 1)
  }

  lemma {:induction false} BitOfZero(i: nat)
    ensures !Bit(0, i)
  {
    if i > 0 { BitOfZero(i - 1); }
  }

  lemma {:induction false} BitOfShl(i: nat, j: nat)
    ensures Bit(Shl(i), j) <==> i == j
  {
    if i > 0 && j > 0 {
      BitOfShl(i - 1, j - 1);
      assert Shl(i) / 2 == Shl(i - 1);
    } else if j > 0 {
      BitOfZero(j - 1);
      assert Shl(0) / 2 == 0;
    }
  }

  lemma {:induction false} BitOfOr(a: nat, b: nat, j: nat)
    ensures Bit(Or(a, b), j) <==> Bit(a, j) || Bit(b, j)
  {
    if a == 0 && b == 0 {
      BitOfZero(j);
    } else {
      assert Or(a, b) / 2 == Or(a / 2, b / 2);
      if j > 0 { BitOfOr(a / 2, b / 2, j - 1); }
    }
  }

  lemma {:induction false} BitOfAndNot(a: nat, b: nat, j: nat)
    ensures Bit(AndNot(a, b), j) <==> Bit(a, j) && !Bit(b, j)
  {
    if a == 0 {
      BitOfZero(j);
    } else {
      assert AndNot(a, b) / 2 == AndNot(a / 2, b / 2);
      if j > 0 { BitOfAndNot(a / 2, b / 2, j - 1); }
    }
  }

  /** `|= 1 << i` sets bit `i` and leaves every other bit alone. */
  lemma SetBit(b: nat, i: nat, j: nat)
    ensures Bit(Or(b, Shl(i)), j) <==> j == i || Bit(b, j)
  {
    BitOfOr(b, Shl(i), j);
    BitOfShl(i, j);
  }

  /** `&= !(1 << i)` clears bit `i` and leaves every other bit alone. */
  lemma ClearBit(b: nat, i: nat, j: nat)
    ensures Bit(AndNot(b, Shl(i)), j) <==> j != i && Bit(b, j)
  {
    BitOfAndNot(b, Shl(i), j);
    BitOfShl(i, j);
  }

  /** `Msb` is the greatest position whose bit is set. */
  lemma {:induction false} MsbIsHighest(n: nat, j: nat)
    requires n > 0
    ensures Bit(n, Msb(n).value)
    ensures Bit(n, j) ==> j <= Msb(n).value
  {
    if n == 1 {
      if j > 0 { BitOfZero(j - 1); }
    } else if j > 0 {
      MsbIsHighest(n / 2, j - 1);
    } else {
      MsbIsHighest(n / 2, 0);
    }
  }
}
