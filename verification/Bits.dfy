/** The bitwise operators of C on unsigned words, bit by bit, and what they do to packed fields. */
module Bits {
  import opened Tally

  function Pow2(n: nat): (p: nat)
    ensures p > 0
  {
    if n == 0 then 1 else 2 * Pow2(n - 1)
  }

  function Shl(x: nat, n: nat): nat { if n == 0 then x else 2 * Shl(x, n - 1) }

  function Shr(x: nat, n: nat): nat { if n == 0 then x else Shr(x / 2, n - 1) }

  function And(x: nat, y: nat): nat {
    if x == 0 then 0 else (x % 2) * (y % 2) + 2 * And(x / 2, y / 2)
  }

  function Or(x: nat, y: nat): nat
    decreases x + y
  {
    if x == 0 && y == 0 then 0 else (if x % 2 + y % 2 == 0 then 0 else 1) + 2 * Or(x / 2, y / 2)
  }

  lemma {:induction false} ShlIs(x: nat, n: nat)
    ensures Shl(x, n) == Pow2(n) * x
  {
    if n > 0 {
      ShlIs(x, n - 1);
      assert Pow2(n) * x == 2 * (Pow2(n - 1) * x);
    }
  }

  /** Dropping the n low bits and putting zeros there rounds down to a multiple of 2^n. */
  lemma {:induction false} ShrBounds(x: nat, n: nat)
    ensures Shl(Shr(x, n), n) <= x < Shl(Shr(x, n) + 1, n)
  {
    if n > 0 { ShrBounds(x / 2, n - 1); }
  }

  lemma {:induction false} ShlNext(x: nat, n: nat)
    ensures Shl(x + 1, n) == Shl(x, n) + Pow2(n)
  {
    if n > 0 { ShlNext(x, n - 1); }
  }

  lemma {:induction false} ShlGrows(x: nat, y: nat, n: nat)
    requires x <= y
    ensures Shl(x, n) <= Shl(y, n)
  {
    if n > 0 { ShlGrows(x, y, n - 1); }
  }

  lemma {:induction false} ShrGrows(x: nat, y: nat, n: nat)
    requires x <= y
    ensures Shr(x, n) <= Shr(y, n)
  {
    if n > 0 { ShrGrows(x / 2, y / 2, n - 1); }
  }

  lemma {:induction false} ShrShr(x: nat, m: nat, n: nat)
    ensures Shr(Shr(x, m), n) == Shr(x, m + n)
    decreases m
  {
    if m > 0 { ShrShr(x / 2, m - 1, n); }
  }

  /** The low bits and the high bits of a word do not interact. */
  lemma {:induction false} AndSplit(n: nat, a: nat, b: nat, c: nat, d: nat)
    requires a < Pow2(n) && c < Pow2(n)
    ensures And(a + Shl(b, n), c + Shl(d, n)) == And(a, c) + Shl(And(b, d), n)
  {
    hide And;
    if n == 0 {
      AndZero(0);
    } else {
      AndSplit(n - 1, a / 2, b, c / 2, d);
      AndHalf(a + Shl(b, n), c + Shl(d, n));
      AndHalf(a, c);
    }
  }

  lemma {:induction false} OrSplit(n: nat, a: nat, b: nat, c: nat, d: nat)
    requires a < Pow2(n) && c < Pow2(n)
    ensures Or(a + Shl(b, n), c + Shl(d, n)) == Or(a, c) + Shl(Or(b, d), n)
  {
    hide Or;
    if n == 0 {
      OrZero(0);
    } else {
      OrSplit(n - 1, a / 2, b, c / 2, d);
      OrHalf(a + Shl(b, n), c + Shl(d, n));
      OrHalf(a, c);
    }
  }

  lemma AndHalf(x: nat, y: nat)
    ensures And(x, y) == (x % 2) * (y % 2) + 2 * And(x / 2, y / 2)
  {
  }

  lemma OrHalf(x: nat, y: nat)
    ensures Or(x, y) == (if x % 2 + y % 2 == 0 then 0 else 1) + 2 * Or(x / 2, y / 2)
  {
  }

  lemma {:induction false} AndZero(x: nat)
    ensures And(x, 0) == 0
  {
    if x > 0 { AndZero(x / 2); }
  }

  lemma {:induction false} OrZero(x: nat)
    ensures Or(x, 0) == x && Or(0, x) == x
  {
    if x > 0 { OrZero(x / 2); }
  }

  lemma {:induction false} ShlZero(n: nat)
    ensures Shl(0, n) == 0
  {
    if n > 0 { ShlZero(n - 1); }
  }

  lemma {:induction false} OrTest(x: nat, y: nat)
    ensures Or(x, y) == 0 <==> x == 0 && y == 0
    decreases x + y
  {
    if x + y > 0 { OrTest(x / 2, y / 2); }
  }

  lemma {:induction false} AndOnes(n: nat, a: nat)
    requires a < Pow2(n)
    ensures And(a, Pow2(n) - 1) == a
  {
    if n > 0 {
      assert (Pow2(n) - 1) / 2 == Pow2(n - 1) - 1;
      AndOnes(n - 1, a / 2);
    }
  }

  /** A mask of n bits from bit k on keeps exactly those bits. */
  lemma MaskKeeps(k: nat, n: nat, a: nat, f: nat, b: nat)
    requires a < Pow2(k) && f < Pow2(n)
    ensures And(a + Shl(f + Shl(b, n), k), Shl(Pow2(n) - 1, k)) == Shl(f, k)
  {
    AndSplit(k, a, f + Shl(b, n), 0, Pow2(n) - 1);
    AndSplit(n, f, b, Pow2(n) - 1, 0);
    AndOnes(n, f);
    AndZero(a);
    AndZero(b);
    ShlZero(n);
  }

  /** Or with bit k sets that bit and no other. */
  lemma BitSet(k: nat, a: nat, f: bool, b: nat)
    requires a < Pow2(k)
    ensures Or(a + Shl(Bit(f) + 2 * b, k), Shl(1, k)) == a + Shl(1 + 2 * b, k)
  {
    hide Or;
    OrSplit(k, a, Bit(f) + 2 * b, 0, 1);
    OrHalf(Bit(f) + 2 * b, 1);
    OrZero(a);
    OrZero(b);
  }

  /** And with the complement of bit k, in a word of k + 1 + m bits, clears that bit and no other. */
  lemma BitClear(k: nat, m: nat, a: nat, f: bool, b: nat)
    requires a < Pow2(k) && b < Pow2(m)
    ensures And(a + Shl(Bit(f) + 2 * b, k), Pow2(k) - 1 + Shl(2 * (Pow2(m) - 1), k)) == a + Shl(2 * b, k)
  {
    hide And;
    AndSplit(k, a, Bit(f) + 2 * b, Pow2(k) - 1, 2 * (Pow2(m) - 1));
    ClearLow(m, f, b);
    AndOnes(k, a);
  }

  lemma ClearLow(m: nat, f: bool, b: nat)
    requires b < Pow2(m)
    ensures And(Bit(f) + 2 * b, 2 * (Pow2(m) - 1)) == 2 * b
  {
    var x, y := Bit(f) + 2 * b, 2 * (Pow2(m) - 1);
    assert x / 2 == b && y / 2 == Pow2(m) - 1 && y % 2 == 0;
    AndHalf(x, y);
    AndOnes(m, b);
  }

  // ---------------------------------------------------------------- the same with the powers written out

  lemma FieldKept(k: nat, n: nat, p: nat, q: nat, a: nat, f: nat, b: nat, x: nat, mask: nat)
    requires p == Pow2(k) && q == Pow2(n) && a < p && f < q
    requires x == a + p * (f + q * b) && mask == p * (q - 1)
    ensures And(x, mask) == p * f
  {
    hide *;
    ShlIs(b, n);
    var y := f + Shl(b, n);
    ShlIs(y, k);
    ShlIs(q - 1, k);
    ShlIs(f, k);
    MaskKeeps(k, n, a, f, b);
  }

  lemma BitSetAt(k: nat, p: nat, a: nat, f: bool, b: nat)
    requires p == Pow2(k) && a < p
    ensures Or(a + p * (Bit(f) + 2 * b), p) == a + p * (1 + 2 * b)
  {
    hide *;
    ShlIs(Bit(f) + 2 * b, k);
    ShlIs(1, k);
    ShlIs(1 + 2 * b, k);
    BitSet(k, a, f, b);
  }

  lemma BitClearAt(k: nat, m: nat, p: nat, q: nat, a: nat, f: bool, b: nat)
    requires p == Pow2(k) && q == Pow2(m) && a < p && b < q
    ensures And(a + p * (Bit(f) + 2 * b), p - 1 + p * (2 * (q - 1))) == a + p * (2 * b)
  {
    hide *;
    ShlIs(Bit(f) + 2 * b, k);
    ShlIs(2 * (q - 1), k);
    ShlIs(2 * b, k);
    BitClear(k, m, a, f, b);
  }

  lemma AndJoin(n: nat, p: nat, a: nat, b: nat, c: nat, d: nat, x: nat, y: nat)
    requires p == Pow2(n) && a < p && c < p && x == a + p * b && y == c + p * d
    ensures And(x, y) == And(a, c) + p * And(b, d)
  {
    hide *;
    ShlIs(b, n);
    ShlIs(d, n);
    ShlIs(And(b, d), n);
    AndSplit(n, a, b, c, d);
  }
}
