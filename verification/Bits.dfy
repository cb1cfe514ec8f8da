/** Bitwise operators on natural numbers, as Python's unbounded integers have them. */
module Bits {

  /** `a & b`. */
  function And(a: nat, b: nat): nat
    decreases a
  {
    if a == 0 then 0 else 2 * And(a / 2, b / 2) + (if a % 2 == 1 && b % 2 == 1 then 1 else 0)
  }

  /** `a | b`. */
  function Or(a: nat, b: nat): nat
    decreases a + b
  {
    if a == 0 && b == 0 then 0 else 2 * Or(a / 2, b / 2) + (if a % 2 == 1 || b % 2 == 1 then 1 else 0)
  }

  /** `a << k`. */
  function Shl(a: nat, k: nat): nat {
    if k == 0 then a else 2 * Shl(a, k - 1)
  }

  /** `a >> k`. */
  function Shr(a: nat, k: nat): nat {
    if k == 0 then a else Shr(a / 2, k - 1)
  }

  lemma {:induction false} ShlSum(a: nat, b: nat, k: nat)
    ensures Shl(a + b, k) == Shl(a, k) + Shl(b, k)
  {
    if k > 0 {
      ShlSum(a, b, k - 1);
    }
  }

  lemma {:induction false} ShlTwice(a: nat, j: nat, k: nat)
    ensures Shl(Shl(a, j), k) == Shl(a, j + k)
  {
    if k > 0 {
      ShlTwice(a, j, k - 1);
    }
  }

  lemma {:induction false} ShlMonotone(a: nat, b: nat, k: nat)
    requires a <= b
    ensures Shl(a, k) <= Shl(b, k)
  {
    if k > 0 {
      ShlMonotone(a, b, k - 1);
    }
  }

  lemma {:induction false} AndZero(a: nat)
    ensures And(a, 0) == 0
  {
    if a > 0 {
      AndZero(a / 2);
    }
  }

  /** Masking with k ones drops the bits from place k on. */
  lemma {:induction false} AndMask(a: nat, k: nat)
    ensures Shl(1, k) > 0 && And(a, Shl(1, k) - 1) + Shl(Shr(a, k), k) == a
    decreases k
  {
    if k == 0 {
      AndZero(a);
    } else {
      AndMask(a / 2, k - 1);
      assert (Shl(1, k) - 1) / 2 == Shl(1, k - 1) - 1;
    }
  }

  /** Masking with a shifted mask looks at the higher bits only. */
  lemma {:induction false} AndShl(a: nat, b: nat, k: nat)
    ensures And(a, Shl(b, k)) == Shl(And(Shr(a, k), b), k)
    decreases k
  {
    if k > 0 {
      AndShl(a / 2, b, k - 1);
    }
  }

  /** Setting bits above those of `a` adds them. */
  lemma {:induction false} OrShl(a: nat, b: nat, k: nat)
    requires a < Shl(1, k)
    ensures Or(a, Shl(b, k)) == a + Shl(b, k) == Or(Shl(b, k), a)
    decreases k
  {
    if k == 0 {
      OrZero(b);
    } else {
      OrShl(a / 2, b, k - 1);
    }
  }

  /** Setting bits in a free place between the bits of a number adds them. */
  lemma {:induction false} OrBetween(a: nat, b: nat, c: nat, j: nat, k: nat)
    requires a < Shl(1, j) && b < Shl(1, k)
    ensures Or(a + Shl(c, j + k), Shl(b, j)) == a + Shl(b, j) + Shl(c, j + k)
    decreases j
  {
    if j == 0 {
      OrShl(b, c, k);
    } else {
      OrBetween(a / 2, b, c, j - 1, k);
    }
  }

  lemma {:induction false} OrZero(b: nat)
    ensures Or(0, b) == b && Or(b, 0) == b
  {
    if b > 0 {
      OrZero(b / 2);
    }
  }

  /** The shifts the protocol uses, as products and quotients. */
  lemma Places(a: nat)
    ensures Shl(a, 1) == 2 * a && Shl(a, 2) == 4 * a && Shl(a, 3) == 8 * a && Shl(a, 4) == 16 * a
    ensures Shl(a, 5) == 32 * a && Shl(a, 6) == 64 * a && Shl(a, 7) == 128 * a && Shl(a, 8) == 256 * a
  {
    assert Shl(a, 2) == 2 * Shl(a, 1);
    assert Shl(a, 4) == 2 * Shl(a, 3) == 4 * Shl(a, 2);
    assert Shl(a, 6) == 2 * Shl(a, 5) == 4 * Shl(a, 4);
    assert Shl(a, 8) == 2 * Shl(a, 7) == 4 * Shl(a, 6);
  }

  lemma Quotients(a: nat)
    ensures Shr(a, 1) == a / 2 && Shr(a, 2) == a / 4 && Shr(a, 4) == a / 16 && Shr(a, 7) == a / 128 && Shr(a, 8) == a / 256
  {
    var q := a / 16;
    assert Shr(a, 2) == Shr(a / 2, 1) == a / 2 / 2;
    assert Shr(a, 4) == Shr(a / 2, 3) == Shr(a / 2 / 2, 2) == Shr(a / 2 / 2 / 2, 1) == a / 2 / 2 / 2 / 2 == q;
    assert Shr(a, 7) == Shr(a / 2, 6) == Shr(a / 2 / 2, 5) == Shr(a / 2 / 2 / 2, 4) == Shr(q, 3);
    assert Shr(q, 3) == Shr(q / 2, 2) == Shr(q / 2 / 2, 1) == q / 2 / 2 / 2;
    assert Shr(a, 8) == Shr(a / 2, 7) == Shr(a / 2 / 2, 6) == Shr(a / 2 / 2 / 2, 5) == Shr(q, 4);
    assert Shr(q, 4) == Shr(q / 2, 3) == Shr(q / 2 / 2, 2) == Shr(q / 2 / 2 / 2, 1) == q / 2 / 2 / 2 / 2;
  }

  lemma Mask7f(b: nat)
    ensures And(b, 0x7f) == b % 128
  {
    Places(1);
    AndMask(b, 7);
    Quotients(b);
    Places(Shr(b, 7));
  }

  lemma MaskFf(b: nat)
    ensures And(b, 0xff) == b % 256
  {
    Places(1);
    AndMask(b, 8);
    Quotients(b);
    Places(Shr(b, 8));
  }

  lemma Mask1(b: nat)
    ensures And(b, 1) == b % 2
  {
    AndZero(b / 2);
  }

  lemma Mask2(b: nat)
    ensures And(b, 2) == 2 * (b / 2 % 2)
  {
    Mask1(b / 2);
  }

  lemma Mask6(b: nat)
    ensures And(b, 6) == 2 * (b / 2 % 4)
  {
    var h := b / 2;
    assert And(b, 6) == 2 * And(h, 3);
    Places(1);
    AndMask(h, 2);
    Quotients(h);
    Places(Shr(h, 2));
  }

  lemma Mask80(b: nat)
    requires b < 256
    ensures And(b, 0x80) == if b >= 128 then 128 else 0
  {
    Places(1);
    AndShl(b, 1, 7);
    Quotients(b);
    Mask1(b / 128);
    Places(And(b / 128, 1));
  }

  lemma MaskF(h: nat)
    ensures And(h, 15) == h % 16
  {
    Places(1);
    AndMask(h, 4);
    Quotients(h);
    Places(Shr(h, 4));
  }

  lemma MaskHigh(b: nat, m: nat)
    requires m == 0xf0
    ensures And(b, m) == 16 * (b / 16 % 16)
  {
    Places(15);
    AndShl(b, 15, 4);
    Quotients(b);
    MaskF(b / 16);
    Places(b / 16 % 16);
  }

  lemma MaskF0(b: nat)
    requires b < 256
    ensures And(b, 0xf0) == b - b % 16
  {
    MaskHigh(b, 0xf0);
    HighNibble(b);
  }

  lemma HighNibble(b: nat)
    requires b < 256
    ensures 16 * (b / 16 % 16) == b - b % 16
  {
  }
}
