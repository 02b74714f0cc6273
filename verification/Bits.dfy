/** Unsigned bit arithmetic on natural numbers, independent of a machine width.
    A machine word of `w` bits is a natural number below `Pow2(w)`. */
module Bits {

  function Pow2(n: nat): (p: nat)
    ensures p > 0
  {
    if n == 0 then 1 else 2 * Pow2(n - 1)
  }

  predicate Bit(a: nat, i: nat) {
    if i == 0 then a % 2 == 1 else Bit(a / 2, i - 1)
  }

  function Or(a: nat, b: nat): nat {
    if a == 0 then b
    else if b == 0 then a
    else 2 * Or(a / 2, b / 2) + (if a % 2 == 1 || b % 2 == 1 then 1 else 0)
  }

  function And(a: nat, b: nat): nat {
    if a == 0 || b == 0 then 0
    else 2 * And(a / 2, b / 2) + (if a % 2 == 1 && b % 2 == 1 then 1 else 0)
  }

  /** The position of the highest set bit; zero for zero. */
  function Log2(value: nat): nat {
    if value <= 1 then 0 else 1 + Log2(value / 2)
  }

  lemma {:induction false} Log2Brackets(value: nat)
    requires value > 0
    ensures Pow2(Log2(value)) <= value < Pow2(Log2(value) + 1)
  {
    if value > 1 {
      Log2Brackets(value / 2);
    }
  }

  lemma {:induction false} Log2OfPow2(n: nat)
    ensures Log2(Pow2(n)) == n
  {
    if n > 0 {
      Log2OfPow2(n - 1);
    }
  }

  lemma {:induction false} Pow2Monotone(m: nat, n: nat)
    requires m <= n
    ensures Pow2(m) <= Pow2(n)
    ensures m < n ==> 2 * Pow2(m) <= Pow2(n)
    decreases n - m
  {
    if m < n {
      Pow2Monotone(m + 1, n);
    }
  }

  // ----- bits decide equality -----

  lemma {:induction false} OrBit(a: nat, b: nat, i: nat)
    ensures Bit(Or(a, b), i) <==> Bit(a, i) || Bit(b, i)
  {
    if a != 0 && b != 0 && i != 0 {
      OrBit(a / 2, b / 2, i - 1);
    } else if i != 0 {
      ZeroBit(i);
    }
  }

  lemma {:induction false} AndBit(a: nat, b: nat, i: nat)
    ensures Bit(And(a, b), i) <==> Bit(a, i) && Bit(b, i)
  {
    if a != 0 && b != 0 && i != 0 {
      AndBit(a / 2, b / 2, i - 1);
    } else if i != 0 {
      ZeroBit(i);
    }
  }

  lemma {:induction false} ZeroBit(i: nat)
    ensures !Bit(0, i)
  {
    if i != 0 {
      ZeroBit(i - 1);
    }
  }

  lemma {:induction false} Pow2Bit(k: nat, i: nat)
    ensures Bit(Pow2(k), i) <==> i == k
  {
    if k == 0 {
      if i != 0 { ZeroBit(i - 1); }
    } else if i != 0 {
      Pow2Bit(k - 1, i - 1);
    }
  }

  /** Two words with the same bits are equal. */
  lemma {:induction false} SameBits(a: nat, b: nat)
    requires forall i: nat :: Bit(a, i) <==> Bit(b, i)
    ensures a == b
    decreases a + b
  {
    if a != 0 || b != 0 {
      assert Bit(a, 0) <==> Bit(b, 0);
      forall i: nat ensures Bit(a / 2, i) <==> Bit(b / 2, i) {
        assert Bit(a, i + 1) <==> Bit(b, i + 1);
      }
      SameBits(a / 2, b / 2);
    }
  }

  /** A word that fits in `k` bits has no bit from `k` on, and conversely. */
  lemma {:induction false} HighBitsClear(a: nat, k: nat, i: nat)
    requires a < Pow2(k) && i >= k
    ensures !Bit(a, i)
  {
    if k == 0 {
      ZeroBit(i);
    } else {
      HighBitsClear(a / 2, k - 1, i - 1);
    }
  }

  lemma {:induction false} HighBitSet(a: nat, k: nat) returns (i: nat)
    requires a >= Pow2(k)
    ensures i >= k && Bit(a, i)
    decreases a
  {
    if a == 1 {
      i := 0;
    } else {
      i := HighBitSet(a / 2, if k == 0 then 0 else k - 1);
      i := i + 1;
    }
  }

  // ----- shifts and truncation, one bit at a time -----

  /** `a << k`, without a word size. */
  function Shl(a: nat, k: nat): nat {
    if k == 0 then a else 2 * Shl(a, k - 1)
  }

  /** `a >> k`. */
  function Shr(a: nat, k: nat): nat {
    if k == 0 then a else Shr(a / 2, k - 1)
  }

  /** The low `k` bits. */
  function Low(a: nat, k: nat): nat {
    if k == 0 then 0 else 2 * Low(a / 2, k - 1) + a % 2
  }

  lemma {:induction false} LowOfSmall(a: nat, k: nat)
    requires a < Pow2(k)
    ensures Low(a, k) == a
  {
    if k > 0 {
      LowOfSmall(a / 2, k - 1);
    }
  }

  lemma {:induction false} LowOfPow2(k: nat)
    ensures Low(Pow2(k), k) == 0
  {
    if k > 0 {
      LowOfPow2(k - 1);
    }
  }

  lemma {:induction false} ShlZero(k: nat)
    ensures Shl(0, k) == 0
  {
    if k > 0 {
      ShlZero(k - 1);
    }
  }

  /** Shifting moves powers of two and bounds alike. */
  lemma {:induction false} ShlBound(a: nat, s: nat, k: nat)
    ensures a < Pow2(s) ==> Shl(a, k) + Pow2(k) <= Pow2(s + k)
    ensures a == Pow2(s) ==> Shl(a, k) == Pow2(s + k)
  {
    if k > 0 {
      ShlBound(a, s, k - 1);
    }
  }

  lemma {:induction false} ShlOfDouble(a: nat, k: nat)
    ensures Shl(2 * a, k) == Shl(a, k + 1)
  {
    if k > 0 {
      ShlOfDouble(a, k - 1);
    }
  }

  /** Writing an index into freshly shifted-in zero bits is addition, and both parts can
      be read back. */
  lemma {:induction false} OrIntoShifted(high: nat, k: nat, low: nat)
    requires low < Pow2(k)
    ensures Or(Shl(high, k), low) == Shl(high, k) + low
    ensures Shr(Shl(high, k) + low, k) == high
    ensures Low(Shl(high, k) + low, k) == low
  {
    if k > 0 {
      OrIntoShifted(high, k - 1, low / 2);
      var h := Shl(high, k - 1);
      assert (2 * h + low) / 2 == h + low / 2 && (2 * h + low) % 2 == low % 2;
    }
  }

  lemma {:induction false} ShlBit(a: nat, k: nat, i: nat)
    ensures Bit(Shl(a, k), i) <==> i >= k && Bit(a, i - k)
  {
    if k > 0 {
      var half := Shl(a, k - 1);
      assert (2 * half) / 2 == half && (2 * half) % 2 == 0;
      if i > 0 {
        ShlBit(a, k - 1, i - 1);
      }
    }
  }

  lemma {:induction false} LowBit(a: nat, k: nat, i: nat)
    ensures Bit(Low(a, k), i) <==> i < k && Bit(a, i)
  {
    if k == 0 {
      ZeroBit(i);
    } else {
      var low := Low(a / 2, k - 1);
      assert (2 * low + a % 2) / 2 == low && (2 * low + a % 2) % 2 == a % 2;
      if i > 0 {
        LowBit(a / 2, k - 1, i - 1);
      }
    }
  }

  lemma {:induction false} OrSelf(a: nat)
    ensures Or(a, a) == a
  {
    if a != 0 {
      OrSelf(a / 2);
    }
  }
}
