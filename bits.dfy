/**
 * Rust's bitwise operators on unsigned integers, defined one bit at a time
 * on natural numbers, with the laws the emulator relies on.
 */
module Bits {
  import opened Types

  function Pow2(n: nat): (r: nat)
    ensures r >= 1
  {
    if n == 0 then 1 else 2 * Pow2(n - 1)
  }

  /** Bit `k` of `x`, that is `(x >> k) & 1 == 1`. */
  function Bit(x: nat, k: nat): bool
  {
    if k == 0 then x % 2 == 1 else Bit(x / 2, k - 1)
  }

  /** `x & y` */
  function And(x: nat, y: nat): (r: nat)
    ensures r <= x && r <= y
    decreases x + y
  {
    if x == 0 || y == 0 then 0
    else 2 * And(x / 2, y / 2) + (if x % 2 == 1 && y % 2 == 1 then 1 else 0)
  }

  /** `x | y` */
  function Or(x: nat, y: nat): nat
    decreases x + y
  {
    if x == 0 && y == 0 then 0
    else 2 * Or(x / 2, y / 2) + (if x % 2 == 1 || y % 2 == 1 then 1 else 0)
  }

  /** `x ^ y` */
  function Xor(x: nat, y: nat): nat
    decreases x + y
  {
    if x == 0 && y == 0 then 0
    else 2 * Xor(x / 2, y / 2) + (if (x % 2 == 1) != (y % 2 == 1) then 1 else 0)
  }

  /** `x | y` on u8 */
  function Or8(x: u8, y: u8): (r: u8)
    ensures forall k: nat :: Bit(r, k) == (Bit(x, k) || Bit(y, k))
  {
    Bounded(x, y, 8);
    forall k: nat ensures Bit(Or(x, y), k) == (Bit(x, k) || Bit(y, k)) {
      BitOr(x, y, k);
    }
    Or(x, y)
  }

  /** `x ^ y` on u8 */
  function Xor8(x: u8, y: u8): (r: u8)
    ensures forall k: nat :: Bit(r, k) == (Bit(x, k) != Bit(y, k))
  {
    Bounded(x, y, 8);
    forall k: nat ensures Bit(Xor(x, y), k) == (Bit(x, k) != Bit(y, k)) {
      BitXor(x, y, k);
    }
    Xor(x, y)
  }

  /** `!x` on u8: every one of the eight bits flipped. */
  function Not8(x: u8): (r: u8)
    ensures forall k: nat :: Bit(r, k) == (k < 8 && !Bit(x, k))
  {
    var r := Xor8(x, 0xFF);
    assert forall k: nat :: Bit(r, k) == (k < 8 && !Bit(x, k)) by {
      forall k: nat ensures Bit(r, k) == (k < 8 && !Bit(x, k)) {
        AllOnes(8, k);
        SmallPowers();
        if k >= 8 {
          HighBitsClear(x, 8, k);
        }
      }
    }
    r
  }

  /** `x << n` on u8: the bits shifted out at the top are lost. */
  function Shl8(x: u8, n: nat): u8
  {
    (x * Pow2(n)) % U8_LIMIT
  }


  lemma SmallPowers()
    ensures Pow2(0) == 1 && Pow2(1) == 2 && Pow2(2) == 4 && Pow2(3) == 8
    ensures Pow2(4) == 16 && Pow2(5) == 32 && Pow2(6) == 64 && Pow2(7) == 128
    ensures Pow2(8) == 256 && Pow2(16) == 0x1_0000
  {
    assert Pow2(4) == 16;
    assert Pow2(8) == 256;
    assert Pow2(12) == 0x1000;
  }

  lemma {:induction false} BitZero(k: nat)
    ensures !Bit(0, k)
  {
    if k > 0 {
      BitZero(k - 1);
    }
  }

  lemma {:induction false} BitAnd(x: nat, y: nat, k: nat)
    ensures Bit(And(x, y), k) == (Bit(x, k) && Bit(y, k))
    decreases k
  {
    if x == 0 || y == 0 {
      BitZero(k);
    } else if k > 0 {
      BitAnd(x / 2, y / 2, k - 1);
    }
  }

  lemma {:induction false} BitOr(x: nat, y: nat, k: nat)
    ensures Bit(Or(x, y), k) == (Bit(x, k) || Bit(y, k))
    decreases k
  {
    if x == 0 && y == 0 {
      BitZero(k);
    } else if k > 0 {
      BitOr(x / 2, y / 2, k - 1);
    }
  }

  lemma {:induction false} BitXor(x: nat, y: nat, k: nat)
    ensures Bit(Xor(x, y), k) == (Bit(x, k) != Bit(y, k))
    decreases k
  {
    if x == 0 && y == 0 {
      BitZero(k);
    } else if k > 0 {
      BitXor(x / 2, y / 2, k - 1);
    }
  }

  /** `1 << j` has exactly bit `j` set. */
  lemma {:induction false} BitPow2(j: nat, k: nat)
    ensures Bit(Pow2(j), k) == (j == k)
    decreases k
  {
    if k == 0 {
    } else if j == 0 {
      BitZero(k - 1);
    } else {
      BitPow2(j - 1, k - 1);
    }
  }

  /** `(1 << n) - 1` has exactly the bits below `n` set. */
  lemma {:induction false} AllOnes(n: nat, k: nat)
    ensures Bit(Pow2(n) - 1, k) == (k < n)
    decreases k
  {
    if n == 0 {
      BitZero(k);
    } else if k > 0 {
      assert (Pow2(n) - 1) / 2 == Pow2(n - 1) - 1;
      AllOnes(n - 1, k - 1);
    }
  }

  /** A number below `2^n` has no bit at or above `n`. */
  lemma {:induction false} HighBitsClear(x: nat, n: nat, k: nat)
    requires x < Pow2(n) && n <= k
    ensures !Bit(x, k)
    decreases k
  {
    if n == 0 {
      BitZero(k);
    } else {
      HighBitsClear(x / 2, n - 1, k - 1);
    }
  }

  /** `|` and `^` of two n-bit numbers stay n-bit numbers. */
  lemma {:induction false} Bounded(x: nat, y: nat, n: nat)
    requires x < Pow2(n) && y < Pow2(n)
    ensures Or(x, y) < Pow2(n) && Xor(x, y) < Pow2(n)
    decreases n
  {
    if n > 0 && !(x == 0 && y == 0) {
      Bounded(x / 2, y / 2, n - 1);
    }
  }

  /** Two n-bit numbers with the same bits are equal. */
  lemma {:induction false} Extensional(x: nat, y: nat, n: nat)
    requires x < Pow2(n) && y < Pow2(n)
    requires forall k: nat :: k < n ==> Bit(x, k) == Bit(y, k)
    ensures x == y
    decreases n
  {
    if n > 0 {
      assert Bit(x, 0) == Bit(y, 0);
      forall k: nat | k < n - 1
        ensures Bit(x / 2, k) == Bit(y / 2, k)
      {
        assert Bit(x, k + 1) == Bit(y, k + 1);
      }
      Extensional(x / 2, y / 2, n - 1);
    }
  }

  /** `x ^ x == 0` */
  lemma {:induction false} XorSelf(x: nat)
    ensures Xor(x, x) == 0
    decreases x
  {
    if x != 0 {
      XorSelf(x / 2);
    }
  }

  /**
   * When `y` fits below bit `n`, `(x << n) | y` is `x * 2^n + y`: the two
   * operands share no bit, so `|` adds them.
   */
  lemma {:induction false} OrDisjoint(x: nat, y: nat, n: nat)
    requires y < Pow2(n)
    ensures Or(x * Pow2(n), y) == x * Pow2(n) + y
    decreases n
  {
    if n == 0 {
      OrZero(x);
    } else {
      var p := Pow2(n - 1);
      assert x * Pow2(n) == 2 * (x * p);
      if x * Pow2(n) != 0 || y != 0 {
        assert (x * Pow2(n)) / 2 == x * p;
        OrDisjoint(x, y / 2, n - 1);
      }
    }
  }

  lemma {:induction false} OrZero(x: nat)
    ensures Or(x, 0) == x
    decreases x
  {
    if x != 0 {
      OrZero(x / 2);
    }
  }

  /** `x & 0xFF == x` for a byte. */
  lemma AndLowByte(x: u8)
    ensures And(x, 0xFF) == x
  {
    forall k: nat | k < 8 ensures Bit(And(x, 0xFF), k) == Bit(x, k) {
      BitAnd(x, 0xFF, k);
      AllOnes(8, k);
    }
    Extensional(And(x, 0xFF), x, 8);
  }

  /** `x & (1 << k) != 0` tests bit `k`. */
  lemma BitTest(x: nat, k: nat)
    ensures (And(x, Pow2(k)) != 0) == Bit(x, k)
  {
    BitAnd(x, Pow2(k), k);
    BitPow2(k, k);
    BitZero(k);
    if !Bit(x, k) {
      PowMonotone(k, k + 1);
      forall j: nat | j < k + 1 ensures Bit(And(x, Pow2(k)), j) == Bit(0, j) {
        BitAnd(x, Pow2(k), j);
        BitPow2(k, j);
        BitZero(j);
      }
      Extensional(And(x, Pow2(k)), 0, k + 1);
    }
  }

  lemma {:induction false} PowMonotone(k: nat, n: nat)
    requires k < n
    ensures Pow2(k) < Pow2(n)
    decreases n
  {
    if k < n - 1 {
      PowMonotone(k, n - 1);
    }
  }

  /** The low four bits of a number are its bits 0 to 3. */
  lemma LowNibble(x: nat, y: nat)
    requires forall k: nat :: k < 4 ==> Bit(x, k) == Bit(y, k)
    ensures x % 16 == y % 16
  {
    LowNibbleBits(x);
    LowNibbleBits(y);
    assert Bit(x, 0) == Bit(y, 0) && Bit(x, 1) == Bit(y, 1);
    assert Bit(x, 2) == Bit(y, 2) && Bit(x, 3) == Bit(y, 3);
  }

  lemma LowNibbleBits(x: nat)
    ensures x % 16 == (if Bit(x, 0) then 1 else 0) + (if Bit(x, 1) then 2 else 0)
      + (if Bit(x, 2) then 4 else 0) + (if Bit(x, 3) then 8 else 0)
  {
    var x1 := x / 2;
    var x2 := x1 / 2;
    var x3 := x2 / 2;
    LowDigits(x);
    assert Bit(x, 1) == Bit(x1, 0);
    assert Bit(x, 2) == Bit(x1, 1) == Bit(x2, 0);
    assert Bit(x, 3) == Bit(x1, 2) == Bit(x2, 1) == Bit(x3, 0);
  }

  /** The low nibble written out in binary digits. */
  lemma LowDigits(x: nat)
    ensures x % 16 == x % 2 + 2 * ((x / 2) % 2) + 4 * ((x / 2 / 2) % 2) + 8 * ((x / 2 / 2 / 2) % 2)
  {
    var x1 := x / 2;
    var x2 := x1 / 2;
    var x3 := x2 / 2;
    assert x == 2 * x1 + x % 2;
    assert x1 == 2 * x2 + x1 % 2;
    assert x2 == 2 * x3 + x2 % 2;
    assert x == 16 * (x3 / 2) + 8 * (x3 % 2) + 4 * (x2 % 2) + 2 * (x1 % 2) + x % 2;
  }

  /** Bit 7 of a byte is set exactly when the byte is at least 0x80. */
  lemma TopBit(x: u8)
    ensures Bit(x, 7) == (0x80 <= x)
  {
    var x1 := x / 2;
    var x2 := x1 / 2;
    var x3 := x2 / 2;
    var x4 := x3 / 2;
    var x5 := x4 / 2;
    var x6 := x5 / 2;
    var x7 := x6 / 2;
    assert Bit(x, 7) == Bit(x1, 6);
    assert Bit(x1, 6) == Bit(x2, 5);
    assert Bit(x2, 5) == Bit(x3, 4);
    assert Bit(x3, 4) == Bit(x4, 3);
    assert Bit(x4, 3) == Bit(x5, 2);
    assert Bit(x5, 2) == Bit(x6, 1);
    assert Bit(x6, 1) == Bit(x7, 0);
    assert x7 == x / 128;
  }

  /** `x << 4` on u8 keeps only the low nibble, moved to the top. */
  lemma ShiftNibble(x: u8)
    ensures Shl8(x, 4) == (x % 16) * 16
  {
    SmallPowers();
    var q := x / 16;
    assert x * 16 == 256 * q + (x % 16) * 16;
  }

  /** `1 << k` on u8 is `2^k` while k < 8. */
  lemma ShiftOne(k: nat)
    requires k < 8
    ensures Shl8(1, k) == Pow2(k)
  {
    SmallPowers();
    if k < 7 {
      PowMonotone(k, 7);
    }
  }
}
