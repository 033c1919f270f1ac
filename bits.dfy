/**
 * Bit operations on non-negative integers with the meaning Python gives them
 * on its unbounded `int`: `x << k`, `x >> k`, `a | b`, `a & b`, and the bit
 * at a position. Shifts are repeated doubling and halving, and the bitwise
 * operations work one bit at a time from the least significant end, so
 * every fact below is linear arithmetic.
 */
module Bits {

  /** Python's `x << k` for a non-negative x: x doubled k times. */
  function ShiftLeft(x: nat, k: nat): nat
  {
    if k == 0 then x else 2 * ShiftLeft(x, k - 1)
  }

  /** Python's `x >> k` for a non-negative x: x halved (rounding down) k times. */
  function ShiftRight(x: nat, k: nat): nat
  {
    if k == 0 then x else ShiftRight(x / 2, k - 1)
  }

  /** Bit number i of x (bit 0 is the least significant). */
  function Bit(x: nat, i: nat): (r: nat)
    ensures r < 2
  {
    if i == 0 then x % 2 else Bit(x / 2, i - 1)
  }

  /**
   * Python's `a | b` for non-negative a and b, computed bit by bit from the
   * least significant end. It is never smaller than either operand and never
   * larger than their sum.
   */
  function BitOr(a: nat, b: nat): (r: nat)
    ensures a <= r && b <= r
    ensures r <= a + b
    decreases a + b
  {
    if a == 0 then b
    else if b == 0 then a
    else 2 * BitOr(a / 2, b / 2) + (if a % 2 == 1 || b % 2 == 1 then 1 else 0)
  }

  /**
   * Python's `a & b` for non-negative a and b, computed bit by bit from the
   * least significant end. It is never larger than either operand.
   */
  function BitAnd(a: nat, b: nat): (r: nat)
    ensures r <= a && r <= b
    decreases a + b
  {
    if a == 0 || b == 0 then 0
    else 2 * BitAnd(a / 2, b / 2) + (if a % 2 == 1 && b % 2 == 1 then 1 else 0)
  }

  /** Shifting distributes over addition. */
  lemma {:induction false} ShiftLeftAdd(x: nat, y: nat, k: nat)
    ensures ShiftLeft(x + y, k) == ShiftLeft(x, k) + ShiftLeft(y, k)
    decreases k
  {
    if k > 0 {
      ShiftLeftAdd(x, y, k - 1);
    }
  }

  /** Two shifts in a row are one shift by the total distance. */
  lemma {:induction false} ShiftLeftTwice(x: nat, j: nat, k: nat)
    ensures ShiftLeft(ShiftLeft(x, j), k) == ShiftLeft(x, j + k)
    decreases k
  {
    if k > 0 {
      ShiftLeftTwice(x, j, k - 1);
    }
  }

  /** Shifting by a fixed distance is strictly increasing in the shifted value. */
  lemma {:induction false} ShiftLeftIncreasing(x: nat, y: nat, k: nat)
    requires x < y
    ensures ShiftLeft(x, k) < ShiftLeft(y, k)
    decreases k
  {
    if k > 0 {
      ShiftLeftIncreasing(x, y, k - 1);
    }
  }

  lemma {:induction false} ShiftLeftOfZero(k: nat)
    ensures ShiftLeft(0, k) == 0
  {
    if k > 0 {
      ShiftLeftOfZero(k - 1);
    }
  }

  lemma {:induction false} ShiftRightOfZero(k: nat)
    ensures ShiftRight(0, k) == 0
  {
    if k > 0 {
      ShiftRightOfZero(k - 1);
    }
  }

  /** Shifting right undoes shifting left by the same distance. */
  lemma {:induction false} ShiftRightOfShiftLeft(x: nat, k: nat)
    ensures ShiftRight(ShiftLeft(x, k), k) == x
    decreases k
  {
    if k > 0 {
      ShiftRightOfShiftLeft(x, k - 1);
      assert ShiftLeft(x, k) / 2 == ShiftLeft(x, k - 1);
      ShiftRightAfterHalving(ShiftLeft(x, k), k);
    }
  }

  /** Halving first and then shifting by k - 1 is shifting by k. */
  lemma ShiftRightAfterHalving(x: nat, k: nat)
    requires k > 0
    ensures ShiftRight(x, k) == ShiftRight(x / 2, k - 1)
  {
  }

  /** Shifting right by 4 is dividing by 16, rounding down. */
  lemma ShiftRightFour(x: nat)
    ensures ShiftRight(x, 4) == x / 16
  {
    var x1, x2, x3 := x / 2, x / 4, x / 8;
    assert x / 2 / 2 == x2 && x2 / 2 == x3 && x3 / 2 == x / 16;
    assert ShiftRight(x3, 1) == x / 16;
    assert ShiftRight(x2, 2) == ShiftRight(x3, 1);
    assert ShiftRight(x1, 3) == ShiftRight(x2, 2);
    assert ShiftRight(x, 4) == ShiftRight(x1, 3);
  }

  /** Masking with an odd mask keeps the lowest bit and masks the rest with the mask halved. */
  lemma OddMask(x: nat, m: nat)
    ensures BitAnd(x, 2 * m + 1) == 2 * BitAnd(x / 2, m) + x % 2
  {
    assert (2 * m + 1) / 2 == m;
  }

  /** Shifting by 4 is multiplying by 16. */
  lemma ShiftLeftFour(x: nat)
    ensures ShiftLeft(x, 4) == 16 * x
  {
    assert ShiftLeft(x, 1) == 2 * x;
    assert ShiftLeft(x, 2) == 4 * x;
    assert ShiftLeft(x, 3) == 8 * x;
  }

  /**
   * Masking with k one-bits, `(1 << k) - 1`, keeps the low k bits: what is
   * left of x after clearing everything from bit k up.
   */
  lemma {:induction false} LowBitsMask(x: nat, k: nat)
    ensures ShiftLeft(1, k) >= 1
    ensures BitAnd(x, ShiftLeft(1, k) - 1) == x - ShiftLeft(ShiftRight(x, k), k)
    decreases k
  {
    if k == 0 {
      assert BitAnd(x, 0) == 0;
    } else {
      var y, r := x / 2, ShiftRight(x, k);
      LowBitsMask(y, k - 1);
      var mask := ShiftLeft(1, k - 1) - 1;
      assert ShiftLeft(1, k) - 1 == 2 * mask + 1;
      OddMask(x, mask);
      ShiftRightAfterHalving(x, k);
      assert BitAnd(y, mask) == y - ShiftLeft(r, k - 1);
      assert ShiftLeft(r, k) == 2 * ShiftLeft(r, k - 1);
    }
  }

  /** Masking with 0xF keeps the low four bits: the remainder modulo 16. */
  lemma LowNibbleMask(x: nat)
    ensures BitAnd(x, 0xF) == x % 16
  {
    ShiftLeftFour(1);
    LowBitsMask(x, 4);
    ShiftRightFour(x);
    ShiftLeftFour(x / 16);
  }

  /**
   * Masking with `m << k` is masking the value shifted right by k with m,
   * shifted back.
   */
  lemma {:induction false} MaskShifted(x: nat, m: nat, k: nat)
    ensures BitAnd(x, ShiftLeft(m, k)) == ShiftLeft(BitAnd(ShiftRight(x, k), m), k)
    decreases k
  {
    if k > 0 {
      var y := ShiftLeft(m, k - 1);
      if x == 0 {
        ShiftRightOfZero(k);
        ShiftLeftOfZero(k);
      } else if m == 0 {
        ShiftLeftOfZero(k);
        ShiftLeftOfZero(k - 1);
      } else {
        ShiftLeftIncreasing(0, m, k - 1);
        ShiftLeftOfZero(k - 1);
        MaskShifted(x / 2, m, k - 1);
        assert BitAnd(x, 2 * y) == 2 * BitAnd(x / 2, y);
      }
    }
  }

  lemma {:induction false} BitOfZero(i: nat)
    ensures Bit(0, i) == 0
  {
    if i > 0 {
      BitOfZero(i - 1);
    }
  }

  /** BitOr is the bitwise OR: every bit of the result is the OR of the operands' bits. */
  lemma {:induction false} BitOrIsBitwise(a: nat, b: nat, i: nat)
    ensures Bit(BitOr(a, b), i) == if Bit(a, i) == 1 || Bit(b, i) == 1 then 1 else 0
    decreases i
  {
    if a == 0 {
      BitOfZero(i);
    } else if b == 0 {
      BitOfZero(i);
    } else if i > 0 {
      var c := if a % 2 == 1 || b % 2 == 1 then 1 else 0;
      assert BitOr(a, b) / 2 == BitOr(a / 2, b / 2) by {
        assert BitOr(a, b) == 2 * BitOr(a / 2, b / 2) + c;
      }
      BitOrIsBitwise(a / 2, b / 2, i - 1);
    }
  }

  /** BitAnd is the bitwise AND: every bit of the result is the product of the operands' bits. */
  lemma {:induction false} BitAndIsBitwise(a: nat, b: nat, i: nat)
    ensures Bit(BitAnd(a, b), i) == Bit(a, i) * Bit(b, i)
    decreases i
  {
    if a == 0 || b == 0 {
      BitOfZero(i);
    } else if i > 0 {
      var c := if a % 2 == 1 && b % 2 == 1 then 1 else 0;
      assert BitAnd(a, b) / 2 == BitAnd(a / 2, b / 2) by {
        assert BitAnd(a, b) == 2 * BitAnd(a / 2, b / 2) + c;
      }
      BitAndIsBitwise(a / 2, b / 2, i - 1);
    }
  }

  /**
   * When every set bit of `lo` lies below position k, and `hi << k` has none
   * there, OR-ing them is the same as adding them.
   */
  lemma {:induction false} OrOfDisjointIsSum(hi: nat, lo: nat, k: nat)
    requires lo < ShiftLeft(1, k)
    ensures BitOr(ShiftLeft(hi, k), lo) == ShiftLeft(hi, k) + lo
    decreases k
  {
    var a := ShiftLeft(hi, k);
    if k > 0 && a != 0 && lo != 0 {
      OrOfDisjointIsSum(hi, lo / 2, k - 1);
      assert BitOr(a, lo) == 2 * BitOr(ShiftLeft(hi, k - 1), lo / 2) + lo % 2;
    }
  }
}
