/** Bitwise operations on unsigned numbers, and powers of two. */
module Bits {

  predicate IsPow2(n: nat) {
    n == 1 || (n > 1 && n % 2 == 0 && IsPow2(n / 2))
  }

  /** Bitwise conjunction of two unsigned numbers. */
  function BitAnd(a: nat, b: nat): nat {
    if a == 0 || b == 0 then 0 else (if a % 2 == 1 && b % 2 == 1 then 1 else 0) + 2 * BitAnd(a / 2, b / 2)
  }

  /** Bitwise exclusive or of two unsigned numbers. */
  function BitXor(a: nat, b: nat): nat
    decreases a + b
  {
    if a == 0 then b else if b == 0 then a else (if a % 2 == b % 2 then 0 else 1) + 2 * BitXor(a / 2, b / 2)
  }

  lemma {:induction false} BitAndZero(a: nat)
    ensures BitAnd(a, a) == a
  {
    if a > 0 {
      BitAndZero(a / 2);
    }
  }

  /** The test of the firmware, value >= 2 and no common bit with value - 1, is "a power of two". */
  lemma {:induction false} PowerOfTwoTest(v: nat)
    requires v >= 2
    ensures BitAnd(v, v - 1) == 0 <==> IsPow2(v)
  {
    if v % 2 == 0 {
      assert (v - 1) / 2 == v / 2 - 1;
      if v > 2 {
        PowerOfTwoTest(v / 2);
      }
    } else {
      assert (v - 1) / 2 == v / 2;
      BitAndZero(v / 2);
    }
  }

  /** A single bit meets a smaller number below twice that bit exactly when the number reaches it. */
  lemma {:induction false} SingleBit(r: nat, bit: nat)
    requires IsPow2(bit) && r < 2 * bit
    ensures BitAnd(r, bit) == (if r >= bit then bit else 0)
    ensures BitXor(r, bit) == (if r >= bit then r - bit else r + bit)
  {
    if bit == 1 {
      assert r == 0 || r == 1;
      assert BitAnd(1, 1) == 1 + 2 * BitAnd(0, 0);
      assert BitXor(1, 1) == 2 * BitXor(0, 0);
    } else {
      SingleBit(r / 2, bit / 2);
    }
  }
}
