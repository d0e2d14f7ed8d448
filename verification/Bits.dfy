/**
 Bit operators on natural numbers, defined digit by digit, and 32-bit words as the numbers below 2^32.
 A word stands for the 32 bits of a Go `uint32` or of a JavaScript number after `& 0xffffffff`,
 whichever sign that number has.
 */
module Bits {

  const TWO32 := 0x1_0000_0000

  type Word = x: int | 0 <= x < TWO32

  function Pow2(n: nat): (r: nat)
    ensures r >= 1
  {
    if n == 0 then 1 else 2 * Pow2(n - 1)
  }

  function Xor(a: nat, b: nat): nat
    decreases a + b
  {
    if a == 0 && b == 0 then 0
    else 2 * Xor(a / 2, b / 2) + (if a % 2 != b % 2 then 1 else 0)
  }

  function Or(a: nat, b: nat): nat
    decreases a + b
  {
    if a == 0 && b == 0 then 0
    else 2 * Or(a / 2, b / 2) + (if a % 2 == 1 || b % 2 == 1 then 1 else 0)
  }

  function And(a: nat, b: nat): nat
    decreases a + b
  {
    if a == 0 && b == 0 then 0
    else 2 * And(a / 2, b / 2) + (if a % 2 == 1 && b % 2 == 1 then 1 else 0)
  }

  // ----- the same operators cut to 32 bits

  function Xor32(a: nat, b: nat): Word { Xor(a, b) % TWO32 }
  function Or32(a: nat, b: nat): Word { Or(a, b) % TWO32 }
  function And32(a: nat, b: nat): Word { And(a, b) % TWO32 }
  function Not32(a: Word): Word { TWO32 - 1 - a }
  function Add32(a: nat, b: nat): Word { (a + b) % TWO32 }
  function Sub32(a: nat, b: nat): Word { (a - b) % TWO32 }

  /** The signed reading of a word. */
  function Signed(w: Word): (i: int)
    ensures -0x8000_0000 <= i < 0x8000_0000
    ensures i % TWO32 == w
  {
    if w < 0x8000_0000 then w else w - TWO32
  }

  // ----- laws

  /** Reducing a summand early does not change a sum modulo 2^32. */
  lemma ModAdd(x: int, d: int)
    ensures (x % TWO32 + d) % TWO32 == (x + d) % TWO32
  {
    var q := x / TWO32;
    assert x + d == x % TWO32 + d + q * TWO32;
    ModShift(x % TWO32 + d, q);
  }

  lemma ModShift(x: int, q: int)
    ensures (x + q * TWO32) % TWO32 == x % TWO32
  {
  }

  lemma {:induction false} XorCancels(a: nat, b: nat)
    ensures Xor(Xor(a, b), b) == a
    decreases a + b
  {
    if a != 0 || b != 0 {
      XorCancels(a / 2, b / 2);
      var x := Xor(a, b);
      assert x / 2 == Xor(a / 2, b / 2);
      assert x == 0 && b == 0 ==> a == 0;
      assert x % 2 == if a % 2 != b % 2 then 1 else 0;
    }
  }

  lemma {:induction false} XorBound(a: nat, b: nat, n: nat)
    requires a < Pow2(n) && b < Pow2(n)
    ensures Xor(a, b) < Pow2(n)
  {
    if n > 0 {
      XorBound(a / 2, b / 2, n - 1);
    }
  }

  lemma {:induction false} OrZero(a: nat)
    ensures Or(0, a) == a && Or(a, 0) == a
    decreases a
  {
    if a != 0 {
      OrZero(a / 2);
    }
  }

  lemma OrUnfolds(a: nat, b: nat)
    ensures Or(a, b) == 2 * Or(a / 2, b / 2) + (if a % 2 == 1 || b % 2 == 1 then 1 else 0)
  {
  }

  lemma Doubled(high: nat, n: nat)
    ensures high * Pow2(n + 1) == 2 * (high * Pow2(n))
  {
  }

  /** Numbers with no set bit in common add up. */
  lemma {:induction false} OrDisjoint(low: nat, high: nat, n: nat)
    requires low < Pow2(n)
    ensures Or(low, high * Pow2(n)) == low + high * Pow2(n) == Or(high * Pow2(n), low)
  {
    hide Or;
    if n == 0 {
      OrZero(high);
    } else {
      OrDisjoint(low / 2, high, n - 1);
      Doubled(high, n - 1);
      var shifted := high * Pow2(n - 1);
      OrUnfolds(low, 2 * shifted);
      OrUnfolds(2 * shifted, low);
    }
  }

  lemma Powers()
    ensures Pow2(4) == 0x10 && Pow2(5) == 0x20 && Pow2(6) == 0x40 && Pow2(8) == 0x100 && Pow2(10) == 0x400
    ensures Pow2(12) == 0x1000 && Pow2(16) == 0x1_0000 && Pow2(18) == 0x4_0000 && Pow2(24) == 0x100_0000
  {
    assert Pow2(4) == 0x10;
    assert Pow2(8) == 0x100;
    assert Pow2(12) == 0x1000;
    assert Pow2(16) == 0x1_0000;
    assert Pow2(18) == 4 * Pow2(16);
    assert Pow2(24) == 0x40 * Pow2(18);
  }

  /** OrDisjoint for a field of `n` bits with the weight of the next field written out. */
  lemma Join(high: nat, low: nat, n: nat, weight: nat)
    requires weight == Pow2(n) && low < weight
    ensures Or(high * weight, low) == high * weight + low == Or(low, high * weight)
  {
    OrDisjoint(low, high, n);
  }
}
