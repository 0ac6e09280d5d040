/**
  Python's unbounded integers as bit strings: two's complement with infinitely
  many sign bits, so that -1 is all ones and `~x` is `-x - 1`.
 */
module Bits {
  function Pow2(n: nat): (r: int)
    ensures r >= 1
  {
    if n == 0 then 1 else 2 * Pow2(n - 1)
  }

  /** Bit i of x. */
  predicate Bit(x: int, i: nat)
    decreases i
  {
    if i == 0 then x % 2 == 1 else Bit(x / 2, i - 1)
  }

  function Magnitude(x: int): nat {
    if x < 0 then -x - 1 else x
  }

  function And(x: int, y: int): int
    decreases Magnitude(x) + Magnitude(y)
  {
    if x == 0 || y == 0 then 0
    else if x == -1 then y
    else if y == -1 then x
    else 2 * And(x / 2, y / 2) + (if x % 2 == 1 && y % 2 == 1 then 1 else 0)
  }

  function Not(x: int): int {
    -x - 1
  }

  function Or(x: int, y: int): int {
    Not(And(Not(x), Not(y)))
  }

  function ShiftLeft(x: int, n: nat): int {
    x * Pow2(n)
  }

  function ShiftRight(x: int, n: nat): int
    decreases n
  {
    if n == 0 then x else ShiftRight(x / 2, n - 1)
  }

  /** Bits needed to write a non-negative integer. */
  function BitLength(x: nat): nat {
    if x == 0 then 0 else 1 + BitLength(x / 2)
  }

  lemma {:induction false} ConstantBits(i: nat)
    ensures !Bit(0, i) && Bit(-1, i)
  {
    if i > 0 { ConstantBits(i - 1); }
  }

  lemma {:induction false} NotBit(x: int, i: nat)
    ensures Bit(Not(x), i) == !Bit(x, i)
    decreases i
  {
    if i > 0 {
      NotBit(x / 2, i - 1);
      assert Not(x) / 2 == Not(x / 2);
    }
  }

  lemma {:induction false} AndBit(x: int, y: int, i: nat)
    ensures Bit(And(x, y), i) == (Bit(x, i) && Bit(y, i))
    decreases Magnitude(x) + Magnitude(y)
  {
    ConstantBits(i);
    if x == 0 || y == 0 || x == -1 || y == -1 {
    } else {
      assert And(x, y) / 2 == And(x / 2, y / 2);
      if i > 0 { AndBit(x / 2, y / 2, i - 1); }
    }
  }

  lemma OrBit(x: int, y: int, i: nat)
    ensures Bit(Or(x, y), i) == (Bit(x, i) || Bit(y, i))
  {
    NotBit(And(Not(x), Not(y)), i);
    AndBit(Not(x), Not(y), i);
    NotBit(x, i);
    NotBit(y, i);
  }

  lemma {:induction false} ShiftRightBit(x: int, n: nat, i: nat)
    ensures Bit(ShiftRight(x, n), i) == Bit(x, n + i)
    decreases n
  {
    if n > 0 { ShiftRightBit(x / 2, n - 1, i); }
  }

  lemma {:induction false} Pow2Bit(n: nat, i: nat)
    ensures Bit(Pow2(n), i) == (i == n)
  {
    if i > 0 && n > 0 {
      Pow2Bit(n - 1, i - 1);
    } else if n == 0 && i > 0 {
      ConstantBits(i - 1);
    }
  }

  lemma {:induction false} AndNonNegative(x: int, y: int)
    requires x >= 0 || y >= 0
    ensures And(x, y) >= 0
    decreases Magnitude(x) + Magnitude(y)
  {
    if x == 0 || y == 0 || x == -1 || y == -1 {
    } else {
      AndNonNegative(x / 2, y / 2);
    }
  }

  lemma {:induction false} AndNegative(x: int, y: int)
    requires x < 0 && y < 0
    ensures And(x, y) < 0
    decreases Magnitude(x) + Magnitude(y)
  {
    if x != -1 && y != -1 { AndNegative(x / 2, y / 2); }
  }

  lemma {:induction false} OrNonNegative(x: int, y: int)
    requires x >= 0 && y >= 0
    ensures Or(x, y) >= 0
  {
    AndNegative(Not(x), Not(y));
  }

  lemma {:induction false} ShiftRightNonNegative(x: int, n: nat)
    requires x >= 0
    ensures ShiftRight(x, n) >= 0
    decreases n
  {
    if n > 0 { ShiftRightNonNegative(x / 2, n - 1); }
  }

  lemma {:induction false} AndComplement(x: int)
    ensures And(x, Not(x)) == 0
    decreases Magnitude(x)
  {
    if x != 0 && x != -1 {
      AndComplement(x / 2);
      assert Not(x) / 2 == Not(x / 2);
    }
  }

  lemma OddLowest(x: int)
    requires x > 0 && x % 2 == 1
    ensures And(x, -x) == 1 && BitLength(1) == 1 && Bit(x, 0)
  {
    AndComplement(x / 2);
    assert (-x) / 2 == Not(x / 2);
    if x == 1 {
      assert And(1, -1) == 1;
    } else {
      assert And(x, -x) == 2 * And(x / 2, (-x) / 2) + 1;
    }
    assert BitLength(1) == 1 + BitLength(0);
  }

  lemma EvenLowest(x: int)
    requires x > 0 && x % 2 == 0
    ensures And(x, -x) == 2 * And(x / 2, -(x / 2))
  {
    assert (-x) / 2 == -(x / 2);
  }

  lemma DoubleLength(half: int)
    requires half > 0
    ensures BitLength(2 * half) == 1 + BitLength(half)
  {
  }

  /** Position of the lowest set bit, found the way Python code spells it: (x & -x).bit_length() - 1. */
  lemma {:induction false} LowestBit(x: int)
    requires x > 0
    ensures And(x, -x) > 0
    ensures var k := BitLength(And(x, -x)) - 1;
            k >= 0 && Bit(x, k) && forall i: nat :: i < k ==> !Bit(x, i)
    decreases x
  {
    if x % 2 == 1 {
      OddLowest(x);
    } else {
      LowestBit(x / 2);
      EvenLowest(x);
      DoubleLength(And(x / 2, -(x / 2)));
    }
  }
}
