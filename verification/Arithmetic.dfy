/** The few facts about products and quotients that window arithmetic needs. */
module Arithmetic {
  function Min(a: int, b: int): int {
    if a < b then a else b
  }

  function Max(a: int, b: int): int {
    if a > b then a else b
  }

  function CeilDiv(value: int, divisor: int): int
    requires divisor > 0
  {
    (value + divisor - 1) / divisor
  }

  lemma MulStep(x: int, y: int)
    ensures (x + 1) * y == x * y + y
  {
  }

  lemma MulMinus(x: int, y: int, z: int)
    ensures (x - y) * z == x * z - y * z
  {
  }

  lemma MulMonotone(x: int, y: int, z: int)
    requires x <= y && z >= 0
    ensures x * z <= y * z
  {
  }

  lemma MulNonNegative(x: int, y: int)
    requires x >= 0 && y >= 0
    ensures x * y >= 0
  {
  }

  lemma SameQuotient(d: int, q: int, q': int, r: int, r': int)
    requires d > 0 && 0 <= r < d && 0 <= r' < d && q * d + r == q' * d + r'
    ensures q == q' && r == r'
  {
    if q > q' {
      MulMonotone(q' + 1, q, d);
      MulStep(q', d);
    } else if q < q' {
      MulMonotone(q + 1, q', d);
      MulStep(q, d);
    }
  }

  lemma DivUnique(x: int, d: int, q: int, r: int)
    requires d > 0 && 0 <= r < d && x == q * d + r
    ensures x / d == q && x % d == r
  {
    SameQuotient(d, x / d, q, x % d, r);
  }

  lemma DivStep(x: int, d: int)
    requires d > 0
    ensures (x + d) / d == x / d + 1 && (x + d) % d == x % d
  {
    MulStep(x / d, d);
    DivUnique(x + d, d, x / d + 1, x % d);
  }

  lemma DivBelow(x: int, d: int)
    requires 0 <= x < d
    ensures x / d == 0 && x % d == x
  {
    DivUnique(x, d, 0, x);
  }

  lemma CeilStep(value: int, divisor: int)
    requires divisor > 0
    ensures CeilDiv(value + divisor, divisor) == 1 + CeilDiv(value, divisor)
  {
    DivStep(value + divisor - 1, divisor);
  }

  lemma SmallCeil(value: int, divisor: int)
    requires 0 < value <= divisor
    ensures CeilDiv(value, divisor) == 1
  {
    DivUnique(value + divisor - 1, divisor, 1, value - 1);
  }

  lemma ExactCeil(q: int, divisor: int)
    requires divisor > 0
    ensures CeilDiv(q * divisor, divisor) == q
  {
    DivUnique(q * divisor + divisor - 1, divisor, q, divisor - 1);
  }

  lemma CeilBounds(value: int, divisor: int)
    requires divisor > 0
    ensures value <= CeilDiv(value, divisor) * divisor < value + divisor
  {
    var x := value + divisor - 1;
    assert x == x / divisor * divisor + x % divisor;
  }

  lemma FloorBounds(x: int, d: int)
    requires d > 0
    ensures x / d * d <= x < x / d * d + d
    ensures x >= 0 ==> x / d >= 0 && x / d * d >= 0
  {
    if x >= 0 && x / d < 0 {
      MulMonotone(x / d, -1, d);
    }
    if x >= 0 { MulNonNegative(x / d, d); }
  }
}
