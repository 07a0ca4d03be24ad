/** Integer models of the JavaScript number operations the application uses. */
module JsMath {

  /** `Math.random()` yields a double in [0, 1) made of 53 random bits; a draw
      `u` stands for the value u / RandomScale. */
  const RandomScale: int := 0x20_0000_0000_0000

  type Draw = u: int | 0 <= u < RandomScale

  /** `Math.floor(Math.random() * n)` for the draw `u`: the floor of u·n / 2^53. */
  function FloorTimes(u: Draw, n: int): (r: int)
    ensures n > 0 ==> 0 <= r < n
    ensures n <= 0 ==> n <= r <= 0
  {
    ScaledBounds(u, n);
    Scaled(u, n) / RandomScale
  }

  /** The product u·n, written as repeated addition so that it stays a linear
      quantity wherever the draw and the factor are both unknown. */
  function Scaled(u: Draw, n: int): int
    decreases if n >= 0 then n else -n
  {
    if n == 0 then 0
    else if n > 0 then Scaled(u, n - 1) + u
    else Scaled(u, n + 1) - u
  }

  lemma {:induction false} ScaledBounds(u: Draw, n: int)
    ensures n >= 0 ==> 0 <= Scaled(u, n) <= n * (RandomScale - 1)
    ensures n <= 0 ==> n * (RandomScale - 1) <= Scaled(u, n) <= 0
    decreases if n >= 0 then n else -n
  {
    if n > 0 {
      ScaledBounds(u, n - 1);
    } else if n < 0 {
      ScaledBounds(u, n + 1);
    }
  }

  /** The repeated addition is the product. */
  lemma {:induction false} ScaledIsProduct(u: Draw, n: int)
    ensures Scaled(u, n) == u * n
    decreases if n >= 0 then n else -n
  {
    if n > 0 {
      ScaledIsProduct(u, n - 1);
    } else if n < 0 {
      ScaledIsProduct(u, n + 1);
    }
  }

  /** `Math.random() > 0.5`. */
  predicate AboveHalf(u: Draw)
  {
    2 * u > RandomScale
  }

  /** `Math.ceil(a / b)` for a positive divisor. */
  function CeilDiv(a: int, b: int): (r: int)
    requires b > 0
    ensures b * (r - 1) < a <= b * r
  {
    -((-a) / b)
  }

  /** `Math.round(a / b)` for a positive divisor: the nearest integer, halves
      rounded up. */
  function RoundDiv(a: int, b: int): (r: int)
    requires b > 0
    ensures 2 * b * r - b <= 2 * a < 2 * b * r + b
  {
    (2 * a + b) / (2 * b)
  }

  function Max(a: int, b: int): int
  {
    if a >= b then a else b
  }

  function Min(a: int, b: int): int
  {
    if a <= b then a else b
  }
}
