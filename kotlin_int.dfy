/**
 * Kotlin's `/` and `%` on integers truncate toward zero, while Dafny's are
 * Euclidean. These helpers state the Kotlin operators explicitly.
 */
module KotlinInt {

  function Abs(a: int): nat
  {
    if a < 0 then -a else a
  }

  /** Kotlin `a / b`: the quotient of the magnitudes, negated when the signs differ. */
  function TruncDiv(a: int, b: int): (q: int)
    requires b != 0
    ensures b > 0 && a >= 0 ==> q == a / b
    ensures b > 0 && a < 0 ==> q == -((-a) / b)
    ensures b > 0 ==> q * b <= a || a < 0
    ensures b > 0 && a < 0 ==> q <= 0
  {
    var m := Abs(a) / Abs(b);
    if (a < 0) == (b < 0) then m else -m
  }

  /** Kotlin `a % b`: the remainder takes the sign of `a` and is smaller than `b` in magnitude. */
  function TruncRem(a: int, b: int): (r: int)
    requires b != 0
    ensures a == TruncDiv(a, b) * b + r
    ensures a >= 0 ==> 0 <= r < Abs(b)
    ensures a < 0 ==> -(Abs(b) as int) < r <= 0
  {
    a - TruncDiv(a, b) * b
  }

  /** Kotlin's `maxOf(a, b)`. */
  function Max(a: int, b: int): int
  {
    if a >= b then a else b
  }

  /** Kotlin's `minOf(a, b)`. */
  function Min(a: int, b: int): int
  {
    if a <= b then a else b
  }

  /** Multiplying by a non-negative factor keeps an inequality. */
  lemma MulMonotone(k: int, x: int, y: int)
    requires k >= 0 && x <= y
    ensures k * x <= k * y && x * k <= y * k
  {
  }
}
