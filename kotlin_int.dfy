/** Kotlin's 32-bit `Int` and its integer division, which truncates toward zero. */
module KotlinInt {

  /** The values of a Kotlin `Int`. */
  type Int32 = x: int | -0x8000_0000 <= x < 0x8000_0000

  /** Kotlin's `a / b` for a positive divisor: the quotient rounded toward zero. */
  function TruncDiv(a: int, b: int): int
    requires b > 0
  {
    if a >= 0 then a / b else -((-a) / b)
  }

  /** Kotlin's `a % b` for a positive divisor: the remainder takes the sign of `a`. */
  function TruncRem(a: int, b: int): int
    requires b > 0
  {
    if a >= 0 then a % b else -((-a) % b)
  }
}
