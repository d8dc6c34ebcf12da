/** Integer stand-ins for the floating-point arithmetic of the modelled code. */
module Numbers {

  /** `Math.ceil(a / b)` computed exactly: the least integer not below the
      quotient, for divisors of either sign. */
  function CeilDiv(a: int, b: int): (r: int)
    requires b != 0
    ensures b > 0 ==> (r - 1) * b < a <= r * b
    ensures b < 0 ==> r * b <= a < (r - 1) * b
  {
    if b > 0 then -((-a) / b) else -(a / (-b))
  }

  function Max(a: int, b: int): int {
    if a >= b then a else b
  }

  function Min(a: int, b: int): int {
    if a <= b then a else b
  }
}
