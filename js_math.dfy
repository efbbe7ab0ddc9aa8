/** JavaScript's `Math.max`, `Math.min`, `Math.ceil(a / b)` and `Math.floor(a / b)`
    on the integer arguments the program gives them. Dafny's `/` on `int` is
    Euclidean, which for a positive divisor is the floor. */
module JsMath {
  function Max(a: int, b: int): (r: int)
    ensures r >= a && r >= b && (r == a || r == b)
  {
    if a >= b then a else b
  }

  function Min(a: int, b: int): (r: int)
    ensures r <= a && r <= b && (r == a || r == b)
  {
    if a <= b then a else b
  }

  /** `Math.ceil(a / b)`: the least integer `r` with `a <= r * b`. */
  function CeilDiv(a: int, b: int): (r: int)
    requires b > 0
    ensures (r - 1) * b < a <= r * b
  {
    -((-a) / b)
  }

  /** `Math.floor(a / b)`: the greatest integer `r` with `r * b <= a`. */
  function FloorDiv(a: int, b: int): (r: int)
    requires b > 0
    ensures r * b <= a < (r + 1) * b
  {
    a / b
  }
}
