/**
  Python's integer division, remainder and rounding, written out over
  Dafny's unbounded integers and reals (Dafny's own `/` and `%` on `int` are
  Euclidean; Python's `//` floors and `%` takes the sign of the divisor).
 */
module PyNum {

  /** `a // b`: the largest q with b * q <= a (b > 0), or b * q >= a (b < 0). */
  function FloorDiv(a: int, b: int): (q: int)
    requires b != 0
    ensures b > 0 ==> b * q <= a < b * q + b
    ensures b < 0 ==> b * q + b < a <= b * q
  {
    if b < 0 && a % b != 0 then a / b - 1 else a / b
  }

  /** `a % b`: the remainder of `FloorDiv`, with the sign of b (or zero). */
  function Mod(a: int, b: int): (r: int)
    requires b != 0
    ensures a == b * FloorDiv(a, b) + r
    ensures b > 0 ==> 0 <= r < b
    ensures b < 0 ==> b < r <= 0
  {
    a - b * FloorDiv(a, b)
  }

  function Abs(n: int): nat {
    if n < 0 then -n else n
  }

  /** `int(x)` on a float: truncation toward zero. */
  function Trunc(x: real): (n: int)
    ensures x >= 0.0 ==> n as real <= x < n as real + 1.0
    ensures x < 0.0 ==> n as real - 1.0 < x <= n as real
  {
    if x >= 0.0 then x.Floor else -((-x).Floor)
  }

  /**
    `round(x)` on a float: the nearest integer, ties to the even one
    (banker's rounding).
   */
  function RoundHalfEven(x: real): (n: int)
    ensures n as real - 0.5 <= x <= n as real + 0.5
    ensures x == n as real - 0.5 || x == n as real + 0.5 ==> n % 2 == 0
  {
    var f := x.Floor;
    var d := x - f as real;
    if d < 0.5 then f
    else if d > 0.5 then f + 1
    else if f % 2 == 0 then f
    else f + 1
  }
}
