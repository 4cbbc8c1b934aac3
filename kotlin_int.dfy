/** Kotlin/JVM `Int` arithmetic: 32-bit range, and `/` and `%` that truncate toward zero. */
module KotlinInt {

  const INT_MIN: int := -0x8000_0000
  const INT_MAX: int := 0x7fff_ffff

  predicate IsInt(x: int) {
    INT_MIN <= x <= INT_MAX
  }

  function Abs(x: int): nat {
    if x < 0 then -x else x
  }

  /** Kotlin's `a / b` on `Int`: the quotient rounded toward zero. */
  function Div(a: int, b: int): (q: int)
    requires b != 0
    ensures 0 <= a && 0 < b ==> q == a / b
    ensures Abs(a - q * b) < Abs(b)
    ensures a - q * b == 0 || (a - q * b < 0 <==> a < 0)
  {
    if a >= 0 then (if b > 0 then a / b else -(a / -b))
    else (if b > 0 then -((-a) / b) else (-a) / (-b))
  }

  /** Kotlin's `a % b` on `Int`: the remainder takes the sign of `a`. */
  function Rem(a: int, b: int): (r: int)
    requires b != 0
    ensures a == Div(a, b) * b + r
    ensures Abs(r) < Abs(b)
    ensures a >= 0 ==> r >= 0
    ensures a < 0 ==> r <= 0
  {
    a - Div(a, b) * b
  }

  /** The value a Kotlin `Int` holds after an arithmetic result `x` wraps around. */
  function Wrap(x: int): (r: int)
    ensures IsInt(r)
    ensures IsInt(x) ==> r == x
    ensures (r - x) % 0x1_0000_0000 == 0
  {
    var m := (x - INT_MIN) % 0x1_0000_0000;
    m + INT_MIN
  }
}
