/**
 * The parts of Kotlin's integer semantics that the client relies on:
 * `/` truncates toward zero, and `Long.toInt()` keeps the low 32 bits.
 */
module KotlinInt {

  const INT_MIN: int := -0x8000_0000
  const INT_MAX: int := 0x7FFF_FFFF
  const LONG_MIN: int := -0x8000_0000_0000_0000
  const LONG_MAX: int := 0x7FFF_FFFF_FFFF_FFFF

  predicate IsInt(x: int) { INT_MIN <= x <= INT_MAX }
  predicate IsLong(x: int) { LONG_MIN <= x <= LONG_MAX }

  /** Kotlin's `n / d` for a positive divisor: the quotient truncated toward zero. */
  function Div(n: int, d: int): (q: int)
    requires d > 0
    ensures n >= 0 ==> 0 <= q && q * d <= n < q * d + d
    ensures n < 0 ==> q <= 0 && n < q * d + d && q * d - d < n && q * d >= n
  {
    if n >= 0 then n / d
    else
      var q := (-n) / d;
      assert q * d <= -n < q * d + d;
      -q
  }

  /** `Long.toInt()`: keeps the low 32 bits, read as a two's-complement value. */
  function ToInt(x: int): (r: int)
    ensures IsInt(r)
    ensures IsInt(x) ==> r == x
    ensures (x - r) % 0x1_0000_0000 == 0
  {
    var m := x % 0x1_0000_0000;
    if m > INT_MAX then m - 0x1_0000_0000 else m
  }

  /** The result of `Long` subtraction: wraps modulo 2^64. */
  function ToLong(x: int): (r: int)
    ensures IsLong(r)
    ensures IsLong(x) ==> r == x
    ensures (x - r) % 0x1_0000_0000_0000_0000 == 0
  {
    var m := x % 0x1_0000_0000_0000_0000;
    if m > LONG_MAX then m - 0x1_0000_0000_0000_0000 else m
  }
}
