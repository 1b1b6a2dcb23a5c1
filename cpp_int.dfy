/** C++ `int` arithmetic that differs from Dafny's unbounded, Euclidean integers. */
module CppInt {

  /** A 32-bit `int`. */
  type int32 = x: int | -0x8000_0000 <= x < 0x8000_0000

  /**
   * C++ `/` on int with a positive divisor: the quotient truncated toward zero,
   * which for a negative dividend is one more than Dafny's Euclidean quotient
   * unless the division is exact.
   */
  function CDiv(a: int, b: int): (q: int)
    requires b > 0
    ensures a >= 0 ==> q >= 0 && q * b <= a < (q + 1) * b
    ensures a < 0 ==> q <= 0 && (q - 1) * b < a <= q * b
  {
    var n := if a >= 0 then a else -a;
    DivisionBounds(n, b);
    if a >= 0 then n / b else -(n / b)
  }

  /**
   * The Euclidean quotient of a natural number by a positive divisor is the floor
   * of their ratio, and negating it negates both bounds, as `CDiv` needs for a
   * negative dividend.
   */
  lemma DivisionBounds(n: nat, b: int)
    requires b > 0
    ensures n / b >= 0 && (n / b) * b <= n < (n / b + 1) * b
    ensures (-(n / b)) * b == -((n / b) * b) && (-(n / b) - 1) * b == -((n / b) * b) - b
  {
    var d := n / b;
    var m := n % b;
    assert n == d * b + m && 0 <= m < b;
    assert (d + 1) * b == d * b + b;
  }
}
