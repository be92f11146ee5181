/** Machine integers and the optional value shared by the other modules. */
module Primitives {

  /** Largest value of Rust's `u32`. */
  const U32_MAX: int := 0xFFFF_FFFF

  /** Rust's `u32`: the values 0 .. 2^32 - 1. */
  type u32 = x: int | 0 <= x <= U32_MAX

  datatype Option<+T> = None | Some(value: T)

  function Min(a: int, b: int): int { if a <= b then a else b }

  function Max(a: int, b: int): int { if a >= b then a else b }

  function Abs(x: int): nat { if x < 0 then -x else x }

  lemma MulLe(a: int, b: int, d: int)
    requires a <= b && d > 0
    ensures a * d <= b * d
  {
  }

  /** Euclidean division is determined by its bounds. */
  lemma DivUnique(x: int, q: int, d: int)
    requires d > 0 && q * d <= x < q * d + d
    ensures x / d == q && x % d == x - q * d
  {
    var k := x / d;
    assert x == k * d + x % d;
    if k > q {
      MulLe(q + 1, k, d);
      assert false;
    } else if k < q {
      MulLe(k + 1, q, d);
      assert false;
    }
  }
}
