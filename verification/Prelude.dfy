/** Types shared by every module: results, and the width Go gives its integers. */
module Prelude {

  datatype Option<+T> = None | Some(value: T)

  datatype Result<+T, +E> = Ok(value: T) | Err(error: E)

  const MIN_INT64: int := -0x8000_0000_0000_0000
  const MAX_INT64: int := 0x7FFF_FFFF_FFFF_FFFF
  const TWO_TO_THE_64: int := 0x1_0000_0000_0000_0000

  /** Go's int64. A value that is given this type is one the code never overflows. */
  type Int64 = x: int | MIN_INT64 <= x <= MAX_INT64

  /** Go's uint64. */
  type Uint64 = x: int | 0 <= x < TWO_TO_THE_64

  predicate IsInt64(x: int) {
    MIN_INT64 <= x <= MAX_INT64
  }

  /** What Go's int64 arithmetic leaves of a mathematical result: its low 64 bits, as a signed number. */
  function Wrap64(x: int): (r: Int64)
    ensures (x - r) % TWO_TO_THE_64 == 0
    ensures IsInt64(x) ==> r == x
  {
    var low := x % TWO_TO_THE_64;
    if low > MAX_INT64 then low - TWO_TO_THE_64 else low
  }

  /** Go's integer division truncates toward zero; Dafny's is Euclidean. */
  function TruncDiv(a: int, b: int): (q: int)
    requires b != 0
    ensures b > 0 && a >= 0 ==> q == a / b
  {
    if a >= 0 then a / b else -((-a) / b)
  }

  function Min(a: int, b: int): int {
    if a <= b then a else b
  }

  function Max(a: int, b: int): int {
    if a >= b then a else b
  }
}
