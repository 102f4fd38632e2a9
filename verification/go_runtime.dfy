/** The few pieces of Go semantics the server builder relies on: pointers that
    may be nil, two's-complement `int32` arithmetic and `strconv.FormatBool`. */
module GoRuntime {

  /** A Go pointer to a value: `nil` or pointing at `value`. */
  datatype Option<+T> = None | Some(value: T)

  const MIN_INT32: int := -0x8000_0000
  const MAX_INT32: int := 0x7fff_ffff
  const TWO_TO_32: int := 0x1_0000_0000

  /** The values of a Go `int32`. */
  type Int32 = x: int | -0x8000_0000 <= x <= 0x7fff_ffff

  /** The `int32` that Go's wrapping arithmetic yields for the mathematical
      value `x`: the unique representable value congruent to `x` modulo 2^32. */
  function Wrap32(x: int): (r: Int32)
    ensures (x - r) % TWO_TO_32 == 0
    ensures MIN_INT32 <= x <= MAX_INT32 ==> r == x
  {
    (x - MIN_INT32) % TWO_TO_32 + MIN_INT32
  }

  /** Go's `a - b` on two `int32` operands. */
  function Sub32(a: Int32, b: Int32): (r: Int32)
    ensures MIN_INT32 <= a - b <= MAX_INT32 ==> r == a - b
    ensures a - b < MIN_INT32 ==> r == a - b + TWO_TO_32
    ensures a - b > MAX_INT32 ==> r == a - b - TWO_TO_32
  {
    Wrap32(a - b)
  }

  /** `strconv.FormatBool`: the literal spelling of a boolean. */
  function FormatBool(b: bool): (s: string)
    ensures s == "true" || s == "false"
    ensures s == "true" <==> b
  {
    if b then "true" else "false"
  }
}
