/** Go's fixed-width integer types and the arithmetic the gas code relies on.
    Dafny integers are unbounded, so the width and the wrap-around of Go's
    `uint64` addition are written out here. */
module GoTypes {

  const TWO_TO_THE_64: int := 0x1_0000_0000_0000_0000
  const UINT64_MAX: int := TWO_TO_THE_64 - 1

  newtype uint64 = x: int | 0 <= x < 0x1_0000_0000_0000_0000
  newtype int64 = x: int | -0x8000_0000_0000_0000 <= x < 0x8000_0000_0000_0000
  newtype byte = x: int | 0 <= x < 0x100

  datatype Option<+T> = None | Some(value: T)

  /** Go's `a + b` on `uint64`: the mathematical sum reduced modulo 2^64. */
  function AddUint64(a: uint64, b: uint64): (r: uint64)
    ensures r as int == (a as int + b as int) % TWO_TO_THE_64
    ensures a as int + b as int <= UINT64_MAX ==> r as int == a as int + b as int
    ensures a as int + b as int > UINT64_MAX ==> r < a && r < b
  {
    var s := a as int + b as int;
    if s < TWO_TO_THE_64 then s as uint64 else (s - TWO_TO_THE_64) as uint64
  }

  /** True when `a + b` does not wrap around in Go. */
  predicate NoOverflow(a: uint64, b: uint64)
  {
    a as int + b as int <= UINT64_MAX
  }

  function MinUint64(a: uint64, b: uint64): (r: uint64)
    ensures r <= a && r <= b
    ensures r == a || r == b
  {
    if a <= b then a else b
  }
}
