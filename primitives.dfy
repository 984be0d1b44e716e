/** Small value types shared by the comparison engine and the batch splitter. */
module Primitives {

  /** An unsigned 8-bit byte, as in Go's `byte`. */
  type Byte = x: int | 0 <= x < 256

  /** Go's `int64`. */
  type Int64 = x: int | -0x8000_0000_0000_0000 <= x < 0x8000_0000_0000_0000

  /** The conventional Some/None datatype; `None` stands for a Go slice that is nil. */
  datatype Option<+T> = None | Some(value: T)
}
