/** Shared value types: optional values, signed 64-bit amounts and byte strings. */
module Basics {

  datatype Option<+T> = None | Some(value: T)

  const MAX_INT64: int := 0x7FFF_FFFF_FFFF_FFFF
  const MIN_INT64: int := -0x8000_0000_0000_0000

  /** A signed 64-bit integer, as the gateway stores tokens, nanodollars and versions. */
  type Int64 = x: int | MIN_INT64 <= x <= MAX_INT64

  type Byte = x: int | 0 <= x < 256
  type Bytes = seq<Byte>

  function OrZero(o: Option<Int64>): (r: Int64) {
    match o
    case None => 0
    case Some(v) => v
  }
}
