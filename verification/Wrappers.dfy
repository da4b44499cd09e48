/** Shared value types: optional and fallible results, bytes and UUIDs. */
module Wrappers {

  datatype Option<+T> = None | Some(value: T)

  datatype Result<+T, +E> = Success(value: T) | Failure(error: E)

  type byte = b: int | 0 <= b < 256

  const TWO_POW_128: nat := 0x1_00000000_00000000_00000000_00000000

  /** A UUID is the 128-bit number its sixteen big-endian bytes spell. */
  type Uuid = n: int | 0 <= n < TWO_POW_128 witness 0
}
