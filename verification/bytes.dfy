/** Octets, as Python's `bytes` holds them. */
module Bytes {
  type byte = x: int | 0 <= x < 256
}
