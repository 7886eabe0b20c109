/** Bytes, for the modules that work on them. */
module Bytes {
  newtype Byte = x: int | 0 <= x < 256
}
