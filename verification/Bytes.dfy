/** Bytes as numbers. */
module Bytes {
  type byte = n: nat | n < 0x100
}
