/** Octets and 32-bit words, as the wire and file formats read them. */
module Bytes {
  type Byte = x: nat | x < 256
  type Word = x: nat | x < 0x1_0000_0000
}
