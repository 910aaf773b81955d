/** Octets as numbers. */
module Bytes {
  type Byte = b: int | 0 <= b < 256

  type Data = seq<Byte>
}
