/** Bytes, as the network and the nickname rule see them. */
module Bytes {
  type Byte = b: int | 0 <= b < 256
}
