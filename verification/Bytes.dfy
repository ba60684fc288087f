/** Bytes and strings of them. */
module Bytes {

  newtype byte = b: int | 0 <= b < 256

  type Bytes = seq<byte>
}
