/** Byte strings: Go's `[]byte` and `json.RawMessage`, kept opaque by the model. */
module Bytes {

  newtype byte = x: int | 0 <= x < 256

  /** A raw JSON fragment or any other byte string, never interpreted. */
  type Raw = seq<byte>

}
