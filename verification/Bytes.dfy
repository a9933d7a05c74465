/** Byte strings.  Text is represented by its UTF-8 bytes. */
module Bytes {
  type byte = b: int | 0 <= b < 256
  type Bytes = seq<byte>
  type Text = seq<byte>
}
