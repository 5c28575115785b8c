// Bytes as files and sockets carry them.
module ByteStrings {
  newtype byte = x: int | 0 <= x < 256
  type Bytes = seq<byte>
}
