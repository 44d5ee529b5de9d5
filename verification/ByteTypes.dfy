/** Octets and sequences of them. */
module ByteTypes {
  type Byte = b: int | 0 <= b < 256

  type Bytes = seq<Byte>
}
