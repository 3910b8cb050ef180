/** Small shared vocabulary: an optional value, used where the Java code returns or accepts null. */
module Common {

  datatype Option<T> = None | Some(value: T)

  /** Java `byte[]` contents, as unsigned octets. */
  type Byte = b: int | 0 <= b < 256

  type Bytes = seq<Byte>
}
