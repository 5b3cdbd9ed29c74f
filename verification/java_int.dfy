/** Java's primitive `int`: a signed 32-bit integer. */
module JavaInt {
  /** The values a Java `int` field or parameter can hold. */
  newtype int32 = x: int | -0x8000_0000 <= x < 0x8000_0000
}
