/**
 * Shared vocabulary: an Option type standing for a nullable reference or an
 * absent value, and the fixed-width integers of Java and C++ as subset types
 * of `int`, with the wrap-around and narrowing conversions written out.
 */
module JavaTypes {

  datatype Option<+T> = None | Some(value: T)

  /** Java `byte`. */
  type Int8 = x: int | -0x80 <= x < 0x80

  /** Java `int`, C++ `int32_t`. */
  type Int32 = x: int | -0x8000_0000 <= x < 0x8000_0000

  /** Java `long`. */
  type Int64 = x: int | -0x8000_0000_0000_0000 <= x < 0x8000_0000_0000_0000

  /** Java `++x` on a `long`: two's-complement wrap-around at the top of the range. */
  function IncrementInt64(x: Int64): (r: Int64)
    ensures x < 0x7FFF_FFFF_FFFF_FFFF ==> r == x + 1
    ensures x == 0x7FFF_FFFF_FFFF_FFFF ==> r == -0x8000_0000_0000_0000
  {
    if x == 0x7FFF_FFFF_FFFF_FFFF then -0x8000_0000_0000_0000 else x + 1
  }

  /** Java `(byte) x` for an `int` x: keep the low eight bits, read them as signed. */
  function NarrowToInt8(x: Int32): (r: Int8)
    ensures (r - x) % 0x100 == 0
    ensures -0x80 <= x < 0x80 ==> r == x
  {
    var low := x % 0x100;
    if low < 0x80 then low else low - 0x100
  }
}
