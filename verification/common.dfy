/** Shared helpers: an Option type and Java's byte-to-int promotion. */
module Common {

  datatype Option<+T> = None | Some(value: T)

  /** Java promotes a (signed) `byte` to `int` by sign extension before any
      arithmetic or bitwise operator is applied to it. */
  function Int(b: bv8): (r: bv32)
    ensures r & 0xFF == b as bv32
    ensures b < 0x80 ==> r == b as bv32
    ensures b >= 0x80 ==> r >> 8 == 0xFF_FFFF
  {
    if b < 0x80 then b as bv32 else (b as bv32) | 0xFFFF_FF00
  }

  /** Java's `x > 0` on an `int`, i.e. on the two's complement reading of 32 bits. */
  predicate PositiveInt(x: bv32)
  {
    x != 0 && x < 0x8000_0000
  }
}
