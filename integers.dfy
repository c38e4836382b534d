/** Rust's fixed-width unsigned integers, as ranges of Dafny's unbounded integers. */
module Integers {
  const U8_MODULUS: int := 0x100
  const U16_MODULUS: int := 0x1_0000
  const U32_MODULUS: int := 0x1_0000_0000

  type U8 = x: int | 0 <= x < U8_MODULUS
  type U16 = x: int | 0 <= x < U16_MODULUS
  type U32 = x: int | 0 <= x < U32_MODULUS
}
