/** The fixed-width unsigned and signed integer types of the Rust source. */
module Ints {
  const U8_LIMIT: int := 0x100
  const U16_LIMIT: int := 0x1_0000
  const U32_LIMIT: int := 0x1_0000_0000
  const U64_LIMIT: int := 0x1_0000_0000_0000_0000

  newtype u8 = x: int | 0 <= x < U8_LIMIT
  newtype u16 = x: int | 0 <= x < U16_LIMIT
  newtype u32 = x: int | 0 <= x < U32_LIMIT
  newtype u64 = x: int | 0 <= x < U64_LIMIT
  newtype i64 = x: int | -0x8000_0000_0000_0000 <= x < 0x8000_0000_0000_0000
}
