/**
 * Rust's unsigned integer widths as subset types of `int`. Arithmetic is
 * done on `int`; storing a result back into one of these types is checked,
 * so an operation the source could overflow has to say so.
 */
module Ints {
  const U8_LIMIT: int := 0x100
  const U32_LIMIT: int := 0x1_0000_0000
  const U64_LIMIT: int := 0x1_0000_0000_0000_0000

  type u8 = x: int | 0 <= x < U8_LIMIT
  type u32 = x: int | 0 <= x < U32_LIMIT
  type u64 = x: int | 0 <= x < U64_LIMIT

  const U64_MAX: u64 := U64_LIMIT - 1

  /** `u64::wrapping_add`, the arithmetic of `AtomicU64::fetch_add`. */
  function WrappingAddU64(a: u64, b: u64): (r: u64)
    ensures a + b < U64_LIMIT ==> r == a + b
    ensures a + b >= U64_LIMIT ==> r == a + b - U64_LIMIT
  {
    (a + b) % U64_LIMIT
  }

  /** `as u64` from a wider unsigned integer: keeps the low 64 bits. */
  function TruncateToU64(x: nat): (r: u64)
    ensures x < U64_LIMIT ==> r == x
  {
    x % U64_LIMIT
  }

  /**
   * `as u64` from a float: drops the fraction and saturates, so anything
   * at or below zero gives 0 and anything past the range gives the maximum.
   */
  function RealToU64(x: real): (r: u64)
    ensures 0.0 <= x ==> r <= x.Floor
    ensures 0.0 <= x && x.Floor < U64_LIMIT ==> r == x.Floor
  {
    if x <= 0.0 then 0 else if x.Floor >= U64_LIMIT then U64_MAX else x.Floor
  }
}
