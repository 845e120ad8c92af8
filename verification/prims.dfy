/** Rust primitive types and the standard `Option`, as the three programs use them. */
module Prims {

  /** Rust's `Option<T>`. */
  datatype Option<+T> = None | Some(value: T)

  const U16_MAX := 0xFFFF
  const I32_MIN := -0x8000_0000
  const I32_MAX := 0x7FFF_FFFF
  /** `usize` is taken to be 64 bits wide (the programs' usual target). */
  const USIZE_MODULUS := 0x1_0000_0000_0000_0000

  /** Rust `u16`. */
  type u16 = x: int | 0 <= x <= U16_MAX

  /** Rust `i32`. */
  type i32 = x: int | I32_MIN <= x <= I32_MAX

  /** Rust `usize` on a 64-bit target. */
  type usize = x: int | 0 <= x < USIZE_MODULUS

  /** Whether a mathematical integer is representable as an `i32` (no overflow). */
  predicate FitsI32(x: int) {
    I32_MIN <= x <= I32_MAX
  }
}
