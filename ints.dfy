/** Fixed-width integer ranges used by the samples. Every value stays an
    unbounded `int`; the subset types only record the range the source's
    type admits, so an operation that could leave it must be proved not to. */
module Ints {
  /** Rust `i32`, Java `int`, C++ `int` (taken to be 32 bits). */
  type i32 = x: int | -0x8000_0000 <= x < 0x8000_0000

  /** Rust `u16`. */
  type u16 = x: int | 0 <= x < 0x1_0000

  /** Rust `u64`. */
  type u64 = x: int | 0 <= x < 0x1_0000_0000_0000_0000
}
