/** Machine integer types and small library types that every module shares. */
module Prim {

  /** Rust's `u8`. */
  type u8 = x: int | 0 <= x < 0x100

  /** Rust's `u16`. */
  type u16 = x: int | 0 <= x < 0x1_0000

  /** Rust's `i16`. */
  type i16 = x: int | -0x8000 <= x < 0x8000

  datatype Option<+T> = None | Some(value: T)

  /** Rust's `std::cmp::Ordering`, the result of a derived `cmp`. */
  datatype Ordering = Less | Equal | Greater
}
