/** Small building blocks shared by every other module: the Rust integer
    widths the source uses, and Option/Result for its fallible operations. */
module Common {

  datatype Option<T> = None | Some(value: T)

  datatype Result<T, E> = Ok(value: T) | Err(error: E)

  const I64_MIN: int := -0x8000_0000_0000_0000
  const I64_MAX: int := 0x7FFF_FFFF_FFFF_FFFF
  /** 2^64: one more than the largest `u64` (and, on 64-bit targets, `usize`). */
  const U64_LIMIT: int := 0x1_0000_0000_0000_0000
  const U64_MAX: int := 0xFFFF_FFFF_FFFF_FFFF

  /** Rust `i64`. */
  type Int64 = x: int | -0x8000_0000_0000_0000 <= x <= 0x7FFF_FFFF_FFFF_FFFF
  /** Rust `u64`. */
  type Uint64 = x: int | 0 <= x <= 0xFFFF_FFFF_FFFF_FFFF
  /** Rust `u32`. */
  type Uint32 = x: int | 0 <= x <= 0xFFFF_FFFF
  /** Rust `usize` on the 64-bit targets the benchmarks run on. */
  type Usize = Uint64
}
