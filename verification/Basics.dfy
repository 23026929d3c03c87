/** Small datatypes and sequence facts shared by every module. */
module Basics {

  datatype Option<+T> = None | Some(value: T)

  datatype Result<+T, +E> = Ok(value: T) | Err(error: E)

  newtype Octet = x: int | 0 <= x < 256

  type Bytes = seq<Octet>

  /** A file system path, as its list of components. */
  type Path = seq<string>

  const U64_MAX: nat := 0xFFFF_FFFF_FFFF_FFFF
  const I64_MAX: nat := 0x7FFF_FFFF_FFFF_FFFF

  function Min(a: nat, b: nat): nat {
    if a <= b then a else b
  }

  /** Rust's `saturating_add` on u64. */
  function SaturatingAdd(a: nat, b: nat): nat {
    Min(a + b, U64_MAX)
  }

  /** Rust's `saturating_sub` on u64. */
  function SaturatingSub(a: int, b: int): nat {
    if b <= a then a - b else 0
  }
}
