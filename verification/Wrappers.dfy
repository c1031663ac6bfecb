/** Optional values, results, and the saturating 64-bit sums of the original. */
module Wrappers {
  datatype Option<T> = None | Some(value: T)

  datatype Result<T, E> = Ok(value: T) | Err(error: E)

  const U64_MAX: nat := 0xFFFF_FFFF_FFFF_FFFF
  type U64 = n: nat | n <= U64_MAX

  function SatAdd(a: nat, b: nat): U64 { if a + b > U64_MAX then U64_MAX else a + b }
  function SatSub(a: U64, b: U64): U64 { if a < b then 0 else a - b }
  function SatMul(a: nat, b: nat): U64 { if a * b > U64_MAX then U64_MAX else a * b }
}
