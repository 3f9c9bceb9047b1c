/** Small shared vocabulary: optional values, results, and the 64-bit unsigned integers of the source. */
module Prelude {

  const U64_MAX: nat := 0xFFFF_FFFF_FFFF_FFFF

  type u64 = x: int | 0 <= x <= U64_MAX

  datatype Option<+T> = None | Some(value: T)

  datatype Result<+T, +E> = Ok(value: T) | Err(error: E)

  /** The source's `saturating_add` on `u64`. */
  function SaturatingAdd(a: u64, b: u64): u64 {
    if a + b <= U64_MAX then a + b else U64_MAX
  }

  /** `Instant::elapsed`: the time since `since`, zero if the clock reads earlier. */
  function Elapsed(now: nat, since: nat): nat {
    if now < since then 0 else now - since
  }
}
