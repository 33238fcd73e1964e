/** Fixed-width machine integers of the source (u8 … u128, i128) as subset types
    of `int`, together with Rust's checked and wrapping arithmetic on them. */
module MachineInts {
  import opened Wrappers

  const U16_LIMIT: int := 0x1_0000
  const U32_LIMIT: int := 0x1_0000_0000
  const U64_LIMIT: int := 0x1_0000_0000_0000_0000
  const U128_LIMIT: int := 0x1_0000_0000_0000_0000_0000_0000_0000_0000

  const U32_MAX: int := U32_LIMIT - 1
  const U64_MAX: int := U64_LIMIT - 1
  const U128_MAX: int := U128_LIMIT - 1
  const I128_MIN: int := -0x8000_0000_0000_0000_0000_0000_0000_0000
  const I128_MAX: int := 0x7fff_ffff_ffff_ffff_ffff_ffff_ffff_ffff

  type byte = x: int | 0 <= x < 256
  type u16 = x: int | 0 <= x < U16_LIMIT
  type u32 = x: int | 0 <= x < U32_LIMIT
  type u64 = x: int | 0 <= x < U64_LIMIT
  type u128 = x: int | 0 <= x < U128_LIMIT
  type i128 = x: int | I128_MIN <= x <= I128_MAX

  function CheckedAdd32(a: u32, b: u32): (r: Option<u32>)
    ensures r == if a + b <= U32_MAX then Some(a + b) else None
  {
    if a + b < U32_LIMIT then Some(a + b) else None
  }

  function CheckedSub32(a: u32, b: u32): (r: Option<u32>)
    ensures r == if b <= a then Some(a - b) else None
  {
    if b <= a then Some(a - b) else None
  }

  function CheckedMul32(a: u32, b: u32): (r: Option<u32>)
    ensures r == if a * b <= U32_MAX then Some(a * b) else None
  {
    if a * b < U32_LIMIT then Some(a * b) else None
  }

  function CheckedAdd64(a: u64, b: u64): (r: Option<u64>)
    ensures r == if a + b <= U64_MAX then Some(a + b) else None
  {
    if a + b < U64_LIMIT then Some(a + b) else None
  }

  function CheckedSub64(a: u64, b: u64): (r: Option<u64>)
    ensures r == if b <= a then Some(a - b) else None
  {
    if b <= a then Some(a - b) else None
  }

  function CheckedMul64(a: u64, b: u64): (r: Option<u64>)
    ensures r == if a * b <= U64_MAX then Some(a * b) else None
  {
    if a * b < U64_LIMIT then Some(a * b) else None
  }

  /** `usize_to_u32`: fails when the value does not fit in 32 bits. */
  function UsizeToU32(n: nat): (r: Option<u32>)
    ensures r == if n <= U32_MAX then Some(n) else None
  {
    if n < U32_LIMIT then Some(n) else None
  }

  /** `u128::checked_add(1)` on a counter. */
  function CheckedInc128(a: u128): (r: Option<u128>)
    ensures r.Some? <==> a < U128_MAX
    ensures r.Some? ==> r.value == a + 1
  {
    if a + 1 < U128_LIMIT then Some(a + 1) else None
  }

  /** `u128::wrapping_add(1)`. */
  function WrappingInc128(a: u128): (r: u128)
    ensures a < U128_MAX ==> r == a + 1
    ensures a == U128_MAX ==> r == 0
  {
    (a + 1) % U128_LIMIT
  }

  /** `u64::wrapping_add(1)`. */
  function WrappingInc64(a: u64): (r: u64)
    ensures a < U64_MAX ==> r == a + 1
    ensures a == U64_MAX ==> r == 0
  {
    (a + 1) % U64_LIMIT
  }
}
