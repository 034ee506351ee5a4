/** Failure-compatible wrappers and the machine-integer conversions the engine relies on.
    The engine is compiled to wasm32, so `usize` is 32 bits wide. */
module Base {

  datatype Option<T> = None | Some(value: T)

  datatype Result<T, E> = Ok(value: T) | Err(error: E)

  const U32_LIMIT: int := 0x1_0000_0000
  const USIZE_MAX: int := 0xFFFF_FFFF
  const I32_MAX: int := 0x7FFF_FFFF

  /** Rust's `i32`. */
  type i32 = x: int | -0x8000_0000 <= x <= 0x7FFF_FFFF

  /** `x as u32` for an `i32`: the two's-complement reinterpretation. */
  function U32FromI32(x: i32): (r: nat)
    ensures r < U32_LIMIT
    ensures (r - x) % U32_LIMIT == 0
    ensures x >= 0 ==> r == x
  {
    if x < 0 then x + U32_LIMIT else x
  }

  /** `n as i32` for a wasm32 `usize`: keeps the low 32 bits, read as signed. */
  function I32FromUsize(n: nat): (r: i32)
    requires n <= USIZE_MAX
    ensures (n - r) % U32_LIMIT == 0
    ensures n <= I32_MAX ==> r == n
  {
    if n <= I32_MAX then n else n - U32_LIMIT
  }

  /** `x as usize` for a float on wasm32: truncation toward zero, saturating at both ends. */
  function UsizeFromReal(x: real): (n: nat)
    ensures n <= USIZE_MAX
    ensures x <= 0.0 ==> n == 0
    ensures 0.0 <= x < USIZE_MAX as real ==> n as real <= x < n as real + 1.0
    ensures x >= USIZE_MAX as real ==> n == USIZE_MAX
  {
    if x <= 0.0 then 0 else if x >= USIZE_MAX as real then USIZE_MAX else x.Floor
  }
}
