/**
 * Fixed-width integer arithmetic of the C sources, written out explicitly.
 * Dafny integers are unbounded; wherever the kernel code relies on (or
 * suffers from) 32- or 64-bit wrap-around, the model goes through these
 * helpers.
 */
module Machine {

  const U32: nat := 0x1_0000_0000
  const U64: nat := 0x1_0000_0000_0000_0000
  const S32_LIMIT: nat := 0x8000_0000
  const S64_LIMIT: nat := 0x8000_0000_0000_0000

  /** UINT_MAX and ULONG_MAX (64-bit kernel). */
  const UINT_MAX: nat := U32 - 1
  const ULONG_MAX: nat := U64 - 1
  /** LONG_MIN of a 64-bit kernel. */
  const LONG_MIN: int := -(S64_LIMIT as int)

  /** Reduction modulo 2^32: what a `u32` variable holds after an assignment. */
  function Wrap32(x: int): (r: nat)
    ensures r < U32
    ensures 0 <= x < U32 ==> r == x
  {
    x % U32
  }

  /** Reduction modulo 2^64: what an `unsigned long`/`u64` holds after an assignment. */
  function Wrap64(x: int): (r: nat)
    ensures r < U64
    ensures 0 <= x < U64 ==> r == x
  {
    x % U64
  }

  /** The `(int32_t)` cast of a 32-bit unsigned value (two's complement). */
  function ToS32(x: nat): (r: int)
    requires x < U32
    ensures -(S32_LIMIT as int) <= r < S32_LIMIT
    ensures r >= 0 <==> x < S32_LIMIT
    ensures Wrap32(r) == x
  {
    if x < S32_LIMIT then x else x - U32
  }

  /** The `(s64)` cast of a 64-bit unsigned value (two's complement). */
  function ToS64(x: nat): (r: int)
    requires x < U64
    ensures -(S64_LIMIT as int) <= r < S64_LIMIT
    ensures r >= 0 <==> x < S64_LIMIT
    ensures Wrap64(r) == x
  {
    if x < S64_LIMIT then x else x - U64
  }

  /** C's `/` on signed integers: the quotient truncated toward zero. */
  function CDiv(a: int, b: nat): (q: int)
    requires b > 0
    ensures a >= 0 ==> q == a / b
    ensures a < 0 ==> q == -((-a) / b)
  {
    if a >= 0 then a / b else -((-a) / b)
  }

  function Min(a: int, b: int): int { if a <= b then a else b }
  function Max(a: int, b: int): int { if a >= b then a else b }
}
