/** The fixed-width integer types of the C# source and the unchecked (wrapping)
    arithmetic that C# performs on them by default. */
module Ints {

  const Two64: int := 0x1_0000_0000_0000_0000
  const Two63: int := 0x8000_0000_0000_0000

  type byte = x: int | 0 <= x < 0x100
  type u32 = x: int | 0 <= x < 0x1_0000_0000
  type i32 = x: int | -0x8000_0000 <= x < 0x8000_0000
  type u64 = x: int | 0 <= x < 0x1_0000_0000_0000_0000
  type i64 = x: int | -0x8000_0000_0000_0000 <= x < 0x8000_0000_0000_0000

  /** The sixteen bytes of a `System.Guid`. */
  type Guid = b: seq<byte> | |b| == 16 witness [0, 0, 0, 0, 0, 0, 0, 0, 0, 0, 0, 0, 0, 0, 0, 0]

  /** `a + b` on two `ulong`s in an unchecked context. */
  function Add(a: u64, b: u64): (r: u64)
    ensures a + b < Two64 ==> r == a + b
    ensures a + b >= Two64 ==> r == a + b - Two64
  {
    (a + b) % Two64
  }

  /** `a - b` on two `ulong`s in an unchecked context. */
  function Sub(a: u64, b: u64): (r: u64)
    ensures b <= a ==> r == a - b
    ensures a < b ==> r == a - b + Two64
  {
    (a - b) % Two64
  }

  /** The unchecked cast `(long)u` of a `ulong`: values from 2^63 up
      reappear as negative numbers. */
  function ToInt64(u: u64): (r: i64)
    ensures (r + Two64) % Two64 == u
    ensures r >= 0 <==> u < Two63
  {
    if u < Two63 then u else u - Two64
  }

  /** `x & ~0xff000000` on a `ulong`: clears bits 24 to 31 and keeps every
      other bit. */
  function ClearBits24To31(x: u64): u64
  {
    x - ((x / 0x100_0000) % 0x100) * 0x100_0000
  }

  /** The mask keeps bits 0 to 23 and every bit from 32 up, and leaves
      bits 24 to 31 zero. */
  lemma ClearBits24To31Keeps(x: u64)
    ensures ClearBits24To31(x) <= x
    ensures ClearBits24To31(x) % 0x100_0000 == x % 0x100_0000
    ensures (ClearBits24To31(x) / 0x100_0000) % 0x100 == 0
    ensures ClearBits24To31(x) / 0x1_0000_0000 == x / 0x1_0000_0000
  {
  }
}
