/** The C integer types the harnesses count with, and their wrap-around. */
module CInts {
  /** `guint`. */
  newtype uint32 = x: int | 0 <= x < 0x1_0000_0000

  /** `gint` / `int`. */
  newtype int32 = x: int | -0x8000_0000 <= x < 0x8000_0000

  /** `guint` increment, wrapping at 2^32. */
  function Inc(n: uint32): (r: uint32)
    ensures r as int == (n as int + 1) % 0x1_0000_0000
  {
    if n == 0xFFFF_FFFF then 0 else n + 1
  }

  /** The two's-complement 32-bit value of `x`: what storing an out-of-range
      sum into a `gint` gives on the platforms GLib supports. */
  function WrapInt32(x: int): (r: int32)
    ensures (r as int - x) % 0x1_0000_0000 == 0
    ensures -0x8000_0000 <= x < 0x8000_0000 ==> r as int == x
  {
    ((x + 0x8000_0000) % 0x1_0000_0000 - 0x8000_0000) as int32
  }
}
