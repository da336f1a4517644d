/** The fixed-width C integer types the quickening header works with. */
module MachineTypes {

  const Int32Min: int := -0x8000_0000
  const Int32Max: int := 0x7FFF_FFFF

  /** True when `x` is representable as a C `int` (32 bits, two's complement). */
  predicate InInt32(x: int) { Int32Min <= x <= Int32Max }

  type int32 = x: int | InInt32(x)
  type uint8 = x: int | 0 <= x < 0x100
  type uint16 = x: int | 0 <= x < 0x1_0000

  /** `x >> 1` on a signed `int`. The compilers the runtime supports shift
      arithmetically, so this rounds toward minus infinity (for every `x`,
      negative ones included); Dafny's `/` by a positive divisor does the same. */
  function ShiftRight1(x: int32): (r: int32)
    ensures 2 * r <= x < 2 * r + 2
    ensures -0x4000_0000 <= r < 0x4000_0000
  {
    var q := x / 2;
    assert x == 2 * q + x % 2 && 0 <= x % 2 < 2;
    assert InInt32(x);
    q
  }
}
