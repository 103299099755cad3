/** The fixed-width integers the agent computes with. Values are plain `int`s
    kept in range; the operators that can leave the range wrap explicitly. */
module MachineInts {

  const TWO32: int := 0x1_0000_0000
  const TWO64: int := 0x1_0000_0000_0000_0000

  type byte = x: int | 0 <= x < 0x100
  type int16 = x: int | -0x8000 <= x < 0x8000
  type uint16 = x: int | 0 <= x < 0x1_0000
  type int32 = x: int | -0x8000_0000 <= x < 0x8000_0000
  type uint32 = x: int | 0 <= x < 0x1_0000_0000
  type uint64 = x: int | 0 <= x < 0x1_0000_0000_0000_0000

  /** `a - b` on uint64_t. */
  function Sub64(a: uint64, b: uint64): (r: uint64)
  {
    if b <= a then a - b else a - b + TWO64
  }

  /** `a + b` on uint64_t. */
  function Add64(a: uint64, b: uint64): (r: uint64)
  {
    if a + b < TWO64 then a + b else a + b - TWO64
  }

  /** Conversion to uint32_t, for every integer. */
  function Wrap32(x: int): (r: uint32)
  {
    x % TWO32
  }
}
