/** Fixed-width integer types of the C source, as subsets of the unbounded integers.
    Unsigned wrap-around is written out explicitly wherever the source relies on it. */
module MachineInts {

  const TWO_TO_THE_8: int := 0x100
  const TWO_TO_THE_16: int := 0x1_0000
  const TWO_TO_THE_32: int := 0x1_0000_0000
  const TWO_TO_THE_64: int := 0x1_0000_0000_0000_0000

  type uint8 = x: int | 0 <= x < 0x100
  type uint16 = x: int | 0 <= x < 0x1_0000
  type uint32 = x: int | 0 <= x < 0x1_0000_0000
  type int16 = x: int | -0x8000 <= x < 0x8000
  type int32 = x: int | -0x8000_0000 <= x < 0x8000_0000

  /** Conversion of a C `int` into a `uint32_t` field: reduction modulo 2^32. */
  function ToUint32(x: int): uint32
  {
    x % TWO_TO_THE_32
  }

  /** Conversion of a C `int` into a `uint8_t` field: reduction modulo 2^8. */
  function ToUint8(x: int): uint8
  {
    x % TWO_TO_THE_8
  }

  function Min(a: int, b: int): int
  {
    if a <= b then a else b
  }
}
