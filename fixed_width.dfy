/** The unsigned and signed fixed-width integer types of `<cstdint>`. */
module FixedWidth {
  newtype uint8 = x: int | 0 <= x < 0x100
  newtype uint16 = x: int | 0 <= x < 0x1_0000
  newtype uint32 = x: int | 0 <= x < 0x1_0000_0000
  newtype uint64 = x: int | 0 <= x < 0x1_0000_0000_0000_0000
  newtype int16 = x: int | -0x8000 <= x < 0x8000
  newtype int32 = x: int | -0x8000_0000 <= x < 0x8000_0000

  const UINT32_MODULUS: int := 0x1_0000_0000

  /** `a - b` on `uint32_t`: the difference taken modulo 2^32. */
  function Sub32(a: uint32, b: uint32): (r: uint32)
    ensures a >= b ==> r as int == a as int - b as int
    ensures a < b ==> r as int == a as int - b as int + UINT32_MODULUS
  {
    ((a as int - b as int) % UINT32_MODULUS) as uint32
  }

  /** `a + b` on `uint32_t`: the sum taken modulo 2^32. */
  function Add32(a: uint32, b: uint32): (r: uint32)
    ensures a as int + b as int < UINT32_MODULUS ==> r as int == a as int + b as int
    ensures a as int + b as int >= UINT32_MODULUS ==> r as int == a as int + b as int - UINT32_MODULUS
  {
    ((a as int + b as int) % UINT32_MODULUS) as uint32
  }

  /** A conversion to `int16_t`: the value is kept modulo 2^16, in [-2^15, 2^15). */
  function ToInt16(x: int): (r: int16)
    ensures -0x8000 <= x < 0x8000 ==> r as int == x
    ensures (x - r as int) % 0x1_0000 == 0
  {
    var w := x % 0x1_0000;
    (if w >= 0x8000 then w - 0x1_0000 else w) as int16
  }
}
