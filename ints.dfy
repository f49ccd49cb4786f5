/** The fixed-width integer types of the C# wrapper and the one cast it performs. */
module Ints {

  newtype byte = x: int | 0 <= x < 0x100
  newtype int16 = x: int | -0x8000 <= x < 0x8000
  newtype int32 = x: int | -0x8000_0000 <= x < 0x8000_0000
  newtype uint32 = x: int | 0 <= x < 0x1_0000_0000

  /** C#'s `(int)u` in an unchecked context: the same 32 bits read as a signed number. */
  function ToInt32Unchecked(u: uint32): (r: int32)
    ensures (r as int - u as int) % 0x1_0000_0000 == 0
    ensures u < 0x8000_0000 <==> r >= 0
  {
    if u < 0x8000_0000 then u as int as int32 else (u as int - 0x1_0000_0000) as int32
  }
}
