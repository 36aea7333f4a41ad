/** Single-bit access on 8-bit registers (getBit / updateBit). */
module Bits {

  /** A bit position inside an 8-bit register. */
  type BitIndex = b: bv8 | b < 8

  /** Whether bit `bit` of `value` is set. */
  function GetBit(value: bv8, bit: BitIndex): (b: bool)
    ensures b <==> value & (1 << bit) != 0
  {
    (value >> bit) & 1 == 1
  }

  /** `value` with bit `bit` forced to `setToTrue`; every other bit is kept. */
  function UpdateBit(value: bv8, bit: BitIndex, setToTrue: bool): (r: bv8)
    ensures GetBit(r, bit) == setToTrue
    ensures forall j: BitIndex :: j != bit ==> GetBit(r, j) == GetBit(value, j)
  {
    if setToTrue then value | (1 << bit) else value & !(1 << bit)
  }
}
