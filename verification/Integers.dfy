/** Bounds of the machine integers the source uses. */
module Integers {
  const U16_MAX: nat := 0xFFFF
  const U32_MAX: nat := 0xFFFF_FFFF
  const U64_MAX: nat := 0xFFFF_FFFF_FFFF_FFFF
  const U128_MAX: nat := 0xFFFF_FFFF_FFFF_FFFF_FFFF_FFFF_FFFF_FFFF
  const I64_MAX: nat := 0x7FFF_FFFF_FFFF_FFFF
}
