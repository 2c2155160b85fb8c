// The machine integers whose bounds matter.
module Widths {

  type u32 = x: nat | x <= 0xFFFF_FFFF

  type u64 = x: nat | x <= 0xFFFF_FFFF_FFFF_FFFF

  const U32_MAX: u32 := 0xFFFF_FFFF
  const U64_MAX: u64 := 0xFFFF_FFFF_FFFF_FFFF
  const I32_MAX: u32 := 0x7FFF_FFFF
  const I64_MAX: u64 := 0x7FFF_FFFF_FFFF_FFFF
}
