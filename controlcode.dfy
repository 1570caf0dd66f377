// The request numbers of the vendor control transfers.
module ControlCode {
  const VALUE: bv8 := 0xa2
  const GETSPEED: bv8 := 0xb2
  const BEGINCOMMAND: bv8 := 0xb3
  const SETOFFSET: bv8 := 0xb4
  const SETRELAYS: bv8 := 0xb5
  const SETVOLTDIV_CH1: bv8 := 0xe0
  const SETVOLTDIV_CH2: bv8 := 0xe1
  const SETTIMEDIV: bv8 := 0xe2
  const ACQUIRE_HARD_DATA: bv8 := 0xe3
}
