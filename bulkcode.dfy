// The first byte of every bulk command: its opcode, numbered in the order of
// the BulkCode enumeration; the same numbers index the per-opcode command tables.
module BulkCode {
  const SETFILTER: nat := 0x00
  const SETTRIGGERANDSAMPLERATE: nat := 0x01
  const FORCETRIGGER: nat := 0x02
  const STARTSAMPLING: nat := 0x03
  const ENABLETRIGGER: nat := 0x04
  const GETDATA: nat := 0x05
  const GETCAPTURESTATE: nat := 0x06
  const SETGAIN: nat := 0x07
  const SETLOGICALDATA: nat := 0x08
  const GETLOGICALDATA: nat := 0x09
  const AUNKNOWN: nat := 0x0a
  const BSETCHANNELS: nat := 0x0b
  const CSETTRIGGERORSAMPLERATE: nat := 0x0c
  const DSETBUFFER: nat := 0x0d
  const ESETTRIGGERORSAMPLERATE: nat := 0x0e
  const FSETBUFFER: nat := 0x0f
  /** The number of bulk opcodes, and the size of the per-opcode command tables. */
  const COUNT: nat := 16
}
