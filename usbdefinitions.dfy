// Timeouts, retry counts, endpoints and command indices shared by the USB layer.
module UsbDefinitions {
  /** Timeout of a single transfer, and of one chunk of a multi-packet read, in ms. */
  const TIMEOUT: int := 500
  const TIMEOUT_MULTI: int := 100
  /** How often a transfer is tried, and how often one chunk of a multi-packet read is. */
  const ATTEMPTS: int := 3
  const ATTEMPTS_MULTI: int := 1

  /** The bulk endpoints: OUT 2 and IN 6 (direction bit 0x80 set). */
  const EP_OUT: int := 0x02
  const EP_IN: int := 0x86

  /** The connection speeds the device reports. */
  const CONNECTION_FULLSPEED: int := 0
  const CONNECTION_HIGHSPEED: int := 1

  /** The command slots CONTROL_BEGINCOMMAND can announce. */
  const COMMANDINDEX_0: bv8 := 0x03
  const COMMANDINDEX_1: bv8 := 0x0a
  const COMMANDINDEX_2: bv8 := 0x09
  const COMMANDINDEX_3: bv8 := 0x01
  const COMMANDINDEX_4: bv8 := 0x02
  const COMMANDINDEX_5: bv8 := 0x08
}
