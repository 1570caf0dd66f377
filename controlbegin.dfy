// CONTROL_BEGINCOMMAND's payload: announces a bulk command in one of the
// device's command slots.
module ControlBegin {
  import UsbDefinitions

  /** The length of the payload. */
  const LENGTH: nat := 10

  class ControlBeginCommand {
    const data: array<bv8>

    ghost predicate Valid()
      reads this
    {
      data.Length == LENGTH
    }

    /** Byte 0 is always 0x0f and byte 1 the command slot; bytes 2-9 stay as the
      * buffer was allocated (zero-filled in this model). */
    constructor (index: bv8)
      ensures Valid() && fresh(data)
      ensures data[0] == 0x0f && data[1] == index
      ensures data[2..] == seq(LENGTH - 2, _ => 0 as bv8)
    {
      data := new bv8[LENGTH](_ => 0);
      new;
      data[0] := 0x0f;
      data[1] := index;
    }

    /** The slot used when none is given. */
    constructor Default()
      ensures Valid() && fresh(data)
      ensures data[0] == 0x0f && data[1] == UsbDefinitions.COMMANDINDEX_0
      ensures data[2..] == seq(LENGTH - 2, _ => 0 as bv8)
    {
      data := new bv8[LENGTH](_ => 0);
      new;
      data[0] := 0x0f;
      data[1] := UsbDefinitions.COMMANDINDEX_0;
    }
  }
}
