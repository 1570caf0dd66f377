// The payloads of the vendor control requests that configure the analog front
// end: channel and trigger offsets, relays, and the DSO-6022 divider bytes.
module ControlStructs {
  import opened Bits

  /** The payload length of CONTROL_SETOFFSET and CONTROL_SETRELAYS. */
  const LENGTH: nat := 17

  /** CONTROL_SETOFFSET: 12-bit offsets, big-endian, for channel 0 in bytes 0-1,
    * channel 1 in bytes 2-3 and the trigger in bytes 4-5. The setters write
    * all 16 bits; the getters drop the top four. */
  class ControlSetOffset {
    const data: array<bv8>

    ghost predicate Valid()
    {
      data.Length == LENGTH
    }

    constructor ()
      ensures Valid() && fresh(data)
    {
      data := new bv8[LENGTH](_ => 0);
    }

    constructor WithOffsets(channel1: bv16, channel2: bv16, trigger: bv16)
      ensures Valid() && fresh(data)
      ensures GetChannel(0) == channel1 & 0x0fff && GetChannel(1) == channel2 & 0x0fff
      ensures GetTrigger() == trigger & 0x0fff
    {
      data := new bv8[LENGTH](_ => 0);
      new;
      SetChannel(0, channel1);
      SetChannel(1, channel2);
      SetTrigger(trigger);
    }

    /** Channel 0 from bytes 0-1, any other channel from bytes 2-3. */
    function GetChannel(channel: nat): (offset: bv16)
      requires Valid()
      reads data
      ensures offset <= 0x0fff
    {
      if channel == 0 then Le16(data[1], data[0] & 0x0f) else Le16(data[3], data[2] & 0x0f)
    }

    method SetChannel(channel: nat, offset: bv16)
      requires Valid()
      modifies data
      ensures channel == 0 ==> data[..] == old(data[..])[0 := High(offset)][1 := Low(offset)]
      ensures channel != 0 ==> data[..] == old(data[..])[2 := High(offset)][3 := Low(offset)]
      ensures GetChannel(channel) == offset & 0x0fff
      ensures GetChannel(if channel == 0 then 1 else 0) == old(GetChannel(if channel == 0 then 1 else 0))
      ensures GetTrigger() == old(GetTrigger())
    {
      if channel == 0 {
        data[0] := High(offset);
        data[1] := Low(offset);
      } else {
        data[2] := High(offset);
        data[3] := Low(offset);
      }
      Le16Split(offset);
    }

    function GetTrigger(): (level: bv16)
      requires Valid()
      reads data
      ensures level <= 0x0fff
    {
      Le16(data[5], data[4] & 0x0f)
    }

    method SetTrigger(level: bv16)
      requires Valid()
      modifies data
      ensures data[..] == old(data[..])[4 := High(level)][5 := Low(level)]
      ensures GetTrigger() == level & 0x0fff
      ensures GetChannel(0) == old(GetChannel(0)) && GetChannel(1) == old(GetChannel(1))
    {
      data[4] := High(level);
      data[5] := Low(level);
      Le16Split(level);
    }
  }

  /** The seven relay states of CONTROL_SETRELAYS, per channel 0 and 1. */
  datatype Relays = Relays(below1V0: bool, below100mV0: bool, couplingDc0: bool,
                           below1V1: bool, below100mV1: bool, couplingDc1: bool,
                           triggerExt: bool)

  /** CONTROL_SETRELAYS: each relay owns one byte and is on when its bit is
    * clear. Channel 0 uses bytes 1, 2 and 3, channel 1 bytes 4, 5 and 6 and
    * the external trigger byte 7; any channel index but 0 addresses channel 1. */
  class ControlSetRelays {
    const data: array<bv8>

    ghost predicate Valid()
    {
      data.Length == LENGTH
    }

    /** All relay states at once. */
    function State(): Relays
      requires Valid()
      reads data
    {
      Relays(GetBelow1V(0), GetBelow100mV(0), GetCoupling(0),
             GetBelow1V(1), GetBelow100mV(1), GetCoupling(1), GetTrigger())
    }

    /** Every argument defaults to false in the source. */
    constructor (ch1Below1V: bool, ch1Below100mV: bool, ch1CouplingDC: bool, ch2Below1V: bool,
                 ch2Below100mV: bool, ch2CouplingDC: bool, triggerExt: bool)
      ensures Valid() && fresh(data)
      ensures State() == Relays(ch1Below1V, ch1Below100mV, ch1CouplingDC,
                                ch2Below1V, ch2Below100mV, ch2CouplingDC, triggerExt)
    {
      data := new bv8[LENGTH](_ => 0);
      new;
      SetBelow1V(0, ch1Below1V);
      SetBelow100mV(0, ch1Below100mV);
      SetCoupling(0, ch1CouplingDC);
      SetBelow1V(1, ch2Below1V);
      SetBelow100mV(1, ch2Below100mV);
      SetCoupling(1, ch2CouplingDC);
      SetTrigger(triggerExt);
    }

    function GetBelow1V(channel: nat): bool
      requires Valid()
      reads data
    {
      if channel == 0 then data[1] & 0x04 == 0 else data[4] & 0x20 == 0
    }

    method SetBelow1V(channel: nat, below: bool)
      requires Valid()
      modifies data
      ensures channel == 0 ==> data[..] == old(data[..])[1 := if below then 0xfb else 0x04]
      ensures channel != 0 ==> data[..] == old(data[..])[4 := if below then 0xdf else 0x20]
      ensures State() == if channel == 0 then old(State()).(below1V0 := below) else old(State()).(below1V1 := below)
    {
      if channel == 0 {
        data[1] := if below then 0xfb else 0x04;
      } else {
        data[4] := if below then 0xdf else 0x20;
      }
    }

    function GetBelow100mV(channel: nat): bool
      requires Valid()
      reads data
    {
      if channel == 0 then data[2] & 0x08 == 0 else data[5] & 0x40 == 0
    }

    method SetBelow100mV(channel: nat, below: bool)
      requires Valid()
      modifies data
      ensures channel == 0 ==> data[..] == old(data[..])[2 := if below then 0xf7 else 0x08]
      ensures channel != 0 ==> data[..] == old(data[..])[5 := if below then 0xbf else 0x40]
      ensures State() == if channel == 0 then old(State()).(below100mV0 := below) else old(State()).(below100mV1 := below)
    {
      if channel == 0 {
        data[2] := if below then 0xf7 else 0x08;
      } else {
        data[5] := if below then 0xbf else 0x40;
      }
    }

    /** True when the channel is DC coupled. */
    function GetCoupling(channel: nat): bool
      requires Valid()
      reads data
    {
      if channel == 0 then data[3] & 0x02 == 0 else data[6] & 0x10 == 0
    }

    method SetCoupling(channel: nat, dc: bool)
      requires Valid()
      modifies data
      ensures channel == 0 ==> data[..] == old(data[..])[3 := if dc then 0xfd else 0x02]
      ensures channel != 0 ==> data[..] == old(data[..])[6 := if dc then 0xef else 0x10]
      ensures State() == if channel == 0 then old(State()).(couplingDc0 := dc) else old(State()).(couplingDc1 := dc)
    {
      if channel == 0 {
        data[3] := if dc then 0xfd else 0x02;
      } else {
        data[6] := if dc then 0xef else 0x10;
      }
    }

    /** True when the trigger comes from the external connector. */
    function GetTrigger(): bool
      requires Valid()
      reads data
    {
      data[7] & 0x01 == 0
    }

    method SetTrigger(ext: bool)
      requires Valid()
      modifies data
      ensures data[..] == old(data[..])[7 := if ext then 0xfe else 0x01]
      ensures State() == old(State()).(triggerExt := ext)
    {
      data[7] := if ext then 0xfe else 0x01;
    }
  }

  /** The one-byte divider payloads of the DSO-6022: CONTROL_SETVOLTDIV_CH1,
    * CONTROL_SETVOLTDIV_CH2 (both default 5) and CONTROL_SETTIMEDIV (default 1). */
  class ControlSetVoltDivCh1 {
    const data: array<bv8>

    constructor ()
      ensures fresh(data) && data[..] == [5]
    {
      data := new bv8[1](_ => 0);
      new;
      SetDiv(5);
    }

    method SetDiv(value: bv8)
      requires data.Length == 1
      modifies data
      ensures data[..] == [value]
    {
      data[0] := value;
    }
  }

  class ControlSetVoltDivCh2 {
    const data: array<bv8>

    constructor ()
      ensures fresh(data) && data[..] == [5]
    {
      data := new bv8[1](_ => 0);
      new;
      SetDiv(5);
    }

    method SetDiv(value: bv8)
      requires data.Length == 1
      modifies data
      ensures data[..] == [value]
    {
      data[0] := value;
    }
  }

  class ControlSetTimeDiv {
    const data: array<bv8>

    constructor ()
      ensures fresh(data) && data[..] == [1]
    {
      data := new bv8[1](_ => 0);
      new;
      SetDiv(1);
    }

    method SetDiv(value: bv8)
      requires data.Length == 1
      modifies data
      ensures data[..] == [value]
    {
      data[0] := value;
    }
  }

  /** CONTROL_ACQUIRE_HARD_DATA: the single byte 0x01. */
  class ControlAcquireHardData {
    const data: array<bv8>

    constructor ()
      ensures fresh(data) && data[..] == [0x01]
    {
      data := new bv8[1](_ => 0);
      new;
      data[0] := 0x01;
    }
  }
}
