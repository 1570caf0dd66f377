// The bulk command packets: fixed-length byte buffers whose first byte is the
// opcode, with accessors for the fields the oscilloscope reads from the rest.
//
// Every packet owns one buffer, `data`, which its setters update in place. A
// constructor promises the length and the header bytes its init() writes,
// and, when given values, that each getter returns the value it was given
// (truncated to the field's width). The filling of the other bytes is done by
// the buffer class, which is not part of this model; the model zero-fills.
module BulkStructs {
  import opened Bits
  import BulkCode

  /** Whether `DTriggerPositionUsed` is on (7) or off (0). */
  const TRIGGER_POSITION_USED_OFF: bv8 := 0
  const TRIGGER_POSITION_USED_ON: bv8 := 7

  /** BULK_SETFILTER: filter flags for both channels and the trigger in byte 2. */
  class BulkSetFilter {
    const data: array<bv8>

    ghost predicate Valid()
    {
      data.Length == 8
    }

    constructor ()
      ensures Valid() && fresh(data)
      ensures data[0] == BulkCode.SETFILTER as bv8 && data[1] == 0x0f
    {
      data := new bv8[8](_ => 0);
      new;
      Init();
    }

    constructor WithFilters(channel1: bool, channel2: bool, trigger: bool)
      ensures Valid() && fresh(data)
      ensures data[0] == BulkCode.SETFILTER as bv8 && data[1] == 0x0f
      ensures GetChannel(0) == channel1 && GetChannel(1) == channel2 && GetTrigger() == trigger
    {
      data := new bv8[8](_ => 0);
      new;
      Init();
      SetChannel(0, channel1);
      SetChannel(1, channel2);
      SetTrigger(trigger);
    }

    /** Byte 2, bit 0 for channel 0 and bit 1 for any other channel. */
    function GetChannel(channel: nat): bool
      requires Valid()
      reads data
    {
      if channel == 0 then GetField(data[2], 0, 1) == 1 else GetField(data[2], 1, 1) == 1
    }

    method SetChannel(channel: nat, filtered: bool)
      requires Valid()
      modifies data
      ensures data[..] == old(data[..])[2 := SetField(old(data[2]), if channel == 0 then 0 else 1, 1, BoolBit(filtered))]
      ensures GetChannel(channel) == filtered
      ensures GetChannel(if channel == 0 then 1 else 0) == old(GetChannel(if channel == 0 then 1 else 0))
      ensures GetTrigger() == old(GetTrigger())
    {
      if channel == 0 {
        data[2] := SetField(data[2], 0, 1, BoolBit(filtered));
      } else {
        data[2] := SetField(data[2], 1, 1, BoolBit(filtered));
      }
    }

    /** Byte 2, bit 2. */
    function GetTrigger(): bool
      requires Valid()
      reads data
    {
      GetField(data[2], 2, 1) == 1
    }

    method SetTrigger(filtered: bool)
      requires Valid()
      modifies data
      ensures data[..] == old(data[..])[2 := SetField(old(data[2]), 2, 1, BoolBit(filtered))]
      ensures GetTrigger() == filtered
      ensures GetChannel(0) == old(GetChannel(0)) && GetChannel(1) == old(GetChannel(1))
    {
      data[2] := SetField(data[2], 2, 1, BoolBit(filtered));
    }

    method Init()
      requires Valid()
      modifies data
      ensures data[..] == old(data[..])[0 := BulkCode.SETFILTER as bv8][1 := 0x0f]
    {
      data[0] := BulkCode.SETFILTER as bv8;
      data[1] := 0x0f;
    }
  }

  /** BULK_SETTRIGGERANDSAMPLERATE: the Tsr1 bits in byte 2, the Tsr2 bits in
    * byte 3, the downsampler in bytes 4-5 and the trigger position in bytes 6, 7 and 10. */
  class BulkSetTriggerAndSamplerate {
    const data: array<bv8>

    ghost predicate Valid()
    {
      data.Length == 12
    }

    constructor ()
      ensures Valid() && fresh(data)
      ensures data[0] == BulkCode.SETTRIGGERANDSAMPLERATE as bv8
    {
      data := new bv8[12](_ => 0);
      new;
      Init();
    }

    constructor WithFields(downsampler: bv16, triggerPosition: bv32, triggerSource: bv8, recordLength: bv8,
                           samplerateId: bv8, downsamplingMode: bool, usedChannels: bv8, fastRate: bool,
                           triggerSlope: bv8)
      ensures Valid() && fresh(data)
      ensures data[0] == BulkCode.SETTRIGGERANDSAMPLERATE as bv8
      ensures GetTriggerSource() == triggerSource & 0x03 && GetRecordLength() == recordLength & 0x07
      ensures GetSamplerateId() == samplerateId & 0x03 && GetDownsamplingMode() == downsamplingMode
      ensures GetUsedChannels() == usedChannels & 0x03 && GetFastRate() == fastRate
      ensures GetTriggerSlope() == triggerSlope & 0x01
      ensures GetDownsampler() == downsampler && GetTriggerPosition() == triggerPosition & 0xff_ffff
    {
      data := new bv8[12](_ => 0);
      new;
      Init();
      SetTriggerSource(triggerSource);
      SetRecordLength(recordLength);
      SetSamplerateId(samplerateId);
      SetDownsamplingMode(downsamplingMode);
      SetUsedChannels(usedChannels);
      SetFastRate(fastRate);
      SetTriggerSlope(triggerSlope);
      SetDownsampler(downsampler);
      SetTriggerPosition(triggerPosition);
    }

    /** Tsr1 bits 0-1. */
    function GetTriggerSource(): (v: bv8)
      requires Valid()
      reads data
      ensures v < 4
    {
      GetField(data[2], 0, 2)
    }

    method SetTriggerSource(value: bv8)
      requires Valid()
      modifies data
      ensures data[..] == old(data[..])[2 := SetField(old(data[2]), 0, 2, value)]
      ensures GetTriggerSource() == value & 0x03
      ensures GetRecordLength() == old(GetRecordLength()) && GetSamplerateId() == old(GetSamplerateId())
      ensures GetDownsamplingMode() == old(GetDownsamplingMode())
    {
      data[2] := SetField(data[2], 0, 2, value);
    }

    /** Tsr1 bits 2-4: the record length id. */
    function GetRecordLength(): (v: bv8)
      requires Valid()
      reads data
      ensures v < 8
    {
      GetField(data[2], 2, 3)
    }

    method SetRecordLength(value: bv8)
      requires Valid()
      modifies data
      ensures data[..] == old(data[..])[2 := SetField(old(data[2]), 2, 3, value)]
      ensures GetRecordLength() == value & 0x07
      ensures GetTriggerSource() == old(GetTriggerSource()) && GetSamplerateId() == old(GetSamplerateId())
      ensures GetDownsamplingMode() == old(GetDownsamplingMode())
    {
      data[2] := SetField(data[2], 2, 3, value);
    }

    /** Tsr1 bits 5-6. */
    function GetSamplerateId(): (v: bv8)
      requires Valid()
      reads data
      ensures v < 4
    {
      GetField(data[2], 5, 2)
    }

    method SetSamplerateId(value: bv8)
      requires Valid()
      modifies data
      ensures data[..] == old(data[..])[2 := SetField(old(data[2]), 5, 2, value)]
      ensures GetSamplerateId() == value & 0x03
      ensures GetTriggerSource() == old(GetTriggerSource()) && GetRecordLength() == old(GetRecordLength())
      ensures GetDownsamplingMode() == old(GetDownsamplingMode())
    {
      data[2] := SetField(data[2], 5, 2, value);
    }

    /** Tsr1 bit 7. */
    function GetDownsamplingMode(): bool
      requires Valid()
      reads data
    {
      GetField(data[2], 7, 1) == 1
    }

    method SetDownsamplingMode(downsampling: bool)
      requires Valid()
      modifies data
      ensures data[..] == old(data[..])[2 := SetField(old(data[2]), 7, 1, BoolBit(downsampling))]
      ensures GetDownsamplingMode() == downsampling
      ensures GetTriggerSource() == old(GetTriggerSource()) && GetRecordLength() == old(GetRecordLength())
      ensures GetSamplerateId() == old(GetSamplerateId())
    {
      data[2] := SetField(data[2], 7, 1, BoolBit(downsampling));
    }

    /** Tsr2 bits 0-1. */
    function GetUsedChannels(): (v: bv8)
      requires Valid()
      reads data
      ensures v < 4
    {
      GetField(data[3], 0, 2)
    }

    method SetUsedChannels(value: bv8)
      requires Valid()
      modifies data
      ensures data[..] == old(data[..])[3 := SetField(old(data[3]), 0, 2, value)]
      ensures GetUsedChannels() == value & 0x03
      ensures GetFastRate() == old(GetFastRate()) && GetTriggerSlope() == old(GetTriggerSlope())
    {
      data[3] := SetField(data[3], 0, 2, value);
    }

    /** Tsr2 bit 2. */
    function GetFastRate(): bool
      requires Valid()
      reads data
    {
      GetField(data[3], 2, 1) == 1
    }

    method SetFastRate(fastRate: bool)
      requires Valid()
      modifies data
      ensures data[..] == old(data[..])[3 := SetField(old(data[3]), 2, 1, BoolBit(fastRate))]
      ensures GetFastRate() == fastRate
      ensures GetUsedChannels() == old(GetUsedChannels()) && GetTriggerSlope() == old(GetTriggerSlope())
    {
      data[3] := SetField(data[3], 2, 1, BoolBit(fastRate));
    }

    /** Tsr2 bit 3. */
    function GetTriggerSlope(): (v: bv8)
      requires Valid()
      reads data
      ensures v < 2
    {
      GetField(data[3], 3, 1)
    }

    method SetTriggerSlope(slope: bv8)
      requires Valid()
      modifies data
      ensures data[..] == old(data[..])[3 := SetField(old(data[3]), 3, 1, slope)]
      ensures GetTriggerSlope() == slope & 0x01
      ensures GetUsedChannels() == old(GetUsedChannels()) && GetFastRate() == old(GetFastRate())
    {
      data[3] := SetField(data[3], 3, 1, slope);
    }

    /** Bytes 4 (low) and 5 (high). */
    function GetDownsampler(): bv16
      requires Valid()
      reads data
    {
      Le16(data[4], data[5])
    }

    method SetDownsampler(downsampler: bv16)
      requires Valid()
      modifies data
      ensures data[..] == old(data[..])[4 := Low(downsampler)][5 := High(downsampler)]
      ensures GetDownsampler() == downsampler
    {
      data[4] := Low(downsampler);
      data[5] := High(downsampler);
      Le16Split(downsampler);
    }

    /** Bytes 6 (low), 7 and 10 (high). */
    function GetTriggerPosition(): (v: bv32)
      requires Valid()
      reads data
      ensures v < 0x100_0000
    {
      Le24(data[6], data[7], data[10])
    }

    method SetTriggerPosition(position: bv32)
      requires Valid()
      modifies data
      ensures data[..] == old(data[..])[6 := ByteOf(position, 0)][7 := ByteOf(position, 8)][10 := ByteOf(position, 16)]
      ensures GetTriggerPosition() == position & 0xff_ffff
      ensures position < 0x100_0000 ==> GetTriggerPosition() == position
    {
      data[6] := ByteOf(position, 0);
      data[7] := ByteOf(position, 8);
      data[10] := ByteOf(position, 16);
      Le24Split(position);
    }

    method Init()
      requires Valid()
      modifies data
      ensures data[..] == old(data[..])[0 := BulkCode.SETTRIGGERANDSAMPLERATE as bv8]
    {
      data[0] := BulkCode.SETTRIGGERANDSAMPLERATE as bv8;
    }
  }

  /** The two-byte commands that carry only their opcode: BULK_FORCETRIGGER,
    * BULK_STARTSAMPLING, BULK_ENABLETRIGGER, BULK_GETDATA, BULK_GETCAPTURESTATE
    * and BULK_GETLOGICALDATA. */
  class BulkForceTrigger {
    const data: array<bv8>

    constructor ()
      ensures fresh(data) && data.Length == 2 && data[0] == BulkCode.FORCETRIGGER as bv8
    {
      data := new bv8[2](_ => 0);
      new;
      data[0] := BulkCode.FORCETRIGGER as bv8;
    }
  }

  class BulkCaptureStart {
    const data: array<bv8>

    constructor ()
      ensures fresh(data) && data.Length == 2 && data[0] == BulkCode.STARTSAMPLING as bv8
    {
      data := new bv8[2](_ => 0);
      new;
      data[0] := BulkCode.STARTSAMPLING as bv8;
    }
  }

  class BulkTriggerEnabled {
    const data: array<bv8>

    constructor ()
      ensures fresh(data) && data.Length == 2 && data[0] == BulkCode.ENABLETRIGGER as bv8
    {
      data := new bv8[2](_ => 0);
      new;
      data[0] := BulkCode.ENABLETRIGGER as bv8;
    }
  }

  class BulkGetData {
    const data: array<bv8>

    constructor ()
      ensures fresh(data) && data.Length == 2 && data[0] == BulkCode.GETDATA as bv8
    {
      data := new bv8[2](_ => 0);
      new;
      data[0] := BulkCode.GETDATA as bv8;
    }
  }

  class BulkGetCaptureState {
    const data: array<bv8>

    constructor ()
      ensures fresh(data) && data.Length == 2 && data[0] == BulkCode.GETCAPTURESTATE as bv8
    {
      data := new bv8[2](_ => 0);
      new;
      data[0] := BulkCode.GETCAPTURESTATE as bv8;
    }
  }

  class BulkGetLogicalData {
    const data: array<bv8>

    constructor ()
      ensures fresh(data) && data.Length == 2 && data[0] == BulkCode.GETLOGICALDATA as bv8
    {
      data := new bv8[2](_ => 0);
      new;
      data[0] := BulkCode.GETLOGICALDATA as bv8;
    }
  }

  /** The 512-byte answer to BULK_GETCAPTURESTATE: the capture state in byte 0
    * and the trigger point in bytes 2 (low), 3 and 1 (high). */
  class BulkResponseGetCaptureState {
    const data: array<bv8>

    ghost predicate Valid()
    {
      data.Length == 512
    }

    constructor ()
      ensures Valid() && fresh(data)
    {
      data := new bv8[512](_ => 0);
    }

    function GetCaptureState(): bv8
      requires Valid()
      reads data
    {
      data[0]
    }

    function GetTriggerPoint(): (point: bv32)
      requires Valid()
      reads data
      ensures point < 0x100_0000
      ensures ByteOf(point, 0) == data[2] && ByteOf(point, 8) == data[3] && ByteOf(point, 16) == data[1]
    {
      Le24(data[2], data[3], data[1])
    }
  }

  /** BULK_SETGAIN: the gain ids of both channels, two bits each, in byte 2. */
  class BulkSetGain {
    const data: array<bv8>

    ghost predicate Valid()
    {
      data.Length == 8
    }

    constructor ()
      ensures Valid() && fresh(data) && data[0] == BulkCode.SETGAIN as bv8
    {
      data := new bv8[8](_ => 0);
      new;
      Init();
    }

    constructor WithGains(channel1: bv8, channel2: bv8)
      ensures Valid() && fresh(data) && data[0] == BulkCode.SETGAIN as bv8
      ensures GetGain(0) == channel1 & 0x03 && GetGain(1) == channel2 & 0x03
    {
      data := new bv8[8](_ => 0);
      new;
      Init();
      SetGain(0, channel1);
      SetGain(1, channel2);
    }

    /** Bits 0-1 for channel 0, bits 2-3 for any other channel. */
    function GetGain(channel: nat): (v: bv8)
      requires Valid()
      reads data
      ensures v < 4
    {
      if channel == 0 then GetField(data[2], 0, 2) else GetField(data[2], 2, 2)
    }

    method SetGain(channel: nat, value: bv8)
      requires Valid()
      modifies data
      ensures data[..] == old(data[..])[2 := SetField(old(data[2]), if channel == 0 then 0 else 2, 2, value)]
      ensures GetGain(channel) == value & 0x03
      ensures GetGain(if channel == 0 then 1 else 0) == old(GetGain(if channel == 0 then 1 else 0))
    {
      if channel == 0 {
        data[2] := SetField(data[2], 0, 2, value);
      } else {
        data[2] := SetField(data[2], 2, 2, value);
      }
    }

    method Init()
      requires Valid()
      modifies data
      ensures data[..] == old(data[..])[0 := BulkCode.SETGAIN as bv8]
    {
      data[0] := BulkCode.SETGAIN as bv8;
    }
  }

  /** BULK_SETLOGICALDATA: one data byte in byte 2. */
  class BulkSetLogicalData {
    const data: array<bv8>

    ghost predicate Valid()
    {
      data.Length == 8
    }

    constructor ()
      ensures Valid() && fresh(data) && data[0] == BulkCode.SETLOGICALDATA as bv8
    {
      data := new bv8[8](_ => 0);
      new;
      Init();
    }

    constructor WithData(value: bv8)
      ensures Valid() && fresh(data) && data[0] == BulkCode.SETLOGICALDATA as bv8
      ensures GetData() == value
    {
      data := new bv8[8](_ => 0);
      new;
      Init();
      SetData(value);
    }

    function GetData(): bv8
      requires Valid()
      reads data
    {
      data[2]
    }

    method SetData(value: bv8)
      requires Valid()
      modifies data
      ensures data[..] == old(data[..])[2 := value]
    {
      data[2] := value;
    }

    method Init()
      requires Valid()
      modifies data
      ensures data[..] == old(data[..])[0 := BulkCode.SETLOGICALDATA as bv8]
    {
      data[0] := BulkCode.SETLOGICALDATA as bv8;
    }
  }

  /** BULK_BSETCHANNELS (DSO-2250): the used-channels code in byte 2. */
  class BulkSetChannels2250 {
    const data: array<bv8>

    ghost predicate Valid()
    {
      data.Length == 4
    }

    constructor ()
      ensures Valid() && fresh(data) && data[0] == BulkCode.BSETCHANNELS as bv8
    {
      data := new bv8[4](_ => 0);
      new;
      Init();
    }

    constructor WithUsedChannels(usedChannels: bv8)
      ensures Valid() && fresh(data) && data[0] == BulkCode.BSETCHANNELS as bv8
      ensures GetUsedChannels() == usedChannels
    {
      data := new bv8[4](_ => 0);
      new;
      Init();
      SetUsedChannels(usedChannels);
    }

    function GetUsedChannels(): bv8
      requires Valid()
      reads data
    {
      data[2]
    }

    method SetUsedChannels(value: bv8)
      requires Valid()
      modifies data
      ensures data[..] == old(data[..])[2 := value]
      ensures GetUsedChannels() == value
    {
      data[2] := value;
    }

    method Init()
      requires Valid()
      modifies data
      ensures data[..] == old(data[..])[0 := BulkCode.BSETCHANNELS as bv8]
    {
      data[0] := BulkCode.BSETCHANNELS as bv8;
    }
  }

  /** BULK_CSETTRIGGERORSAMPLERATE as the DSO-2250 trigger command: the
    * CTrigger bits (source bits 0-1, slope bit 2) in byte 2. */
  class BulkSetTrigger2250 {
    const data: array<bv8>

    ghost predicate Valid()
    {
      data.Length == 8
    }

    constructor ()
      ensures Valid() && fresh(data) && data[0] == BulkCode.CSETTRIGGERORSAMPLERATE as bv8
    {
      data := new bv8[8](_ => 0);
      new;
      Init();
    }

    constructor WithTrigger(triggerSource: bv8, triggerSlope: bv8)
      ensures Valid() && fresh(data) && data[0] == BulkCode.CSETTRIGGERORSAMPLERATE as bv8
      ensures GetTriggerSource() == triggerSource & 0x03 && GetTriggerSlope() == triggerSlope & 0x01
    {
      data := new bv8[8](_ => 0);
      new;
      Init();
      SetTriggerSource(triggerSource);
      SetTriggerSlope(triggerSlope);
    }

    function GetTriggerSource(): (v: bv8)
      requires Valid()
      reads data
      ensures v < 4
    {
      GetField(data[2], 0, 2)
    }

    method SetTriggerSource(value: bv8)
      requires Valid()
      modifies data
      ensures data[..] == old(data[..])[2 := SetField(old(data[2]), 0, 2, value)]
      ensures GetTriggerSource() == value & 0x03 && GetTriggerSlope() == old(GetTriggerSlope())
    {
      data[2] := SetField(data[2], 0, 2, value);
    }

    function GetTriggerSlope(): (v: bv8)
      requires Valid()
      reads data
      ensures v < 2
    {
      GetField(data[2], 2, 1)
    }

    method SetTriggerSlope(slope: bv8)
      requires Valid()
      modifies data
      ensures data[..] == old(data[..])[2 := SetField(old(data[2]), 2, 1, slope)]
      ensures GetTriggerSlope() == slope & 0x01 && GetTriggerSource() == old(GetTriggerSource())
    {
      data[2] := SetField(data[2], 2, 1, slope);
    }

    method Init()
      requires Valid()
      modifies data
      ensures data[..] == old(data[..])[0 := BulkCode.CSETTRIGGERORSAMPLERATE as bv8]
    {
      data[0] := BulkCode.CSETTRIGGERORSAMPLERATE as bv8;
    }
  }

  /** BULK_CSETTRIGGERORSAMPLERATE as the DSO-5200 samplerate command: the slow
    * value in bytes 2-3 and the fast value in byte 4. */
  class BulkSetSamplerate5200 {
    const data: array<bv8>

    ghost predicate Valid()
    {
      data.Length == 6
    }

    constructor ()
      ensures Valid() && fresh(data) && data[0] == BulkCode.CSETTRIGGERORSAMPLERATE as bv8
    {
      data := new bv8[6](_ => 0);
      new;
      Init();
    }

    constructor WithSamplerate(samplerateSlow: bv16, samplerateFast: bv8)
      ensures Valid() && fresh(data) && data[0] == BulkCode.CSETTRIGGERORSAMPLERATE as bv8
      ensures GetSamplerateSlow() == samplerateSlow && GetSamplerateFast() == samplerateFast
    {
      data := new bv8[6](_ => 0);
      new;
      Init();
      SetSamplerateFast(samplerateFast);
      SetSamplerateSlow(samplerateSlow);
    }

    function GetSamplerateFast(): bv8
      requires Valid()
      reads data
    {
      data[4]
    }

    method SetSamplerateFast(value: bv8)
      requires Valid()
      modifies data
      ensures data[..] == old(data[..])[4 := value]
    {
      data[4] := value;
    }

    function GetSamplerateSlow(): bv16
      requires Valid()
      reads data
    {
      Le16(data[2], data[3])
    }

    method SetSamplerateSlow(samplerate: bv16)
      requires Valid()
      modifies data
      ensures data[..] == old(data[..])[2 := Low(samplerate)][3 := High(samplerate)]
      ensures GetSamplerateSlow() == samplerate
    {
      data[2] := Low(samplerate);
      data[3] := High(samplerate);
      Le16Split(samplerate);
    }

    method Init()
      requires Valid()
      modifies data
      ensures data[..] == old(data[..])[0 := BulkCode.CSETTRIGGERORSAMPLERATE as bv8]
    {
      data[0] := BulkCode.CSETTRIGGERORSAMPLERATE as bv8;
    }
  }

  /** BULK_DSETBUFFER as the DSO-2250 record length command: the record length id in byte 2. */
  class BulkSetRecordLength2250 {
    const data: array<bv8>

    ghost predicate Valid()
    {
      data.Length == 4
    }

    constructor ()
      ensures Valid() && fresh(data) && data[0] == BulkCode.DSETBUFFER as bv8
    {
      data := new bv8[4](_ => 0);
      new;
      Init();
    }

    constructor WithRecordLength(recordLength: bv8)
      ensures Valid() && fresh(data) && data[0] == BulkCode.DSETBUFFER as bv8
      ensures GetRecordLength() == recordLength
    {
      data := new bv8[4](_ => 0);
      new;
      Init();
      SetRecordLength(recordLength);
    }

    function GetRecordLength(): bv8
      requires Valid()
      reads data
    {
      data[2]
    }

    method SetRecordLength(value: bv8)
      requires Valid()
      modifies data
      ensures data[..] == old(data[..])[2 := value]
    {
      data[2] := value;
    }

    method Init()
      requires Valid()
      modifies data
      ensures data[..] == old(data[..])[0 := BulkCode.DSETBUFFER as bv8]
    {
      data[0] := BulkCode.DSETBUFFER as bv8;
    }
  }

  /** BULK_DSETBUFFER as the DSO-5200 buffer command: the pre trigger position
    * in bytes 2-3, its use flag in byte 4, the post position in bytes 6-7 and
    * the DBuffer bits (post use bits 0-2, record length bits 3-5) in byte 8. */
  class BulkSetBuffer5200 {
    const data: array<bv8>

    ghost predicate Valid()
    {
      data.Length == 10
    }

    constructor ()
      ensures Valid() && fresh(data)
      ensures data[0] == BulkCode.DSETBUFFER as bv8 && data[5] == 0xff && data[9] == 0xff
    {
      data := new bv8[10](_ => 0);
      new;
      Init();
    }

    constructor WithBuffer(triggerPositionPre: bv16, triggerPositionPost: bv16, usedPre: bv8, usedPost: bv8,
                           recordLength: bv8)
      ensures Valid() && fresh(data)
      ensures data[0] == BulkCode.DSETBUFFER as bv8 && data[5] == 0xff && data[9] == 0xff
      ensures GetTriggerPositionPre() == triggerPositionPre && GetTriggerPositionPost() == triggerPositionPost
      ensures GetUsedPre() == usedPre && GetUsedPost() == usedPost & 0x07
      ensures GetRecordLength() == recordLength & 0x07
    {
      data := new bv8[10](_ => 0);
      new;
      Init();
      SetTriggerPositionPre(triggerPositionPre);
      SetTriggerPositionPost(triggerPositionPost);
      SetUsedPre(usedPre);
      SetUsedPost(usedPost);
      SetRecordLength(recordLength);
    }

    function GetTriggerPositionPre(): bv16
      requires Valid()
      reads data
    {
      Le16(data[2], data[3])
    }

    method SetTriggerPositionPre(position: bv16)
      requires Valid()
      modifies data
      ensures data[..] == old(data[..])[2 := Low(position)][3 := High(position)]
      ensures GetTriggerPositionPre() == position
    {
      data[2] := Low(position);
      data[3] := High(position);
      Le16Split(position);
    }

    function GetTriggerPositionPost(): bv16
      requires Valid()
      reads data
    {
      Le16(data[6], data[7])
    }

    method SetTriggerPositionPost(position: bv16)
      requires Valid()
      modifies data
      ensures data[..] == old(data[..])[6 := Low(position)][7 := High(position)]
      ensures GetTriggerPositionPost() == position
    {
      data[6] := Low(position);
      data[7] := High(position);
      Le16Split(position);
    }

    /** The whole of byte 4. */
    function GetUsedPre(): bv8
      requires Valid()
      reads data
    {
      data[4]
    }

    method SetUsedPre(value: bv8)
      requires Valid()
      modifies data
      ensures data[..] == old(data[..])[4 := value]
    {
      data[4] := value;
    }

    /** Byte 8, bits 0-2. */
    function GetUsedPost(): (v: bv8)
      requires Valid()
      reads data
      ensures v < 8
    {
      GetField(data[8], 0, 3)
    }

    method SetUsedPost(value: bv8)
      requires Valid()
      modifies data
      ensures data[..] == old(data[..])[8 := SetField(old(data[8]), 0, 3, value)]
      ensures GetUsedPost() == value & 0x07 && GetRecordLength() == old(GetRecordLength())
    {
      data[8] := SetField(data[8], 0, 3, value);
    }

    /** Byte 8, bits 3-5. */
    function GetRecordLength(): (v: bv8)
      requires Valid()
      reads data
      ensures v < 8
    {
      GetField(data[8], 3, 3)
    }

    method SetRecordLength(value: bv8)
      requires Valid()
      modifies data
      ensures data[..] == old(data[..])[8 := SetField(old(data[8]), 3, 3, value)]
      ensures GetRecordLength() == value & 0x07 && GetUsedPost() == old(GetUsedPost())
    {
      data[8] := SetField(data[8], 3, 3, value);
    }

    method Init()
      requires Valid()
      modifies data
      ensures data[..] == old(data[..])[0 := BulkCode.DSETBUFFER as bv8][5 := 0xff][9 := 0xff]
    {
      data[0] := BulkCode.DSETBUFFER as bv8;
      data[5] := 0xff;
      data[9] := 0xff;
    }
  }

  /** BULK_ESETTRIGGERORSAMPLERATE as the DSO-2250 samplerate command: the
    * ESamplerate bits (fast rate bit 0, downsampling bit 1) in byte 2 and the
    * samplerate value in bytes 4-5. */
  class BulkSetSamplerate2250 {
    const data: array<bv8>

    ghost predicate Valid()
    {
      data.Length == 8
    }

    constructor ()
      ensures Valid() && fresh(data) && data[0] == BulkCode.ESETTRIGGERORSAMPLERATE as bv8
    {
      data := new bv8[8](_ => 0);
      new;
      Init();
    }

    constructor WithSamplerate(fastRate: bool, downsampling: bool, samplerate: bv16)
      ensures Valid() && fresh(data) && data[0] == BulkCode.ESETTRIGGERORSAMPLERATE as bv8
      ensures GetFastRate() == fastRate && GetDownsampling() == downsampling && GetSamplerate() == samplerate
    {
      data := new bv8[8](_ => 0);
      new;
      Init();
      SetFastRate(fastRate);
      SetDownsampling(downsampling);
      SetSamplerate(samplerate);
    }

    function GetFastRate(): bool
      requires Valid()
      reads data
    {
      GetField(data[2], 0, 1) == 1
    }

    method SetFastRate(fastRate: bool)
      requires Valid()
      modifies data
      ensures data[..] == old(data[..])[2 := SetField(old(data[2]), 0, 1, BoolBit(fastRate))]
      ensures GetFastRate() == fastRate && GetDownsampling() == old(GetDownsampling())
    {
      data[2] := SetField(data[2], 0, 1, BoolBit(fastRate));
    }

    function GetDownsampling(): bool
      requires Valid()
      reads data
    {
      GetField(data[2], 1, 1) == 1
    }

    method SetDownsampling(downsampling: bool)
      requires Valid()
      modifies data
      ensures data[..] == old(data[..])[2 := SetField(old(data[2]), 1, 1, BoolBit(downsampling))]
      ensures GetDownsampling() == downsampling && GetFastRate() == old(GetFastRate())
    {
      data[2] := SetField(data[2], 1, 1, BoolBit(downsampling));
    }

    function GetSamplerate(): bv16
      requires Valid()
      reads data
    {
      Le16(data[4], data[5])
    }

    method SetSamplerate(samplerate: bv16)
      requires Valid()
      modifies data
      ensures data[..] == old(data[..])[4 := Low(samplerate)][5 := High(samplerate)]
      ensures GetSamplerate() == samplerate
    {
      data[4] := Low(samplerate);
      data[5] := High(samplerate);
      Le16Split(samplerate);
    }

    method Init()
      requires Valid()
      modifies data
      ensures data[..] == old(data[..])[0 := BulkCode.ESETTRIGGERORSAMPLERATE as bv8]
    {
      data[0] := BulkCode.ESETTRIGGERORSAMPLERATE as bv8;
    }
  }

  /** BULK_ESETTRIGGERORSAMPLERATE as the DSO-5200 trigger command: the ETsr
    * bits in byte 2 (fast rate bit 0, stored inverted; used channels bits 1-2;
    * trigger source bits 3-4; slope bits 5-6; pulse bit 7). */
  class BulkSetTrigger5200 {
    const data: array<bv8>

    ghost predicate Valid()
    {
      data.Length == 8
    }

    constructor ()
      ensures Valid() && fresh(data)
      ensures data[0] == BulkCode.ESETTRIGGERORSAMPLERATE as bv8 && data[4] == 0x02
    {
      data := new bv8[8](_ => 0);
      new;
      Init();
    }

    /** The pulse argument is a byte that C converts to a flag: non-zero is true. */
    constructor WithTrigger(triggerSource: bv8, usedChannels: bv8, fastRate: bool, triggerSlope: bv8,
                            triggerPulse: bv8)
      ensures Valid() && fresh(data)
      ensures data[0] == BulkCode.ESETTRIGGERORSAMPLERATE as bv8 && data[4] == 0x02
      ensures GetTriggerSource() == triggerSource & 0x03 && GetUsedChannels() == usedChannels & 0x03
      ensures GetFastRate() == fastRate && GetTriggerSlope() == triggerSlope & 0x03
      ensures GetTriggerPulse() == (triggerPulse != 0)
    {
      data := new bv8[8](_ => 0);
      new;
      Init();
      SetTriggerSource(triggerSource);
      SetUsedChannels(usedChannels);
      SetFastRate(fastRate);
      SetTriggerSlope(triggerSlope);
      SetTriggerPulse(triggerPulse != 0);
    }

    function GetTriggerSource(): (v: bv8)
      requires Valid()
      reads data
      ensures v < 4
    {
      GetField(data[2], 3, 2)
    }

    method SetTriggerSource(value: bv8)
      requires Valid()
      modifies data
      ensures data[..] == old(data[..])[2 := SetField(old(data[2]), 3, 2, value)]
      ensures GetTriggerSource() == value & 0x03
      ensures GetFastRate() == old(GetFastRate()) && GetUsedChannels() == old(GetUsedChannels())
      ensures GetTriggerSlope() == old(GetTriggerSlope()) && GetTriggerPulse() == old(GetTriggerPulse())
    {
      data[2] := SetField(data[2], 3, 2, value);
    }

    function GetUsedChannels(): (v: bv8)
      requires Valid()
      reads data
      ensures v < 4
    {
      GetField(data[2], 1, 2)
    }

    method SetUsedChannels(value: bv8)
      requires Valid()
      modifies data
      ensures data[..] == old(data[..])[2 := SetField(old(data[2]), 1, 2, value)]
      ensures GetUsedChannels() == value & 0x03
      ensures GetFastRate() == old(GetFastRate()) && GetTriggerSource() == old(GetTriggerSource())
      ensures GetTriggerSlope() == old(GetTriggerSlope()) && GetTriggerPulse() == old(GetTriggerPulse())
    {
      data[2] := SetField(data[2], 1, 2, value);
    }

    /** The fast-rate bit holds 0 when the fast rate is on. */
    function GetFastRate(): bool
      requires Valid()
      reads data
    {
      GetField(data[2], 0, 1) == 0
    }

    method SetFastRate(fastRate: bool)
      requires Valid()
      modifies data
      ensures data[..] == old(data[..])[2 := SetField(old(data[2]), 0, 1, BoolBit(!fastRate))]
      ensures GetFastRate() == fastRate
      ensures GetUsedChannels() == old(GetUsedChannels()) && GetTriggerSource() == old(GetTriggerSource())
      ensures GetTriggerSlope() == old(GetTriggerSlope()) && GetTriggerPulse() == old(GetTriggerPulse())
    {
      data[2] := SetField(data[2], 0, 1, BoolBit(!fastRate));
    }

    function GetTriggerSlope(): (v: bv8)
      requires Valid()
      reads data
      ensures v < 4
    {
      GetField(data[2], 5, 2)
    }

    method SetTriggerSlope(slope: bv8)
      requires Valid()
      modifies data
      ensures data[..] == old(data[..])[2 := SetField(old(data[2]), 5, 2, slope)]
      ensures GetTriggerSlope() == slope & 0x03
      ensures GetFastRate() == old(GetFastRate()) && GetUsedChannels() == old(GetUsedChannels())
      ensures GetTriggerSource() == old(GetTriggerSource()) && GetTriggerPulse() == old(GetTriggerPulse())
    {
      data[2] := SetField(data[2], 5, 2, slope);
    }

    function GetTriggerPulse(): bool
      requires Valid()
      reads data
    {
      GetField(data[2], 7, 1) == 1
    }

    method SetTriggerPulse(pulse: bool)
      requires Valid()
      modifies data
      ensures data[..] == old(data[..])[2 := SetField(old(data[2]), 7, 1, BoolBit(pulse))]
      ensures GetTriggerPulse() == pulse
      ensures GetFastRate() == old(GetFastRate()) && GetUsedChannels() == old(GetUsedChannels())
      ensures GetTriggerSource() == old(GetTriggerSource()) && GetTriggerSlope() == old(GetTriggerSlope())
    {
      data[2] := SetField(data[2], 7, 1, BoolBit(pulse));
    }

    method Init()
      requires Valid()
      modifies data
      ensures data[..] == old(data[..])[0 := BulkCode.ESETTRIGGERORSAMPLERATE as bv8][4 := 0x02]
    {
      data[0] := BulkCode.ESETTRIGGERORSAMPLERATE as bv8;
      data[4] := 0x02;
    }
  }

  /** BULK_FSETBUFFER (DSO-2250): the post trigger position in bytes 2-4 and
    * the pre trigger position in bytes 6-8. The default packet is 10 bytes
    * long, the one built from two positions 12. */
  class BulkSetBuffer2250 {
    const data: array<bv8>

    ghost predicate Valid()
    {
      data.Length >= 9
    }

    constructor ()
      ensures Valid() && fresh(data)
      ensures data.Length == 10 && data[0] == BulkCode.FSETBUFFER as bv8
    {
      data := new bv8[10](_ => 0);
      new;
      Init();
    }

    constructor WithPositions(triggerPositionPre: bv32, triggerPositionPost: bv32)
      ensures Valid() && fresh(data)
      ensures data.Length == 12 && data[0] == BulkCode.FSETBUFFER as bv8
      ensures GetTriggerPositionPre() == triggerPositionPre & 0xff_ffff
      ensures GetTriggerPositionPost() == triggerPositionPost & 0xff_ffff
    {
      data := new bv8[12](_ => 0);
      new;
      Init();
      SetTriggerPositionPre(triggerPositionPre);
      SetTriggerPositionPost(triggerPositionPost);
    }

    function GetTriggerPositionPost(): (v: bv32)
      requires Valid()
      reads data
      ensures v < 0x100_0000
    {
      Le24(data[2], data[3], data[4])
    }

    method SetTriggerPositionPost(position: bv32)
      requires Valid()
      modifies data
      ensures data[..] == old(data[..])[2 := ByteOf(position, 0)][3 := ByteOf(position, 8)][4 := ByteOf(position, 16)]
      ensures GetTriggerPositionPost() == position & 0xff_ffff
      ensures GetTriggerPositionPre() == old(GetTriggerPositionPre())
    {
      data[2] := ByteOf(position, 0);
      data[3] := ByteOf(position, 8);
      data[4] := ByteOf(position, 16);
      Le24Split(position);
    }

    function GetTriggerPositionPre(): (v: bv32)
      requires Valid()
      reads data
      ensures v < 0x100_0000
    {
      Le24(data[6], data[7], data[8])
    }

    method SetTriggerPositionPre(position: bv32)
      requires Valid()
      modifies data
      ensures data[..] == old(data[..])[6 := ByteOf(position, 0)][7 := ByteOf(position, 8)][8 := ByteOf(position, 16)]
      ensures GetTriggerPositionPre() == position & 0xff_ffff
      ensures GetTriggerPositionPost() == old(GetTriggerPositionPost())
    {
      data[6] := ByteOf(position, 0);
      data[7] := ByteOf(position, 8);
      data[8] := ByteOf(position, 16);
      Le24Split(position);
    }

    method Init()
      requires Valid()
      modifies data
      ensures data[..] == old(data[..])[0 := BulkCode.FSETBUFFER as bv8]
    {
      data[0] := BulkCode.FSETBUFFER as bv8;
    }
  }
}
