# OpenHantek device layer, in Dafny

OpenHantek drives Hantek USB oscilloscopes (DSO-2090, DSO-2150, DSO-2250,
DSO-5200 and DSO-6022BE). This project models four parts of OpenHantek and
proves properties of them.

- **The packet codec.** The oscilloscope understands two kinds of packet:
  - bulk commands such as `BulkSetTriggerAndSamplerate` and `BulkSetBuffer5200`;
  - the payloads of vendor control requests such as `ControlSetOffset` and
    `ControlSetRelays`, plus the `ControlBeginCommand` header.

  Each packet is a fixed-length byte buffer. Its constructor writes the
  header bytes. Its accessors read and write:
  - little-endian multi-byte fields, some split across bytes;
  - big-endian offsets;
  - C bit-fields inside single bytes.

  Each packet class keeps its buffer in an `array<bv8>`. Setters are methods
  that change the array. The contract of each setter states:
  - the whole new buffer, as an update of the old one;
  - that the getter returns the value written, truncated to the field width;
  - that the sibling fields keep their values.

  Helpers for bit-fields and little-endian fields live in `Bits`. Every
  bit-field assumes the allocation GCC uses on little-endian targets: the
  first-declared field takes the least significant bits.

- **The USB transport** (`UsbDevice`). The class `USBDevice` has:
  - a connection handle, the claimed interface, the IN and OUT packet sizes
    and the bulk-enable flag;
  - methods for connecting, claiming the interface, clean-up when the device
    is lost, retrying bulk and control transfers, the begin-command plus bulk
    sequence and the chunked multi-packet read.

  libusb is replaced by the oracle class `LibUsb.Host`:
  - it holds a finite script of replies: a negative entry is an error, a
    non-negative one a success;
  - once the script is used up, every call fails with `LIBUSB_ERROR_IO`;
  - a ghost log records every call and a ghost counter tracks device
    references.

  Each `USBDevice` method is tied to a `...Spec` function over the value
  `Transport`. The properties are stated and proved about those functions.

- **The control logic** (`DsoControl`, `DsoEncoding`). `HantekDsoControl` owns:
  - the bulk command table and the control table, each with its pending
    flags;
  - the settings the commands are built from;
  - the roll-mode state machine.

  The pure encoders live in `DsoEncoding`:
  - Gray-code decoding of the trigger point;
  - the three downsampler encodings;
  - the used-channels code and the trigger-source code;
  - the sample-count arithmetic.

  The commands are flushed at the start of each `run()` cycle, and the roll
  step follows. Both are specified by functions (`FlushSpec`,
  `RollStepSpec`, `RunSpec`). Lemmas state their order, stop and flag
  properties.

- **The channel lists of the settings** (`Settings`). `setChannelCount`
  trims or grows four parallel lists (spectrum, voltage, screen colours,
  print colours) and keeps the math channel last. `DsoSettings` holds the
  lists as `seq` fields that its methods reassign. `ChannelCountSpec`
  specifies the result, and the lemmas state its shape.

Source paths below are relative to the repository's root, under
`openhantek/src/`. Where the documentation tables in `hantekprotocol/bulkcode.h`
and the code disagree, the model follows the code. The only such case is
byte 1 of `BulkSetFilter`: the table says 0x00 and the constructor writes 0x0f.

## Model

| member | source | states |
|---|---|---|
| Bits.GetField | openhantek/src/hantekprotocol/definitions.h:72-145 | reading a bit-field of `w` bits gives a value that fits in `w` bits |
| Bits.SetField | openhantek/src/hantekprotocol/definitions.h:72-145 | assigning a bit-field stores the value modulo 2^w, so reading it back gives `v & mask`; every bit outside the field is kept |
| Bits.BoolBit | openhantek/src/hantekprotocol/definitions.h:72-145 | a bool stored in a one-bit field is 1 exactly when it is true |
| Bits.Le16 | openhantek/src/hantekprotocol/bulkStructs.cpp:173-182 | a 16-bit field built from two bytes has those bytes as its low and high byte |
| Bits.Le16Split | openhantek/src/hantekprotocol/bulkStructs.cpp:173-182 | splitting a 16-bit value into bytes and joining them gives the value back |
| Bits.Le24 | openhantek/src/hantekprotocol/bulkStructs.cpp:186-196 | a 24-bit field built from three bytes is below 2^24 and has those three bytes |
| Bits.Le24Split | openhantek/src/hantekprotocol/bulkStructs.cpp:186-196 | writing the three low bytes of a 32-bit value and reading them back gives the value mod 2^24 |
| ControlBegin.ControlBeginCommand.constructor | openhantek/src/usb/controlbegin.cpp:3-6 | the header is 10 bytes: byte 0 is 0x0f, byte 1 is the command index, and the other bytes are zero |
| ControlBegin.ControlBeginCommand.Default | openhantek/src/usb/controlbegin.h:15 | with the default argument, byte 1 is COMMANDINDEX_0 (0x03) |
| BulkStructs.BulkSetFilter.constructor | openhantek/src/hantekprotocol/bulkStructs.cpp:12 | 8 bytes; byte 0 is SETFILTER (0x00) and byte 1 is 0x0f |
| BulkStructs.BulkSetFilter.WithFilters | openhantek/src/hantekprotocol/bulkStructs.cpp:18-24 | the header as above, and the getters return the three filter flags passed in |
| BulkStructs.BulkSetFilter.SetChannel | openhantek/src/hantekprotocol/bulkStructs.cpp:40-46 | only bit 0 (channel 0) or bit 1 (any other channel) of byte 2 changes; the getter returns the flag and the other flags keep their values |
| BulkStructs.BulkSetFilter.SetTrigger | openhantek/src/hantekprotocol/bulkStructs.cpp:54-58 | only bit 2 of byte 2 changes; the trigger getter returns the flag and the channel flags keep their values |
| BulkStructs.BulkSetFilter.Init | openhantek/src/hantekprotocol/bulkStructs.cpp:61-64 | only bytes 0 and 1 are written, to 0x00 and 0x0f |
| BulkStructs.BulkSetTriggerAndSamplerate.constructor | openhantek/src/hantekprotocol/bulkStructs.cpp:69 | 12 bytes; byte 0 is SETTRIGGERANDSAMPLERATE (0x01) |
| BulkStructs.BulkSetTriggerAndSamplerate.WithFields | openhantek/src/hantekprotocol/bulkStructs.cpp:81-97 | every getter returns its argument, truncated to the field width; the trigger position is taken mod 2^24 |
| BulkStructs.BulkSetTriggerAndSamplerate.GetTriggerSource | openhantek/src/hantekprotocol/bulkStructs.cpp:101 | the 2-bit field is below 4 |
| BulkStructs.BulkSetTriggerAndSamplerate.SetTriggerSource | openhantek/src/hantekprotocol/bulkStructs.cpp:105-107 | only bits 0-1 of byte 2 change; reading gives `value % 4` and the sibling fields of byte 2 are kept |
| BulkStructs.BulkSetTriggerAndSamplerate.GetRecordLength | openhantek/src/hantekprotocol/bulkStructs.cpp:111 | the 3-bit field is below 8 |
| BulkStructs.BulkSetTriggerAndSamplerate.SetRecordLength | openhantek/src/hantekprotocol/bulkStructs.cpp:115-117 | only bits 2-4 of byte 2 change; reading gives `value % 8` and the siblings are kept |
| BulkStructs.BulkSetTriggerAndSamplerate.GetSamplerateId | openhantek/src/hantekprotocol/bulkStructs.cpp:121 | the 2-bit field is below 4 |
| BulkStructs.BulkSetTriggerAndSamplerate.SetSamplerateId | openhantek/src/hantekprotocol/bulkStructs.cpp:125-127 | only bits 5-6 of byte 2 change; reading gives `value % 4` and the siblings are kept |
| BulkStructs.BulkSetTriggerAndSamplerate.SetDownsamplingMode | openhantek/src/hantekprotocol/bulkStructs.cpp:137-139 | only bit 7 of byte 2 changes; reading gives the flag and the siblings are kept |
| BulkStructs.BulkSetTriggerAndSamplerate.GetUsedChannels | openhantek/src/hantekprotocol/bulkStructs.cpp:143 | the 2-bit field is below 4 |
| BulkStructs.BulkSetTriggerAndSamplerate.SetUsedChannels | openhantek/src/hantekprotocol/bulkStructs.cpp:147-149 | only bits 0-1 of byte 3 change; reading gives `value % 4`; fast rate and slope are kept |
| BulkStructs.BulkSetTriggerAndSamplerate.SetFastRate | openhantek/src/hantekprotocol/bulkStructs.cpp:157-159 | only bit 2 of byte 3 changes; reading gives the flag; the used channels and slope are kept |
| BulkStructs.BulkSetTriggerAndSamplerate.GetTriggerSlope | openhantek/src/hantekprotocol/bulkStructs.cpp:163 | the 1-bit field is below 2 |
| BulkStructs.BulkSetTriggerAndSamplerate.SetTriggerSlope | openhantek/src/hantekprotocol/bulkStructs.cpp:167-169 | only bit 3 of byte 3 changes; reading gives `slope % 2`; the siblings are kept |
| BulkStructs.BulkSetTriggerAndSamplerate.SetDownsampler | openhantek/src/hantekprotocol/bulkStructs.cpp:179-182 | only bytes 4-5 change, little-endian; the 16-bit value reads back exactly |
| BulkStructs.BulkSetTriggerAndSamplerate.GetTriggerPosition | openhantek/src/hantekprotocol/bulkStructs.cpp:186-188 | the position read from bytes 6, 7 and 10 is below 2^24 |
| BulkStructs.BulkSetTriggerAndSamplerate.SetTriggerPosition | openhantek/src/hantekprotocol/bulkStructs.cpp:192-196 | only bytes 6, 7 and 10 change; reading gives the position mod 2^24, which is the position itself below 2^24 |
| BulkStructs.BulkSetTriggerAndSamplerate.Init | openhantek/src/hantekprotocol/bulkStructs.cpp:199 | only byte 0 is written, with the opcode |
| BulkStructs.BulkForceTrigger.constructor | openhantek/src/hantekprotocol/bulkStructs.cpp:204 | 2 bytes; byte 0 is FORCETRIGGER (0x02) |
| BulkStructs.BulkCaptureStart.constructor | openhantek/src/hantekprotocol/bulkStructs.cpp:209 | 2 bytes; byte 0 is STARTSAMPLING (0x03) |
| BulkStructs.BulkTriggerEnabled.constructor | openhantek/src/hantekprotocol/bulkStructs.cpp:214 | 2 bytes; byte 0 is ENABLETRIGGER (0x04) |
| BulkStructs.BulkGetData.constructor | openhantek/src/hantekprotocol/bulkStructs.cpp:219 | 2 bytes; byte 0 is GETDATA (0x05) |
| BulkStructs.BulkGetCaptureState.constructor | openhantek/src/hantekprotocol/bulkStructs.cpp:224 | 2 bytes; byte 0 is GETCAPTURESTATE (0x06) |
| BulkStructs.BulkResponseGetCaptureState.constructor | openhantek/src/hantekprotocol/bulkStructs.cpp:229 | the response buffer is 512 bytes |
| BulkStructs.BulkResponseGetCaptureState.GetTriggerPoint | openhantek/src/hantekprotocol/bulkStructs.cpp:237-239 | the trigger point is below 2^24, with byte 2 as its low byte, byte 3 as its middle byte and byte 1 as its high byte |
| BulkStructs.BulkSetGain.constructor | openhantek/src/hantekprotocol/bulkStructs.cpp:244 | 8 bytes; byte 0 is SETGAIN (0x07) |
| BulkStructs.BulkSetGain.WithGains | openhantek/src/hantekprotocol/bulkStructs.cpp:249-254 | each channel's gain reads back as its argument mod 4 |
| BulkStructs.BulkSetGain.GetGain | openhantek/src/hantekprotocol/bulkStructs.cpp:259-265 | the 2-bit gain field is below 4 |
| BulkStructs.BulkSetGain.SetGain | openhantek/src/hantekprotocol/bulkStructs.cpp:270-276 | only bits 0-1 (channel 0) or 2-3 (any other channel) of byte 2 change; the gain reads back mod 4 and the other channel's gain is kept |
| BulkStructs.BulkSetGain.Init | openhantek/src/hantekprotocol/bulkStructs.cpp:279 | only byte 0 is written |
| BulkStructs.BulkSetLogicalData.constructor | openhantek/src/hantekprotocol/bulkStructs.cpp:284 | 8 bytes; byte 0 is SETLOGICALDATA (0x08) |
| BulkStructs.BulkSetLogicalData.WithData | openhantek/src/hantekprotocol/bulkStructs.cpp:288-292 | the data byte reads back as the argument |
| BulkStructs.BulkSetLogicalData.SetData | openhantek/src/hantekprotocol/bulkStructs.cpp:300 | only byte 2 changes |
| BulkStructs.BulkSetLogicalData.Init | openhantek/src/hantekprotocol/bulkStructs.cpp:303 | only byte 0 is written |
| BulkStructs.BulkGetLogicalData.constructor | openhantek/src/hantekprotocol/bulkStructs.cpp:308 | 2 bytes; byte 0 is GETLOGICALDATA (0x09) |
| BulkStructs.BulkSetChannels2250.constructor | openhantek/src/hantekprotocol/bulkStructs.cpp:313 | 4 bytes; byte 0 is BSETCHANNELS (0x0b) |
| BulkStructs.BulkSetChannels2250.WithUsedChannels | openhantek/src/hantekprotocol/bulkStructs.cpp:317-321 | the whole-byte field reads back as its argument |
| BulkStructs.BulkSetChannels2250.SetUsedChannels | openhantek/src/hantekprotocol/bulkStructs.cpp:329 | only byte 2 changes, and it reads back exactly |
| BulkStructs.BulkSetChannels2250.Init | openhantek/src/hantekprotocol/bulkStructs.cpp:332 | only byte 0 is written |
| BulkStructs.BulkSetTrigger2250.constructor | openhantek/src/hantekprotocol/bulkStructs.cpp:337 | 8 bytes; byte 0 is CSETTRIGGERORSAMPLERATE (0x0c) |
| BulkStructs.BulkSetTrigger2250.WithTrigger | openhantek/src/hantekprotocol/bulkStructs.cpp:342-347 | the source reads back mod 4 and the slope mod 2 |
| BulkStructs.BulkSetTrigger2250.GetTriggerSource | openhantek/src/hantekprotocol/bulkStructs.cpp:351 | the 2-bit field is below 4 |
| BulkStructs.BulkSetTrigger2250.SetTriggerSource | openhantek/src/hantekprotocol/bulkStructs.cpp:355 | only bits 0-1 of byte 2 change; the slope is kept |
| BulkStructs.BulkSetTrigger2250.GetTriggerSlope | openhantek/src/hantekprotocol/bulkStructs.cpp:359 | the 1-bit field is below 2 |
| BulkStructs.BulkSetTrigger2250.SetTriggerSlope | openhantek/src/hantekprotocol/bulkStructs.cpp:363 | only bit 2 of byte 2 changes; the source is kept |
| BulkStructs.BulkSetTrigger2250.Init | openhantek/src/hantekprotocol/bulkStructs.cpp:366 | only byte 0 is written |
| BulkStructs.BulkSetSamplerate5200.constructor | openhantek/src/hantekprotocol/bulkStructs.cpp:371 | 6 bytes; byte 0 is CSETTRIGGERORSAMPLERATE (0x0c) |
| BulkStructs.BulkSetSamplerate5200.WithSamplerate | openhantek/src/hantekprotocol/bulkStructs.cpp:376-381 | the slow and fast fields read back exactly |
| BulkStructs.BulkSetSamplerate5200.SetSamplerateFast | openhantek/src/hantekprotocol/bulkStructs.cpp:389 | only byte 4 changes |
| BulkStructs.BulkSetSamplerate5200.SetSamplerateSlow | openhantek/src/hantekprotocol/bulkStructs.cpp:399-402 | only bytes 2-3 change, little-endian, and the value reads back exactly |
| BulkStructs.BulkSetSamplerate5200.Init | openhantek/src/hantekprotocol/bulkStructs.cpp:405 | only byte 0 is written |
| BulkStructs.BulkSetRecordLength2250.constructor | openhantek/src/hantekprotocol/bulkStructs.cpp:410 | 4 bytes; byte 0 is DSETBUFFER (0x0d) |
| BulkStructs.BulkSetRecordLength2250.WithRecordLength | openhantek/src/hantekprotocol/bulkStructs.cpp:414-418 | the record-length byte reads back as its argument |
| BulkStructs.BulkSetRecordLength2250.SetRecordLength | openhantek/src/hantekprotocol/bulkStructs.cpp:426 | only byte 2 changes |
| BulkStructs.BulkSetRecordLength2250.Init | openhantek/src/hantekprotocol/bulkStructs.cpp:429 | only byte 0 is written |
| BulkStructs.BulkSetBuffer5200.constructor | openhantek/src/hantekprotocol/bulkStructs.cpp:434 | 10 bytes; bytes 0, 5 and 9 are 0x0d, 0xff and 0xff |
| BulkStructs.BulkSetBuffer5200.WithBuffer | openhantek/src/hantekprotocol/bulkStructs.cpp:442-452 | the header as above; the 16-bit positions and usedPre read back exactly; usedPost and the record length read back mod 8 |
| BulkStructs.BulkSetBuffer5200.SetTriggerPositionPre | openhantek/src/hantekprotocol/bulkStructs.cpp:462-465 | only bytes 2-3 change, and the value reads back exactly |
| BulkStructs.BulkSetBuffer5200.SetTriggerPositionPost | openhantek/src/hantekprotocol/bulkStructs.cpp:475-478 | only bytes 6-7 change, and the value reads back exactly |
| BulkStructs.BulkSetBuffer5200.SetUsedPre | openhantek/src/hantekprotocol/bulkStructs.cpp:486 | the whole of byte 4 is overwritten and nothing else |
| BulkStructs.BulkSetBuffer5200.GetUsedPost | openhantek/src/hantekprotocol/bulkStructs.cpp:490 | the 3-bit field is below 8 |
| BulkStructs.BulkSetBuffer5200.SetUsedPost | openhantek/src/hantekprotocol/bulkStructs.cpp:494 | only bits 0-2 of byte 8 change; the record length beside them is kept |
| BulkStructs.BulkSetBuffer5200.GetRecordLength | openhantek/src/hantekprotocol/bulkStructs.cpp:498 | the 3-bit field is below 8 |
| BulkStructs.BulkSetBuffer5200.SetRecordLength | openhantek/src/hantekprotocol/bulkStructs.cpp:502 | only bits 3-5 of byte 8 change; usedPost is kept |
| BulkStructs.BulkSetBuffer5200.Init | openhantek/src/hantekprotocol/bulkStructs.cpp:505-509 | only bytes 0, 5 and 9 are written, with 0x0d, 0xff and 0xff |
| BulkStructs.BulkSetSamplerate2250.constructor | openhantek/src/hantekprotocol/bulkStructs.cpp:514 | 8 bytes; byte 0 is ESETTRIGGERORSAMPLERATE (0x0e) |
| BulkStructs.BulkSetSamplerate2250.WithSamplerate | openhantek/src/hantekprotocol/bulkStructs.cpp:520-527 | the fast-rate flag, the downsampling flag and the samplerate read back as given |
| BulkStructs.BulkSetSamplerate2250.SetFastRate | openhantek/src/hantekprotocol/bulkStructs.cpp:535-537 | only bit 0 of byte 2 changes; downsampling is kept |
| BulkStructs.BulkSetSamplerate2250.SetDownsampling | openhantek/src/hantekprotocol/bulkStructs.cpp:545-547 | only bit 1 of byte 2 changes; fast rate is kept |
| BulkStructs.BulkSetSamplerate2250.SetSamplerate | openhantek/src/hantekprotocol/bulkStructs.cpp:555-558 | only bytes 4-5 change, and the value reads back exactly |
| BulkStructs.BulkSetSamplerate2250.Init | openhantek/src/hantekprotocol/bulkStructs.cpp:561 | only byte 0 is written |
| BulkStructs.BulkSetTrigger5200.constructor | openhantek/src/hantekprotocol/bulkStructs.cpp:566 | 8 bytes; byte 0 is 0x0e and byte 4 is 0x02 |
| BulkStructs.BulkSetTrigger5200.WithTrigger | openhantek/src/hantekprotocol/bulkStructs.cpp:574-584 | every field reads back as its argument truncated to its width; the pulse flag is on for any nonzero argument |
| BulkStructs.BulkSetTrigger5200.GetTriggerSource | openhantek/src/hantekprotocol/bulkStructs.cpp:588 | the 2-bit field is below 4 |
| BulkStructs.BulkSetTrigger5200.SetTriggerSource | openhantek/src/hantekprotocol/bulkStructs.cpp:592 | only bits 3-4 of byte 2 change; the four other fields are kept |
| BulkStructs.BulkSetTrigger5200.GetUsedChannels | openhantek/src/hantekprotocol/bulkStructs.cpp:596 | the 2-bit field is below 4 |
| BulkStructs.BulkSetTrigger5200.SetUsedChannels | openhantek/src/hantekprotocol/bulkStructs.cpp:600 | only bits 1-2 of byte 2 change; the four other fields are kept |
| BulkStructs.BulkSetTrigger5200.SetFastRate | openhantek/src/hantekprotocol/bulkStructs.cpp:604-608 | bit 0 of byte 2 stores the inverted flag, yet the getter returns the flag set; the other fields are kept |
| BulkStructs.BulkSetTrigger5200.GetTriggerSlope | openhantek/src/hantekprotocol/bulkStructs.cpp:612 | the 2-bit field is below 4 |
| BulkStructs.BulkSetTrigger5200.SetTriggerSlope | openhantek/src/hantekprotocol/bulkStructs.cpp:616 | only bits 5-6 of byte 2 change; the four other fields are kept |
| BulkStructs.BulkSetTrigger5200.SetTriggerPulse | openhantek/src/hantekprotocol/bulkStructs.cpp:624 | only bit 7 of byte 2 changes; the four other fields are kept |
| BulkStructs.BulkSetTrigger5200.Init | openhantek/src/hantekprotocol/bulkStructs.cpp:627-630 | only bytes 0 and 4 are written, with 0x0e and 0x02 |
| BulkStructs.BulkSetBuffer2250.constructor | openhantek/src/hantekprotocol/bulkStructs.cpp:636 | the default packet is 10 bytes with byte 0 FSETBUFFER (0x0f) |
| BulkStructs.BulkSetBuffer2250.WithPositions | openhantek/src/hantekprotocol/bulkStructs.cpp:641-647 | the two-argument packet is 12 bytes; both positions read back mod 2^24 |
| BulkStructs.BulkSetBuffer2250.GetTriggerPositionPost | openhantek/src/hantekprotocol/bulkStructs.cpp:651-653 | the 24-bit field is below 2^24 |
| BulkStructs.BulkSetBuffer2250.SetTriggerPositionPost | openhantek/src/hantekprotocol/bulkStructs.cpp:657-661 | only bytes 2-4 change; the post position reads back mod 2^24; the pre position is kept |
| BulkStructs.BulkSetBuffer2250.GetTriggerPositionPre | openhantek/src/hantekprotocol/bulkStructs.cpp:665-667 | the 24-bit field is below 2^24 |
| BulkStructs.BulkSetBuffer2250.SetTriggerPositionPre | openhantek/src/hantekprotocol/bulkStructs.cpp:671-675 | only bytes 6-8 change; the pre position reads back mod 2^24; the post position is kept |
| BulkStructs.BulkSetBuffer2250.Init | openhantek/src/hantekprotocol/bulkStructs.cpp:678 | only byte 0 is written |
| ControlStructs.ControlSetOffset.constructor | openhantek/src/hantekprotocol/controlStructs.cpp:9 | the payload is 17 bytes |
| ControlStructs.ControlSetOffset.WithOffsets | openhantek/src/hantekprotocol/controlStructs.cpp:11-15 | both channel offsets and the trigger offset read back as the argument masked to 12 bits |
| ControlStructs.ControlSetOffset.GetChannel | openhantek/src/hantekprotocol/controlStructs.cpp:17-22 | the high nibble is dropped, so an offset is at most 0x0fff |
| ControlStructs.ControlSetOffset.SetChannel | openhantek/src/hantekprotocol/controlStructs.cpp:24-32 | writes bytes 0-1 (channel 0) or 2-3 (any other channel), big-endian, and nothing else; reading gives `offset & 0x0fff`; the other channel and the trigger are kept |
| ControlStructs.ControlSetOffset.GetTrigger | openhantek/src/hantekprotocol/controlStructs.cpp:34 | the trigger offset is at most 0x0fff |
| ControlStructs.ControlSetOffset.SetTrigger | openhantek/src/hantekprotocol/controlStructs.cpp:36-39 | writes bytes 4-5 only; reading gives `level & 0x0fff`; both channel offsets are kept |
| ControlStructs.ControlSetRelays.constructor | openhantek/src/hantekprotocol/controlStructs.cpp:41-51 | reading every relay gives the state passed in |
| ControlStructs.ControlSetRelays.SetBelow1V | openhantek/src/hantekprotocol/controlStructs.cpp:53-65 | byte 1 (channel 0) or byte 4 (any other channel) becomes 0xfb/0x04 or 0xdf/0x20; that relay reads back and all others are kept |
| ControlStructs.ControlSetRelays.SetBelow100mV | openhantek/src/hantekprotocol/controlStructs.cpp:67-79 | byte 2 or byte 5 becomes 0xf7/0x08 or 0xbf/0x40; that relay reads back and all others are kept |
| ControlStructs.ControlSetRelays.SetCoupling | openhantek/src/hantekprotocol/controlStructs.cpp:81-93 | byte 3 or byte 6 becomes 0xfd/0x02 or 0xef/0x10; that relay reads back and all others are kept |
| ControlStructs.ControlSetRelays.SetTrigger | openhantek/src/hantekprotocol/controlStructs.cpp:95-97 | byte 7 becomes 0xfe or 0x01; the external-trigger relay reads back and all others are kept |
| ControlStructs.ControlSetVoltDivCh1.constructor | openhantek/src/hantekprotocol/controlStructs.cpp:99 | the one-byte payload is 5 |
| ControlStructs.ControlSetVoltDivCh1.SetDiv | openhantek/src/hantekprotocol/controlStructs.cpp:101 | the payload becomes the value |
| ControlStructs.ControlSetVoltDivCh2.constructor | openhantek/src/hantekprotocol/controlStructs.cpp:103 | the one-byte payload is 5 |
| ControlStructs.ControlSetVoltDivCh2.SetDiv | openhantek/src/hantekprotocol/controlStructs.cpp:105 | the payload becomes the value |
| ControlStructs.ControlSetTimeDiv.constructor | openhantek/src/hantekprotocol/controlStructs.cpp:107 | the one-byte payload is 1 |
| ControlStructs.ControlSetTimeDiv.SetDiv | openhantek/src/hantekprotocol/controlStructs.cpp:109 | the payload becomes the value |
| ControlStructs.ControlAcquireHardData.constructor | openhantek/src/hantekprotocol/controlStructs.cpp:111 | the one-byte payload is 0x01 |
| UsbDevice.Repeat | openhantek/src/usb/usbdevice.cpp:113-114 | n identical transfer calls, as the retry loop issues them |
| UsbDevice.Retry | openhantek/src/usb/usbdevice.cpp:113-114 | the retry loop makes no call when attempts is 0 or below -1, and then gives TIMEOUT; otherwise it calls until a reply other than TIMEOUT, at most `attempts` times, without limit for -1; every call before the last timed out, and the result is the last reply |
| UsbDevice.RetryUnique | openhantek/src/usb/usbdevice.cpp:113-114 | those properties fix the number of calls and the reply uniquely |
| UsbDevice.RetryExamples | openhantek/src/usb/usbdevice.cpp:113-114 | two timeouts then success take three calls; with three attempts, three timeouts give TIMEOUT; zero attempts make no call; -1 keeps going until NO_DEVICE |
| UsbDevice.Outcome | openhantek/src/usb/usbdevice.cpp:113-120 | a transfer returns an error exactly when libusb did, and otherwise at most the requested length |
| UsbDevice.LoseSpec | openhantek/src/usb/usbdevice.cpp:85-99 | connectionLost always drops a device reference; if a handle was open, it releases the interface, closes the handle, clears the interface to -1 and emits one disconnect signal |
| UsbDevice.LoseTwice | openhantek/src/usb/usbdevice.cpp:85-99 | a second connectionLost emits nothing more but drops one more reference |
| UsbDevice.RetrySpec | openhantek/src/usb/usbdevice.cpp:107-121 | a retried transfer gives Retry's reply and leaves the endpoint sizes and bulk flag alone; the handle is closed afterwards exactly when the reply was NO_DEVICE |
| UsbDevice.BulkTransferSpec | openhantek/src/usb/usbdevice.cpp:107-121 | without a handle: NO_DEVICE and no call; a success is at most the requested length; TIMEOUT is only possible with finite attempts |
| UsbDevice.ControlTransferSpec | openhantek/src/usb/usbdevice.cpp:206-216 | without a handle: NO_DEVICE and no call; a success is at most the requested length |
| UsbDevice.ControlWriteSpec | openhantek/src/usb/usbdevice.cpp:226-232 | a vendor OUT request whose success is at most the payload length |
| UsbDevice.ControlReadSpec | openhantek/src/usb/usbdevice.cpp:242-248 | a vendor IN request that keeps the endpoint sizes and bulk flag |
| UsbDevice.ConnectionSpeedSpec | openhantek/src/usb/usbdevice.cpp:252-260 | without a handle: NO_DEVICE and no call |
| UsbDevice.BulkWriteSpec | openhantek/src/usb/usbdevice.cpp:128-135 | without a handle: NO_DEVICE; a speed-query error is returned before any bulk transfer; a success is at most the bytes sent |
| UsbDevice.BulkReadSpec | openhantek/src/usb/usbdevice.cpp:142-149 | without a handle: NO_DEVICE; a speed-query error is returned before any bulk transfer; a success is at most the requested length |
| UsbDevice.BulkCommandSpec | openhantek/src/usb/usbdevice.cpp:155-167 | without a handle: NO_DEVICE; with bulk transfers disabled: SUCCESS and no call at all |
| UsbDevice.BulkCommandBeginsFirst | openhantek/src/usb/usbdevice.cpp:155-167 | the first call is the CONTROL_BEGINCOMMAND write of the begin header; if it fails, its error is returned and no bulk transfer follows |
| UsbDevice.BulkWriteExtends | openhantek/src/usb/usbdevice.cpp:128-135 | a bulk write only appends to the call record |
| UsbDevice.ReadChunks | openhantek/src/usb/usbdevice.cpp:180-190 | the byte count never exceeds the requested length, and the loop leaves early only when a chunk came back short |
| UsbDevice.ReadMultiSpec | openhantek/src/usb/usbdevice.cpp:174-195 | without a handle: NO_DEVICE; a speed-query error is returned; a positive result is at most the length; for length 0 the result is inPacketLength |
| UsbDevice.ReadMultiExample | openhantek/src/usb/usbdevice.cpp:174-195 | 1300 bytes over 512-byte packets take chunks of 512, 512 and 276 bytes at offsets 0, 512 and 1024 |
| UsbDevice.PacketSizeOf | openhantek/src/usb/usbdevice.cpp:264-275 | speed 0 gives 64, speed 1 gives 512, a higher speed throws, and a negative speed gives -1 |
| UsbDevice.PacketSizeSpec | openhantek/src/usb/usbdevice.cpp:264-275 | an error from the speed query gives -1 |
| UsbDevice.FirstEligible | openhantek/src/usb/usbdevice.cpp:33-50 | finds the first interface whose altsetting 0 has vendor class, subclass 0, protocol 0 and two endpoints, or none |
| UsbDevice.LastPacketSize | openhantek/src/usb/usbdevice.cpp:70-80 | the max packet size of the last endpoint with that address, or 0 when there is none |
| UsbDevice.ClaimSpec | openhantek/src/usb/usbdevice.cpp:64-83 | a failed claim changes only the script and the record; a successful one records the interface and both packet sizes |
| UsbDevice.ConnectSpec | openhantek/src/usb/usbdevice.cpp:20-60 | success means no firmware is needed, the handle is open and there is no message; every other failure of a firmware-ready device carries a message; the handle is open afterwards exactly when it was or the open call succeeded; calls are only appended to the record, and the reference count and disconnect events do not change |
| UsbDevice.ConnectWithoutCalls | openhantek/src/usb/usbdevice.cpp:20-22 | a device that needs firmware gives false, and an open device gives true, both without any libusb call |
| UsbDevice.ConnectNoInterface | openhantek/src/usb/usbdevice.cpp:20-60 | with no eligible interface: NOT_FOUND and false, with the handle left open, so a second call returns true |
| UsbDevice.ConnectClaimsFirst | openhantek/src/usb/usbdevice.cpp:20-60 | only the first eligible interface is claimed, once; the result is whether that claim succeeded |
| UsbDevice.USBDevice.constructor | openhantek/src/usb/usbdevice.cpp:15-18 | takes one device reference, starts disconnected with bulk enabled, and builds the default begin header; the interface and packet sizes, which the source leaves uninitialised, start as -1, 0 and 0 |
| UsbDevice.USBDevice.ConnectDevice | openhantek/src/usb/usbdevice.cpp:20-60 | the new state, result and message are ConnectSpec's |
| UsbDevice.USBDevice.ClaimInterface | openhantek/src/usb/usbdevice.cpp:64-83 | the new state and result are ClaimSpec's |
| UsbDevice.USBDevice.ConnectionLost | openhantek/src/usb/usbdevice.cpp:85-99 | the new state is LoseSpec's |
| UsbDevice.USBDevice.BulkTransfer | openhantek/src/usb/usbdevice.cpp:107-121 | the new state and result are BulkTransferSpec's |
| UsbDevice.USBDevice.RetryBulk | openhantek/src/usb/usbdevice.cpp:111-114 | the loop makes exactly Retry's number of libusb calls, each recorded, and the last one's error code or byte count is the transfer's outcome |
| UsbDevice.USBDevice.ControlTransfer | openhantek/src/usb/usbdevice.cpp:206-216 | the new state and result are ControlTransferSpec's |
| UsbDevice.USBDevice.RetryControl | openhantek/src/usb/usbdevice.cpp:210-212 | the loop makes exactly Retry's number of libusb calls, each recorded, and its result is the last reply's outcome |
| UsbDevice.USBDevice.ControlWrite | openhantek/src/usb/usbdevice.cpp:226-232 | the new state and result are ControlWriteSpec's |
| UsbDevice.USBDevice.ControlRead | openhantek/src/usb/usbdevice.cpp:242-248 | the new state and result are ControlReadSpec's |
| UsbDevice.USBDevice.GetConnectionSpeed | openhantek/src/usb/usbdevice.cpp:252-260 | the new state and result are ConnectionSpeedSpec's |
| UsbDevice.USBDevice.GetPacketSize | openhantek/src/usb/usbdevice.cpp:264-275 | the new state and result are PacketSizeSpec's |
| UsbDevice.USBDevice.BulkWrite | openhantek/src/usb/usbdevice.cpp:128-135 | the new state and result are BulkWriteSpec's |
| UsbDevice.USBDevice.BulkRead | openhantek/src/usb/usbdevice.cpp:142-149 | the new state and result are BulkReadSpec's |
| UsbDevice.USBDevice.BulkCommand | openhantek/src/usb/usbdevice.cpp:155-167 | the new state and result are BulkCommandSpec's |
| UsbDevice.USBDevice.BulkReadMulti | openhantek/src/usb/usbdevice.cpp:174-195 | the new state and result are ReadMultiSpec's |
| UsbDevice.USBDevice.ReadChunk | openhantek/src/usb/usbdevice.cpp:180-190 | one chunk at offset `packet * inPacketLength` leaves the rest of the read that ReadChunks describes unchanged |
| UsbDevice.USBDevice.SetEnableBulkTransfer | openhantek/src/usb/usbdevice.cpp:281 | only the bulk-enable flag changes |
| UsbDevice.USBDevice.OverwriteInPacketLength | openhantek/src/usb/usbdevice.cpp:283 | only the IN packet size changes |
| DsoEncoding.SetChannelsCommand | openhantek/src/hantekdso/controlspecification.h:17 | the bulk command for the used channels: none (-1) exactly on the DSO-6022, otherwise a model-specific command inside the table (the models set it at modelDSO2090.cpp:10, modelDSO2150.cpp:10, modelDSO2250.cpp:10 and modelDSO5200.cpp:10) |
| DsoEncoding.SetSamplerateCommand | openhantek/src/hantekdso/controlspecification.h:18 | the bulk command for the samplerate: none exactly on the DSO-6022, otherwise a model-specific command inside the table |
| DsoEncoding.SetTriggerCommand | openhantek/src/hantekdso/controlspecification.h:22 | the bulk command for the trigger: none exactly on the DSO-6022, otherwise a model-specific command inside the table |
| DsoEncoding.UseControlNoBulk | openhantek/src/hantekdso/models/modelDSO6022.cpp:7 | a model is driven by control requests only exactly when it has no bulk command for channels, samplerate or trigger |
| DsoEncoding.Wrap32 | openhantek/src/hantekdso/hantekdsocontrol.cpp:194 | the unsigned 32-bit value congruent to x; it is x itself when x fits |
| DsoEncoding.CalculateTriggerPoint | openhantek/src/hantekdso/hantekdsocontrol.cpp:144-152 | output bit k is the XOR of the input bits at k and above (Gray decoding): the result re-encodes to the input, and 0 maps to 0 |
| DsoEncoding.Decoded | openhantek/src/hantekdso/hantekdsocontrol.cpp:144-152 | a word whose every bit is that parity satisfies `r ^ (r >> 1) == value` |
| DsoEncoding.Encode2090 | openhantek/src/hantekdso/hantekdsocontrol.cpp:477-517 | downsampling is on exactly above 5; then the samplerate id is 0, bit 0 of the downsampler is cleared and the value is `(0x10001 - d/2)` as 16 bits; 3-5 give id 3, downsampler 5 and 0xffff; 2 gives id 2; 1 gives id 1, and so does 0 when base ≥ max; 0 otherwise gives id 0 |
| DsoEncoding.Decode2090 | openhantek/src/hantekdso/hantekdsocontrol.cpp:490-512 | above 5 and up to 0x20001, the downsampler the device uses is recovered from the value |
| DsoEncoding.CDiv | openhantek/src/hantekdso/hantekdsocontrol.cpp:527 | C integer division, rounding toward zero |
| DsoEncoding.Encode5200 | openhantek/src/hantekdso/hantekdsocontrol.cpp:518-541 | `d == 2*valueSlow + valueFast`, with valueFast 3 or 4 once d ≥ 3; the fast field is `4 - valueFast` and the slow field is 0 or `0xffff - valueSlow` |
| DsoEncoding.Decode5200RoundTrip | openhantek/src/hantekdso/hantekdsocontrol.cpp:518-541 | below 0x20001, the downsampler is recovered from the two fields |
| DsoEncoding.Decode5200Limit | openhantek/src/hantekdso/hantekdsocontrol.cpp:518-541 | at 0x20001 the slow field wraps to 0 and decodes as 3 |
| DsoEncoding.Encode2250 | openhantek/src/hantekdso/hantekdsocontrol.cpp:542-558 | downsampling is on exactly for d ≥ 1; the field is 0 up to 1 and `0x10001 - d` modulo 2^16 above |
| DsoEncoding.Decode2250 | openhantek/src/hantekdso/hantekdsocontrol.cpp:542-558 | from 2 to 0x10000 the field gives the downsampler back |
| DsoEncoding.UsedChannelsCode | openhantek/src/hantekdso/hantekdsocontrol.cpp:748-766 | both channels give CH1CH2; channel 2 alone gives BUSED_CH2 (3) with BSETCHANNELS and USED_CH2 (1) otherwise; everything else gives USED_CH1 (0) |
| DsoEncoding.CountUsed | openhantek/src/hantekdso/hantekdsocontrol.cpp:794-795 | the number of used channels: 0 exactly when none is used, all exactly when all are |
| DsoEncoding.TriggerSourceValue | openhantek/src/hantekdso/hantekdsocontrol.cpp:913-939 | id ≥ 2 gives PARAMETER; an unknown trigger command gives UNSUPPORTED; otherwise the source value |
| DsoEncoding.TriggerSourceFields | openhantek/src/hantekdso/hantekdsocontrol.cpp:920-937 | the 2-bit fields written: 2090/2150/5200 take `1 - id` or `3 + id` (1, 0, 3 and 0, since special 1 truncates to 0); 2250 takes `2 + id` or 0 |
| DsoEncoding.SampleCountOf | openhantek/src/hantekdso/hantekdsocontrol.cpp:408-417 | roll mode gives the packet size (-1 appears as 0xffffffff, and an unknown speed throws); otherwise the record length in fast-rate mode, or twice it modulo 2^32 |
| DsoEncoding.SampleBookkeeping | openhantek/src/hantekdso/hantekdsocontrol.cpp:186-196 | the count read is the larger of the current and the previous total; previous becomes the current total; the byte length is doubled when samples are wider than 8 bits |
| DsoEncoding.NextRollState | openhantek/src/hantekdso/hantekdsocontrol.cpp:1267 | `(s + 1) % 4`: back to STARTSAMPLING exactly after GETDATA |
| DsoEncoding.RollCycle | openhantek/src/hantekdso/hantekdsocontrol.cpp:1267 | four steps return to the starting state |
| DsoControl.PendingFromExact | openhantek/src/hantekdso/hantekdsocontrol.cpp:1147-1161 | the reference order lists exactly the pending indices, increasing |
| DsoControl.PendingFromUpdate | openhantek/src/hantekdso/hantekdsocontrol.cpp:1147-1161 | clearing a flag already passed does not change what is still to be sent |
| DsoControl.FlushSpec | openhantek/src/hantekdso/hantekdsocontrol.cpp:1147-1183 | a flush keeps one flag per table entry |
| DsoControl.FlushOrder | openhantek/src/hantekdso/hantekdsocontrol.cpp:1147-1183 | the commands sent are a prefix of the pending indices in increasing order, and all of them when the flush does not stop |
| DsoControl.FlushStops | openhantek/src/hantekdso/hantekdsocontrol.cpp:1147-1183 | the flush stops exactly when the last result sent is a stopping one, and no earlier result was |
| DsoControl.FlushSentRange | openhantek/src/hantekdso/hantekdsocontrol.cpp:1147-1183 | a flush from index i tries only entries at i or above and inside the table |
| DsoControl.FlushUntriedAt | openhantek/src/hantekdso/hantekdsocontrol.cpp:1147-1183 | a single entry that the flush does not try keeps its flag |
| DsoControl.FlushUntried | openhantek/src/hantekdso/hantekdsocontrol.cpp:1147-1183 | every entry not sent keeps its flag |
| DsoControl.FlushTried | openhantek/src/hantekdso/hantekdsocontrol.cpp:1147-1183 | an entry sent stays pending exactly when its transfer failed |
| DsoControl.BulkFlush | openhantek/src/hantekdso/hantekdsocontrol.cpp:1147-1161 | pending bulk commands go out in index order; the first failure ends run() and leaves it and the later ones pending; a success clears its flag |
| DsoControl.ControlFlush | openhantek/src/hantekdso/hantekdsocontrol.cpp:1163-1183 | pending control requests go out in index order; a failure keeps that flag and the loop goes on; only NO_DEVICE ends run() |
| DsoControl.BulkSend | openhantek/src/hantekdso/hantekdsocontrol.cpp:1154 | sending a bulk entry without a device fails with NO_DEVICE and changes nothing; a success counts at most the entry's bytes; the packet sizes stay |
| DsoControl.ControlSend | openhantek/src/hantekdso/hantekdsocontrol.cpp:1171-1172 | the same three guarantees for a control entry and its payload |
| DsoControl.FlushKeepsInLen | openhantek/src/hantekdso/hantekdsocontrol.cpp:1147-1183 | a flush does not change the IN packet size |
| DsoControl.SampleCountSpec | openhantek/src/hantekdso/hantekdsocontrol.cpp:408-417 | only roll mode talks to the device, and only roll mode can throw |
| DsoControl.GetSamplesSpec | openhantek/src/hantekdso/hantekdsocontrol.cpp:175-212 | the IN packet size is kept; an exception is possible only in roll mode, and then nothing is read and previous keeps its value |
| DsoControl.RollStepSpec | openhantek/src/hantekdso/hantekdsocontrol.cpp:1186-1267 | the state advances to the next roll state unless the step returned early or waits because sampling is off; only STARTSAMPLING and GETDATA can throw; ENABLETRIGGER and FORCETRIGGER change nothing else; a completed GETDATA clears `started` and stops sampling after a single trigger |
| DsoControl.RunSpec | openhantek/src/hantekdso/hantekdsocontrol.cpp:1144-1267 | a cycle keeps one flag per bulk and control entry |
| DsoControl.StringBulkCodeAsWritten | openhantek/src/hantekdso/hantekdsocontrol.cpp:1117 | stringCommand's test, as written, accepts every opcode up to and including BULK_COUNT |
| DsoControl.StringBulkCodeOffByOne | openhantek/src/hantekdso/hantekdsocontrol.cpp:1117 | some accepted opcode is past the end of the 16-entry tables |
| DsoControl.StringBulkNullSlot | openhantek/src/hantekdso/hantekdsocontrol.cpp:1117-1120 | the test as written accepts SETFILTER (0x00), whose slot no model creates, and the DSO-2090's BSETCHANNELS (0x0b), whose slot only the DSO-2250 creates |
| DsoControl.ModelCommands | openhantek/src/hantekdso/models/modelDSO2250.cpp:31-42 | the bulk commands a model creates and marks pending (also modelDSO2090.cpp:31-33, modelDSO2150.cpp:31-33, modelDSO5200.cpp:33-40): all model-specific, they include every command the channel, samplerate and trigger settings are written to, and there are none exactly on the DSO-6022 |
| DsoControl.ModelControls | openhantek/src/hantekdso/models/modelDSO6022.cpp:33-54 | the controls marked pending at start lie in the control table; the offset request is pending exactly on the bulk models and the first divider request exactly on the DSO-6022 |
| DsoControl.ModelControlCodes | openhantek/src/hantekdso/hantekdsocontrol.cpp:61-64 | six request codes; every control pending at start has a nonzero code, and no two nonzero codes are equal, so stringCommand's lookup by code finds at most one slot |
| DsoControl.DefaultSettings | openhantek/src/hantekdso/controlsettings.cpp:6-18 | downsampler 1, the normal limits, no channel used with a count of 0 that agrees, normal trigger mode (a valid mode) on source 0, not special, and record length index 1 (controlsettings.h:21-61) |
| DsoControl.StartCaptureSpec | openhantek/src/hantekdso/hantekdsocontrol.cpp:1200-1215 | the expected sample count is remembered; no exception; the state moves on exactly when run() is rescheduled; a capture can only become started, never stop; without a device run() returns and nothing else changes; without bulk transfers (DSO-6022) the start always succeeds |
| DsoControl.CountUsedChannels | openhantek/src/hantekdso/hantekdsocontrol.cpp:794-795 | the loop counts what CountUsed counts |
| DsoControl.NewTables | openhantek/src/hantekdso/hantekdsocontrol.cpp:60-78 | the tables, with the commands and controls the model marks as pending |
| DsoControl.HantekDsoControl.constructor | openhantek/src/hantekdso/hantekdsocontrol.cpp:56-81 | bulk is disabled when the model uses control requests only; the DSO-6022 IN size becomes 16384; the offset limits are read once; the model's commands and controls are pending; the settings are the defaults; the roll state is STARTSAMPLING |
| DsoControl.HantekDsoControl.ConfigureDevice | openhantek/src/hantekdso/hantekdsocontrol.cpp:74-80 | the device set-up the constructor does, as a state formula |
| DsoControl.HantekDsoControl.RetrieveChannelLevelData | openhantek/src/hantekdso/hantekdsocontrol.cpp:130-142 | one CONTROL_VALUE read; CONNECTION exactly when it fails, NONE otherwise |
| DsoControl.HantekDsoControl.WriteUsedChannels | openhantek/src/hantekdso/hantekdsocontrol.cpp:767-790 | writes the code to the model's channel command (2 bits, or the whole byte on the 2250) and marks only that command pending |
| DsoControl.HantekDsoControl.SetChannelUsed | openhantek/src/hantekdso/hantekdsocontrol.cpp:741-800 | CONNECTION when disconnected; PARAMETER for a channel ≥ 2, with no change; otherwise the flag is stored, usedChannels is recounted and the model's channel command carries UsedChannelsCode and is pending (the 6022 has none) |
| DsoControl.HantekDsoControl.SetTriggerMode | openhantek/src/hantekdso/hantekdsocontrol.cpp:900-907 | CONNECTION when disconnected, PARAMETER outside the enumeration, and otherwise only the mode changes |
| DsoControl.HantekDsoControl.WriteTriggerSource | openhantek/src/hantekdso/hantekdsocontrol.cpp:919-937 | the 2-bit source field of the model's trigger command, marked pending, with nothing else changed |
| DsoControl.HantekDsoControl.WriteTriggerRelay | openhantek/src/hantekdso/hantekdsocontrol.cpp:944-945 | the external-trigger relay, with CONTROL_SETRELAYS marked pending |
| DsoControl.HantekDsoControl.WriteTriggerOffset | openhantek/src/hantekdso/hantekdsocontrol.cpp:951-954 | the trigger offset, masked to 12 bits, with CONTROL_SETOFFSET marked pending |
| DsoControl.HantekDsoControl.ApplyTriggerSource | openhantek/src/hantekdso/hantekdsocontrol.cpp:919-954 | the trigger command, the relay and, for a special source, the trigger offset 0x7f, each marked pending |
| DsoControl.HantekDsoControl.SetTriggerSource | openhantek/src/hantekdso/hantekdsocontrol.cpp:913-961 | CONNECTION, PARAMETER and UNSUPPORTED leave everything as it was; on success the source code, the relay and the settings change as TriggerSourceValue says, and a special source also sets the trigger offset to 0x7f |
| DsoControl.HantekDsoControl.StringBulkCommand | openhantek/src/hantekdso/hantekdsocontrol.cpp:1100-1121 | with the corrected test: CONNECTION when disconnected; UNSUPPORTED exactly for an opcode whose slot was not created, which includes every opcode ≥ BULK_COUNT; otherwise only that opcode's flag is set |
| DsoControl.HantekDsoControl.WriteSamplerate2090 | openhantek/src/hantekdso/hantekdsocontrol.cpp:506-514 | the downsampling mode, samplerate id (2 bits) and downsampler are written and fast rate is cleared; only SETTRIGGERANDSAMPLERATE is marked pending |
| DsoControl.HantekDsoControl.WriteSamplerate5200 | openhantek/src/hantekdso/hantekdsocontrol.cpp:534-538 | the fast and slow fields and the inverted fast-rate bit; both 5200 commands are marked pending |
| DsoControl.HantekDsoControl.WriteSamplerate2250 | openhantek/src/hantekdso/hantekdsocontrol.cpp:550-555 | the downsampling flag, the samplerate field and fast rate; only ESETTRIGGERORSAMPLERATE is marked pending |
| DsoControl.HantekDsoControl.WriteSamplerate | openhantek/src/hantekdso/hantekdsocontrol.cpp:474-560 | per model, the command fields hold Encode2090, Encode5200 or Encode2250 of the downsampler |
| DsoControl.HantekDsoControl.UpdateSamplerate | openhantek/src/hantekdso/hantekdsocontrol.cpp:470-589 | the 6022 gives UINT_MAX and changes nothing; the other models write their encoding, store the downsampler actually used (2090/2150: Encode2090's) and the fast-rate flag, and return that downsampler |
| DsoControl.HantekDsoControl.FlushBulk | openhantek/src/hantekdso/hantekdsocontrol.cpp:1147-1161 | the device state, the bulk flags and the early return are FlushSpec's over the bulk table; the control table is untouched |
| DsoControl.HantekDsoControl.FlushControl | openhantek/src/hantekdso/hantekdsocontrol.cpp:1163-1183 | the device state, the control flags and the early return are FlushSpec's over the control table; the bulk table is untouched |
| DsoControl.HantekDsoControl.SendBulk | openhantek/src/hantekdso/hantekdsocontrol.cpp:1154 | one bulkCommand with the begin header and the slot's bytes, as BulkSend describes |
| DsoControl.HantekDsoControl.SendControl | openhantek/src/hantekdso/hantekdsocontrol.cpp:1171-1172 | one controlWrite of the slot's code and bytes, as ControlSend describes |
| DsoControl.HantekDsoControl.GetSampleCount | openhantek/src/hantekdso/hantekdsocontrol.cpp:408-417 | the device state and count are SampleCountSpec's |
| DsoControl.HantekDsoControl.GetSamples | openhantek/src/hantekdso/hantekdsocontrol.cpp:175-212 | the device state, the remembered count, the bytes read and the exception are GetSamplesSpec's |
| DsoControl.HantekDsoControl.StartSampling | openhantek/src/hantekdso/hantekdsocontrol.cpp:24-42 | sampling is switched on and nothing else of the roll state or settings changes |
| DsoControl.HantekDsoControl.StopSampling | openhantek/src/hantekdso/hantekdsocontrol.cpp:45-48 | sampling is switched off and nothing else changes |
| DsoControl.HantekDsoControl.RollStartSampling | openhantek/src/hantekdso/hantekdsocontrol.cpp:1192-1215 | the STARTSAMPLING step follows RollStepSpec |
| DsoControl.HantekDsoControl.StartCapture | openhantek/src/hantekdso/hantekdsocontrol.cpp:1200-1215 | the capture start follows StartCaptureSpec |
| DsoControl.HantekDsoControl.RollTrigger | openhantek/src/hantekdso/hantekdsocontrol.cpp:1217-1243 | the ENABLETRIGGER and FORCETRIGGER steps follow RollStepSpec |
| DsoControl.HantekDsoControl.RollFetch | openhantek/src/hantekdso/hantekdsocontrol.cpp:1245-1259 | the GETDATA step follows RollStepSpec |
| DsoControl.HantekDsoControl.RollStep | openhantek/src/hantekdso/hantekdsocontrol.cpp:1186-1267 | one roll step, with the device state, roll state and outcome that RollStepSpec gives |
| DsoControl.HantekDsoControl.Run | openhantek/src/hantekdso/hantekdsocontrol.cpp:1144-1267 | one run() cycle in roll mode: both flushes, then the roll step, all as RunSpec gives them; the settings are kept |
| Settings.Decimal | openhantek/src/settings.cpp:94 | the decimal digits of a number, as `%1` formats it |
| Settings.RemoveIfPossible | openhantek/src/settings.cpp:48-52 | the list never grows |
| Settings.RemoveBeyondEnd | openhantek/src/settings.cpp:48-52 | no change when start ≥ size |
| Settings.RemoveKeepsLast | openhantek/src/settings.cpp:48-52 | with keepAtEnd 1 and start < size: elements [0, start) plus the old last element |
| Settings.RemoveLength | openhantek/src/settings.cpp:48-52 | trimming with keepAtEnd 1 leaves min(size, start + 1) elements, and a non-empty list keeps its last element last |
| Settings.RemoveIdempotent | openhantek/src/settings.cpp:48-52 | trimming twice is trimming once |
| Settings.InsertBeforeLast | openhantek/src/settings.cpp:96 | `insert(end()-1, x)`: everything but the last element is kept, x comes next and the last element stays last |
| Settings.WithMath | openhantek/src/settings.cpp:63-86 | afterwards the spectrum list is not empty |
| Settings.AddChannel | openhantek/src/settings.cpp:89-113 | one pass of the loop keeps all six lists non-empty |
| Settings.AddChannels | openhantek/src/settings.cpp:88-113 | the loop ends with more than n spectrum entries, or changes nothing |
| Settings.TrimFilled | openhantek/src/settings.cpp:57-60 | trimming empties a list only if it was empty |
| Settings.Grow | openhantek/src/settings.cpp:88-113 | t insertions before the last element add t elements |
| Settings.GrowShape | openhantek/src/settings.cpp:88-113 | the old entries except the last are kept, the new k-th entry is `make(k + 1)` and the last entry stays last |
| Settings.AddChannelsGrows | openhantek/src/settings.cpp:88-113 | the loop inserts `n + 1 - size` entries into each of the lists |
| Settings.NewSpectra | openhantek/src/settings.cpp:88-113 | spectrum: n + 1 entries (or more if there were more), old entries and the last kept, new entries named SP(k+1) |
| Settings.NewVoltages | openhantek/src/settings.cpp:88-113 | voltage: the same shape, new entries CH(k+1) with DC coupling, gain 1 and unused |
| Settings.MathLast | openhantek/src/settings.cpp:57-86 | after trimming and adding the math channel: the lengths, and the math channel ("SPM"/"MATH", or the old last entry) is last |
| Settings.ChannelCountSpec | openhantek/src/settings.cpp:54-113 | setChannelCount(n) leaves exactly n + 1 spectrum entries, the last of them the old last entry, or the math channel when the list was empty |
| Settings.ChannelCountShape | openhantek/src/settings.cpp:54-113 | starting from lists of equal length: n + 1 spectrum and voltage entries, math last, entries below min(n, size - 1) kept, the others new SP(k+1)/CH(k+1) |
| Settings.NewHues | openhantek/src/settings.cpp:104 | screen colours: n + 1 entries, old ones and the last kept |
| Settings.MathColorLast | openhantek/src/settings.cpp:59-83 | after trimming and adding math, the last screen colour is grey (0x7f, 0x7f, 0x7f) or the old last colour |
| Settings.ChannelCountHues | openhantek/src/settings.cpp:54-113 | the k-th new screen colour has hue 60·k at full saturation and value, and the math colour is last |
| Settings.DsoSettings.constructor | openhantek/src/settings.cpp:36 | the settings hold the lists load() produced |
| Settings.DsoSettings.SetChannelCount | openhantek/src/settings.cpp:54-113 | physicalChannels becomes n and the lists become ChannelCountSpec's |
| Settings.DsoSettings.AppendMath | openhantek/src/settings.cpp:63-86 | an empty setup gets its math entries, as WithMath describes |
| Settings.DsoSettings.InsertChannel | openhantek/src/settings.cpp:89-113 | one loop pass, as AddChannel describes |

## Findings

| source | as written | input that shows it | evidently intended | confidence | as-written member | corrected member |
|---|---|---|---|---|---|---|
| openhantek/src/hantekdso/hantekdsocontrol.cpp:1117 | `if (commandCode > BULK_COUNT) return UNSUPPORTED;` refuses only opcodes above 16 | `send bulk 10 …` (opcode 0x10, BULK_COUNT): accepted, then `command[16]` and `commandPending[16]` are accessed past the end of their 16-entry arrays | refuse every opcode ≥ BULK_COUNT | high; not executed | DsoControl.StringBulkCodeOffByOne | DsoControl.HantekDsoControl.StringBulkCommand |
| openhantek/src/hantekdso/hantekdsocontrol.cpp:1117-1120 | after the range test, `command[commandCode]->data()` is used without checking that the slot holds a command | `send bulk 00 …` on any model (SETFILTER is created by none), or `send bulk 0b …` on a DSO-2090: the slot is a null pointer (hantekdsocontrol.h:149) and is dereferenced; a slot marked pending this way would be dereferenced again at :1151-1154 | refuse an opcode whose command slot the model did not create | high; not executed | DsoControl.StringBulkNullSlot | DsoControl.HantekDsoControl.StringBulkCommand |

## Left out

- libusb itself is the `LibUsb.Host` oracle, and the connection speed it reports is a host parameter. The CONTROL_GETSPEED answer format is not modelled: controlgetspeed.cpp is not part of this model.
- The DataArray buffer class (utils/dataarray.h) is not part of this model. Buffers are zero-filled at allocation, and no contract depends on a non-header byte's initial value except the zeroed begin header.
- Bulk byte arrays are `array<bv8>`. The bytes an IN transfer writes are not modelled, only their count. So no sample bytes, no capture-state response contents, no channel-level data and no convertRawDataToSamples.
- Floating point: samplerate.current, getBestSamplerate, setSamplerate, setRecordTime, setGain's gain search, setOffset, setTriggerLevel and updateInterval use doubles and are left out. So are the updateSamplerateLimits, setPretriggerPosition and restoreTargets calls that updateSamplerate and setChannelUsed make. updateSamplerate's settings update stores only the downsampler and the fast-rate flag.
- setRecordLength, updateRecordLength, setCoupling, setTriggerSlope and forceTrigger are outside the modelled core.
- DsoControl.HantekDsoControl.SetTriggerSource: for a normal source, the setTriggerLevel call (a double computation) is left out.
- The capture-state branch of run() (standard mode, getCaptureState and calculateTriggerPoint's caller) is left out. `Run` models a roll-mode cycle: the flushes and the roll step.
- Signals (`emit`), qWarning messages, QTimer rescheduling and timestampDebug are left out. Where a signal's count matters, as the disconnect event of connectionLost, it is a counter.
- stringCommand: only its bulk opcode check and pending mark are modelled (see Findings). The hex parsing of the payload depends on hexParse, which is not part of this model. The control branch (the lookup by request code and its pending mark) is not modelled either.
- Null command slots: the bulk slots that neither the constructor (FORCETRIGGER to SETGAIN) nor the model's applyRequirements (the model's own commands) creates, such as SETFILTER and 0x08 to 0x0a on every model and 0x0b to 0x0f on the DSO-2090 and DSO-2150, and the control slots 2 to 5 off the DSO-6022, are null pointers in the source. The model puts an empty placeholder array there (`BulkCreated` names the created bulk slots). DsoControl.HantekDsoControl.StringBulkCommand refuses a placeholder bulk slot. The other modelled setters mark only the command of SetChannelsCommand, SetSamplerateCommand or SetTriggerCommand, which DsoControl.ModelCommands shows to be created. No invariant states that a pending slot is never a placeholder. The model does not capture the source's null dereference itself; the Findings record it.
- UsbDevice.USBDevice.constructor: the source leaves `interface`, `outPacketLength` and `inPacketLength` uninitialised (usbdevice.h:79-81). The model starts them at -1, 0 and 0; no contract depends on their values before connectDevice or claimInterface sets them.
- DsoEncoding.NextRollState: the numbers of the roll states (STARTSAMPLING 0, ENABLETRIGGER 1, FORCETRIGGER 2, GETDATA 3, four in all) follow the order of the switch at hantekdsocontrol.cpp:1191-1267. The RollState enum itself is not part of this model, so this order is an assumption that `(s + 1) % 4` depends on.
- The control-code slots that the source never assigns (indices 2-5 on models other than the 6022) are modelled as 0.
- DsoControl.HantekDsoControl.GetSamples, Run, RollStep, RollStartSampling, RollFetch, RollTrigger: these require inPacketLength > 0, and UsbDevice.USBDevice.BulkReadMulti requires `length > 0 ==> inPacketLength > 0`. With a zero packet size, every zero-byte chunk equals inPacketLength and the source's loop never ends.
- The constructor configures the device (bulk flag, 6022 packet size, channel-level read) before it allocates the packet buffers. Allocation order is not observable in the model. applyRequirements is modelled by the per-model pending sets and by the 6022's control codes and packet size.
- DsoControl.HantekDsoControl.RetrieveChannelLevelData: the offset limits read from the device are not stored, because the bytes of IN transfers are not modelled.
- DsoControl.RunSpec: it is a specification function whose meaning is given by RollStepSpec, the flush lemmas and the methods tied to it. Its own ensures give only the table sizes.
- Settings: load() and save() (QSettings) are left out. The constructor takes the lists load() would produce. QApplication::tr is the identity. QColor lighter()/darker() are opaque `Lighter`/`Darker` values. The field `inverted` that setChannelCount leaves uninitialised is modelled as false. Hues above 359, from the seventh channel on, are kept as numbers without QColor's interpretation.
- Settings.DsoSettings.SetChannelCount: it requires that, when the spectrum list is not empty and the growing loop runs, every other list has an element (`CanSetChannelCount`). The source would call `insert(end()-1, …)` on an empty vector there, which is undefined behaviour in C++.
- Settings.DsoSettings.SetChannelCount: the screen and print spectrum lists are reshaped like the others, but no lemma states their contents beyond their colours' derivation. New channels' spectrum and print colours derive from the last screen colour, which is the math colour. The source does the same.
- Threads and the timer that calls run() repeatedly are left out; one call is one cycle.
- finddevices.cpp and uploadFirmware.cpp (enumeration and firmware upload), the models' configuration tables, and everything above the device layer (UI, OpenGL, export, FFT) are outside this model.
