// The integer encodings of the oscilloscope control: the trigger point the
// device reports, the per-model downsampler fields, the used-channels and
// trigger-source codes, the sample-count bookkeeping and the roll-mode cycle.
module DsoEncoding {
  import BulkCode
  import UsbDevice

  /** Physical channels and special (external) trigger sources. */
  const HANTEK_CHANNELS: nat := 2
  const HANTEK_SPECIAL_CHANNELS: nat := 2

  /** UINT_MAX: the record length that stands for roll mode, and what
    * updateSamplerate returns for a model without a samplerate command. */
  const UINT_MAX: uint32 := 0xffff_ffff

  /** The values of C's 32-bit `unsigned`, where counts are worked out. */
  type uint32 = x: int | 0 <= x < 0x1_0000_0000

  /** A 32-bit unsigned conversion or product: the value modulo 2^32. */
  function Wrap32(x: int): (u: uint32)
    ensures 0 <= x < 0x1_0000_0000 ==> u == x
    ensures (u - x) % 0x1_0000_0000 == 0
  {
    x % 0x1_0000_0000
  }

  // ---------------------------------------------------------------------------
  // The models

  /** The oscilloscope models; the DSO-2150 shares the DSO-2090's command set. */
  datatype Model = Dso2090 | Dso2150 | Dso2250 | Dso5200 | Dso6022

  /** A bulk command code that lies in the table and is neither SETFILTER nor
    * one of the commands FORCETRIGGER to SETGAIN that every model creates. */
  predicate ModelSpecific(k: int)
  {
    0 <= k < BulkCode.COUNT && k != BulkCode.SETFILTER && !(BulkCode.FORCETRIGGER <= k <= BulkCode.SETGAIN)
  }

  /** The bulk command that carries each setting, or -1 for none: only the
    * DSO-6022 has none, and the others use a command of their own model, not
    * one that every model shares. */
  function SetChannelsCommand(m: Model): (k: int)
    ensures k == -1 <==> m == Dso6022
    ensures k != -1 ==> ModelSpecific(k)
  {
    match m
    case Dso2090 | Dso2150 => BulkCode.SETTRIGGERANDSAMPLERATE
    case Dso2250 => BulkCode.BSETCHANNELS
    case Dso5200 => BulkCode.ESETTRIGGERORSAMPLERATE
    case Dso6022 => -1
  }

  function SetSamplerateCommand(m: Model): (k: int)
    ensures k == -1 <==> m == Dso6022
    ensures k != -1 ==> ModelSpecific(k)
  {
    match m
    case Dso2090 | Dso2150 => BulkCode.SETTRIGGERANDSAMPLERATE
    case Dso2250 => BulkCode.ESETTRIGGERORSAMPLERATE
    case Dso5200 => BulkCode.CSETTRIGGERORSAMPLERATE
    case Dso6022 => -1
  }

  function SetTriggerCommand(m: Model): (k: int)
    ensures k == -1 <==> m == Dso6022
    ensures k != -1 ==> ModelSpecific(k)
  {
    match m
    case Dso2090 | Dso2150 => BulkCode.SETTRIGGERANDSAMPLERATE
    case Dso2250 => BulkCode.CSETTRIGGERORSAMPLERATE
    case Dso5200 => BulkCode.ESETTRIGGERORSAMPLERATE
    case Dso6022 => -1
  }

  /** The DSO-6022 is driven by control requests only: exactly the model that
    * has no bulk command for any setting. */
  function UseControlNoBulk(m: Model): (r: bool)
    ensures r <==> SetChannelsCommand(m) < 0 && SetSamplerateCommand(m) < 0 && SetTriggerCommand(m) < 0
    ensures !r ==> SetChannelsCommand(m) >= 0 && SetSamplerateCommand(m) >= 0 && SetTriggerCommand(m) >= 0
  {
    m == Dso6022
  }

  /** Bits per sample. */
  function SampleSize(m: Model): nat
  {
    if m == Dso5200 then 10 else 8
  }

  // ---------------------------------------------------------------------------
  // The trigger point
  //
  // A bit position is named by its one-bit mask; 0 stands for the position
  // past bit 31, where the loop of calculateTriggerPoint stops.

  /** `p` has exactly one bit set. */
  predicate Single(p: bv32)
  {
    p != 0 && p & (p - 1) == 0
  }

  /** The bit of `x` at position `p`. */
  predicate Bit(x: bv32, p: bv32)
    requires Single(p)
  {
    x & p != 0
  }

  /** Position `q` lies below position `p`. */
  predicate Below(q: bv32, p: bv32)
  {
    p == 0 || q < p
  }

  /** The positions from `q` up to, not including, `p`; 0 for `q` is the empty range past bit 31. */
  predicate Range(q: bv32, p: bv32)
  {
    (q == 0 || Single(q)) && (p == 0 || Single(p)) && (q == 0 ==> p == 0) && (q != 0 && p != 0 ==> q <= p)
  }

  /** Shifting a one-bit mask left moves to the next position, or past bit 31. */
  lemma NextSingle(p: bv32)
    requires Single(p)
    ensures p << 1 == 0 <==> p == 0x8000_0000
    ensures p << 1 != 0 ==> Single(p << 1) && p < p << 1
  {
  }

  lemma NextAbove(p: bv32, q: bv32)
    requires Single(p) && Single(q) && p < q
    ensures p << 1 != 0 && p << 1 <= q
  {
  }

  lemma NextRange(q: bv32, p: bv32)
    requires Range(q, p) && q != p
    ensures Range(q << 1, p) && -(q << 1) < -q
  {
    NextSingle(q);
    if p != 0 {
      NextAbove(q, p);
    }
  }

  lemma RangeExtend(q: bv32, p: bv32)
    requires Single(q) && Single(p) && q <= p
    ensures Range(q, p << 1) && q != p << 1
  {
    NextSingle(p);
  }

  /** The parity of the bits of `v` at the positions from `q` up to, not including, `p`. */
  function Parity(v: bv32, q: bv32, p: bv32): bool
    requires Range(q, p)
    decreases -q
  {
    if q == p then false
    else
      NextRange(q, p);
      (v & q != 0) != Parity(v, q << 1, p)
  }

  /** Taking in one more position at the top adds that bit to the parity. */
  lemma {:induction false} ParityExtend(v: bv32, q: bv32, p: bv32)
    requires Single(q) && Single(p) && q <= p
    ensures Range(q, p << 1)
    ensures Parity(v, q, p << 1) == (Parity(v, q, p) != Bit(v, p))
    decreases -q
  {
    RangeExtend(q, p);
    if q != p {
      NextRange(q, p);
      ParityExtend(v, q << 1, p);
      NextRange(q, p << 1);
    } else {
      NextRange(p, p << 1);
    }
  }

  lemma {:induction false} ParityZero(v: bv32, q: bv32, p: bv32)
    requires Range(q, p) && v == 0
    ensures !Parity(v, q, p)
    decreases -q
  {
    if q != p {
      NextRange(q, p);
      ParityZero(v, q << 1, p);
    }
  }

  /** The parity from `q` to the top is bit `q` XOR the parity from the next position. */
  lemma ParityTop(v: bv32, q: bv32)
    requires Single(q)
    ensures Range(q, 0) && (q << 1 == 0 || Single(q << 1))
    ensures Parity(v, q, 0) == (Bit(v, q) != (q << 1 != 0 && Parity(v, q << 1, 0)))
  {
    NextSingle(q);
    NextRange(q, 0);
  }

  /** calculateTriggerPoint: every set bit, taken from the lowest up, inverts
    * all bits below it. Bit `q` of the result is the parity of the input bits
    * from `q` up, so the result is the value whose reflected binary (Gray)
    * code `r ^ (r >> 1)` is the input, and 0 maps to 0. */
  method CalculateTriggerPoint(value: bv32) returns (result: bv32)
    ensures forall q :: Single(q) ==> Bit(result, q) == Parity(value, q, 0)
    ensures result ^ (result >> 1) == value
    ensures value == 0 ==> result == 0
  {
    result := value;
    var bitValue: bv32 := 1;
    while bitValue != 0
      invariant bitValue == 0 || Single(bitValue)
      invariant DecodedBelow(value, result, bitValue)
      decreases -bitValue
    {
      NextSingle(bitValue);
      if result & bitValue != 0 {
        FlipAll(result, bitValue);
        DecodeFlip(value, result, result ^ (bitValue - 1), bitValue);
        result := result ^ (bitValue - 1);
      } else {
        DecodeKeep(value, result, bitValue);
      }
      bitValue := bitValue << 1;
    }
    Decoded(value, result);
  }

  /** Where the loop of calculateTriggerPoint stands before position `p`: the
    * bits below `p` hold the parity of the input bits from there up to `p`,
    * the others are still the input's. */
  ghost predicate DecodedBelow(value: bv32, result: bv32, p: bv32)
    requires p == 0 || Single(p)
  {
    forall q :: Single(q) ==> DecodedAt(value, result, q, p)
  }

  ghost predicate DecodedAt(value: bv32, result: bv32, q: bv32, p: bv32)
    requires Single(q) && (p == 0 || Single(p))
  {
    Bit(result, q) == if Below(q, p) then Parity(value, q, p) else Bit(value, q)
  }

  lemma XorSingle(x: bv32, y: bv32, p: bv32)
    requires Single(p)
    ensures Bit(x ^ y, p) == (Bit(x, p) != Bit(y, p))
  {
  }

  /** `p - 1` has exactly the bits below `p`. */
  lemma LowSingle(p: bv32, q: bv32)
    requires Single(p) && Single(q)
    ensures Bit(p - 1, q) == (q < p)
  {
  }

  lemma FlipBelow(result: bv32, p: bv32, q: bv32)
    requires Single(p) && Single(q)
    ensures Bit(result ^ (p - 1), q) == (Bit(result, q) != (q < p))
  {
    XorSingle(result, p - 1, q);
    LowSingle(p, q);
  }

  /** The loop's flip inverts exactly the bits below `p`. */
  lemma FlipAll(result: bv32, p: bv32)
    requires Single(p)
    ensures forall q :: Single(q) ==> Bit(result ^ (p - 1), q) == (Bit(result, q) != (q < p))
  {
    forall q | Single(q)
      ensures Bit(result ^ (p - 1), q) == (Bit(result, q) != (q < p))
    {
      FlipBelow(result, p, q);
    }
  }

  /** One bit of one pass of the loop at position `p`. */
  lemma DecodeStepAt(value: bv32, result: bv32, next: bv32, p: bv32, q: bv32)
    requires Single(p) && Single(q)
    requires DecodedAt(value, result, q, p) && DecodedAt(value, result, p, p)
    requires Bit(next, q) == (Bit(result, q) != (Bit(result, p) && q < p))
    ensures p << 1 == 0 || Single(p << 1)
    ensures DecodedAt(value, next, q, p << 1)
  {
    NextSingle(p);
    if q < p {
      ParityExtend(value, q, p);
    } else if q == p {
      RangeExtend(p, p);
      NextRange(p, p << 1);
    } else {
      NextAbove(p, q);
    }
  }

  /** A pass on a set bit: flipping the bits below it extends the decoded part. */
  lemma DecodeFlip(value: bv32, result: bv32, next: bv32, p: bv32)
    requires Single(p) && DecodedBelow(value, result, p) && Bit(result, p)
    requires forall q :: Single(q) ==> Bit(next, q) == (Bit(result, q) != (q < p))
    ensures p << 1 == 0 || Single(p << 1)
    ensures DecodedBelow(value, next, p << 1)
  {
    NextSingle(p);
    assert DecodedAt(value, result, p, p);
    forall q | Single(q)
      ensures DecodedAt(value, next, q, p << 1)
    {
      DecodeStepAt(value, result, next, p, q);
    }
  }

  /** A pass on a clear bit: nothing changes, and the decoded part grows. */
  lemma DecodeKeep(value: bv32, result: bv32, p: bv32)
    requires Single(p) && DecodedBelow(value, result, p) && !Bit(result, p)
    ensures p << 1 == 0 || Single(p << 1)
    ensures DecodedBelow(value, result, p << 1)
  {
    NextSingle(p);
    assert DecodedAt(value, result, p, p);
    forall q | Single(q)
      ensures DecodedAt(value, result, q, p << 1)
    {
      DecodeStepAt(value, result, result, p, q);
    }
  }

  lemma HalfBit(x: bv32, q: bv32)
    requires Single(q)
    ensures Bit(x >> 1, q) == (q << 1 != 0 && Single(q << 1) && Bit(x, q << 1))
  {
    NextSingle(q);
  }

  /** Bit `q` of a Gray code is bit `q` of the value XOR the bit above it. */
  lemma GrayBit(r: bv32, q: bv32)
    requires Single(q)
    ensures Bit(r ^ (r >> 1), q) == (Bit(r, q) != (q << 1 != 0 && Single(q << 1) && Bit(r, q << 1)))
  {
    XorSingle(r, r >> 1, q);
    HalfBit(r, q);
  }

  lemma HalfSingleOf(p: bv32)
    requires Single(p) && p != 1
    ensures Single(p >> 1) && (p >> 1) << 1 == p && (p >> 1) - 1 < p - 1
  {
  }

  lemma SplitLow(a: bv32, p: bv32)
    requires Single(p)
    ensures a & ((p << 1) - 1) == (a & (p - 1)) | (a & p)
  {
  }

  /** Words that agree on every bit agree on the bits below `p`. */
  lemma {:induction false} LowEqual(a: bv32, b: bv32, p: bv32)
    requires Single(p)
    requires forall q :: Single(q) ==> Bit(a, q) == Bit(b, q)
    ensures a & (p - 1) == b & (p - 1)
    decreases p - 1
  {
    if p != 1 {
      HalfSingleOf(p);
      LowEqual(a, b, p >> 1);
      SplitLow(a, p >> 1);
      SplitLow(b, p >> 1);
      assert Bit(a, p >> 1) == Bit(b, p >> 1);
    }
  }

  /** Two words with the same bits are equal. */
  lemma BitsEqual(a: bv32, b: bv32)
    requires forall q :: Single(q) ==> Bit(a, q) == Bit(b, q)
    ensures a == b
  {
    LowEqual(a, b, 0x8000_0000);
    TopAgree(a, b);
    TopEqual(a, b);
  }

  lemma TopAgree(a: bv32, b: bv32)
    requires forall q :: Single(q) ==> Bit(a, q) == Bit(b, q)
    ensures (a & 0x8000_0000 != 0) == (b & 0x8000_0000 != 0)
  {
    assert Bit(a, 0x8000_0000) == Bit(b, 0x8000_0000);
  }

  /** Words that agree on the low 31 bits and on the top bit are equal. */
  lemma TopEqual(a: bv32, b: bv32)
    requires a & 0x7fff_ffff == b & 0x7fff_ffff
    requires (a & 0x8000_0000 != 0) == (b & 0x8000_0000 != 0)
    ensures a == b
  {
  }

  /** Bitwise parities from the top are the inverse of Gray coding. */
  lemma Decoded(value: bv32, result: bv32)
    requires forall q :: Single(q) ==> Bit(result, q) == Parity(value, q, 0)
    ensures result ^ (result >> 1) == value
    ensures value == 0 ==> result == 0
  {
    forall q | Single(q)
      ensures Bit(result ^ (result >> 1), q) == Bit(value, q)
    {
      GrayBit(result, q);
      ParityTop(value, q);
    }
    BitsEqual(result ^ (result >> 1), value);
    if value == 0 {
      forall q | Single(q)
        ensures Bit(result, q) == Bit(0, q)
      {
        ParityZero(value, q, 0);
      }
      BitsEqual(result, 0);
    }
  }

  // ---------------------------------------------------------------------------
  // Downsampler encodings of updateSamplerate

  /** The DSO-2090 fields: the downsampler actually used, the samplerate id, the
    * 16-bit downsampler field and the downsampling-mode flag. */
  datatype Samplerate2090 = Samplerate2090(downsampler: uint32, samplerateId: int, value: int, downsampling: bool)

  /** Dividers up to 5 use the special samplerate ids (1 for the undivided base
    * rate when it is the maximum, the divider itself up to 2, id 3 with divider
    * 5 for 3 to 5); larger dividers are rounded down to even and stored as
    * the 16-bit value `0x10001 - divider / 2`. */
  function Encode2090(downsampler: uint32, baseAtLeastMax: bool): (e: Samplerate2090)
    ensures 0 <= e.samplerateId <= 3 && 0 <= e.value < 0x1_0000
    ensures e.downsampling <==> downsampler > 5
    ensures e.downsampling ==>
      (e.samplerateId == 0 && e.downsampler % 2 == 0 && e.downsampler <= downsampler <= e.downsampler + 1 &&
       e.value == (0x10001 - e.downsampler / 2) % 0x1_0000)
    ensures !e.downsampling ==>
      ((e.samplerateId == 3 <==> 3 <= downsampler <= 5) &&
       (e.samplerateId == 3 ==> e.downsampler == 5 && e.value == 0xffff) &&
       (e.samplerateId != 3 ==> e.downsampler == downsampler && e.value == 0) &&
       (e.samplerateId == 1 <==> downsampler == 1 || (downsampler == 0 && baseAtLeastMax)) &&
       (e.samplerateId == 0 <==> downsampler == 0 && !baseAtLeastMax) &&
       (e.samplerateId == 2 <==> downsampler == 2))
  {
    if downsampler <= 5 then
      if downsampler == 0 && baseAtLeastMax then Samplerate2090(downsampler, 1, 0, false)
      else if downsampler <= 2 then Samplerate2090(downsampler, downsampler, 0, false)
      else Samplerate2090(5, 3, 0xffff, false)
    else
      var even := downsampler - downsampler % 2;
      Samplerate2090(even, 0, (0x10001 - even / 2) % 0x1_0000, true)
  }

  /** The DSO-2090 divides by twice `0x10001 - value`, which gives back the
    * even divider for every divider the 16-bit field can hold, up to 0x20001;
    * the DSO-2090's largest divider, 131072, is within the range. */
  lemma Decode2090(downsampler: uint32, baseAtLeastMax: bool)
    requires 5 < downsampler <= 0x2_0001
    ensures var e := Encode2090(downsampler, baseAtLeastMax); 2 * (0x10001 - e.value) == e.downsampler
  {
  }

  /** The DSO-5200 fields: the slow and fast parts of the divider, and the
    * byte and 16-bit values the samplerate command stores. */
  datatype Samplerate5200 = Samplerate5200(valueSlow: int, valueFast: int, fastField: int, slowField: int)

  /** C's `/` on integers, which rounds toward zero. */
  function CDiv(a: int, b: int): (q: int)
    requires b > 0
    ensures a >= 0 ==> q == a / b
    ensures a < 0 ==> q == -((-a) / b)
  {
    if a >= 0 then a / b else -((-a) / b)
  }

  /** The divider is split into twice a slow value plus a fast value of 3 or 4;
    * the fast field holds `4 - fast` as a byte and the slow field
    * `0xffff - slow` as 16 bits (0 for a slow value of 0). */
  function Encode5200(downsampler: uint32): (e: Samplerate5200)
    ensures e.valueSlow >= 0 && downsampler == 2 * e.valueSlow + e.valueFast
    ensures downsampler >= 3 ==> 3 <= e.valueFast <= 4
    ensures downsampler < 3 ==> e.valueSlow == 0
    ensures 0 <= e.fastField < 0x100 && 0 <= e.slowField < 0x1_0000
    ensures e.fastField == (4 - e.valueFast) % 0x100
    ensures e.slowField == if e.valueSlow == 0 then 0 else (0xffff - e.valueSlow) % 0x1_0000
  {
    var valueSlow := if CDiv(downsampler - 3, 2) > 0 then CDiv(downsampler - 3, 2) else 0;
    var valueFast := (downsampler - valueSlow * 2) % 0x100;
    Samplerate5200(valueSlow, valueFast, (4 - valueFast) % 0x100,
                   if valueSlow == 0 then 0 else (0xffff - valueSlow) % 0x1_0000)
  }

  /** The divider the fields stand for. */
  function Decode5200(fastField: int, slowField: int): int
  {
    2 * (if slowField == 0 then 0 else 0xffff - slowField) + 4 - fastField
  }

  /** The DSO-5200 fields give back every divider up to 0x20001, where the
    * slow value 0xffff would be stored as 0; the DSO-5200's largest divider,
    * 131072, is within the range. */
  lemma Decode5200RoundTrip(downsampler: uint32)
    requires downsampler < 0x2_0001
    ensures var e := Encode5200(downsampler); Decode5200(e.fastField, e.slowField) == downsampler
  {
  }

  /** The first divider the fields cannot hold. */
  lemma Decode5200Limit()
    ensures var e := Encode5200(0x2_0001); e.valueSlow == 0xffff && Decode5200(e.fastField, e.slowField) == 3
  {
  }

  /** The DSO-2250 fields: the downsampling flag and the 16-bit samplerate field. */
  datatype Samplerate2250 = Samplerate2250(downsampling: bool, samplerate: int)

  /** Downsampling is on for any divider from 1; dividers above 1 are stored
    * as `0x10001 - divider` in 16 bits, others as 0. */
  function Encode2250(downsampler: uint32): (e: Samplerate2250)
    ensures e.downsampling <==> downsampler >= 1
    ensures 0 <= e.samplerate < 0x1_0000
    ensures downsampler <= 1 ==> e.samplerate == 0
    ensures downsampler > 1 ==> (e.samplerate + downsampler) % 0x1_0000 == 1
  {
    Samplerate2250(downsampler >= 1, if downsampler > 1 then (0x10001 - downsampler) % 0x1_0000 else 0)
  }

  /** Every divider from 2 to 0x10000, the DSO-2250's largest, comes back from the field. */
  lemma Decode2250(downsampler: uint32)
    requires 2 <= downsampler <= 0x1_0000
    ensures 0x10001 - Encode2250(downsampler).samplerate == downsampler
  {
  }

  // ---------------------------------------------------------------------------
  // Used channels and trigger source

  /** The UsedChannels field values; BUSED_CH2 is the DSO-2250's code for channel 2 alone. */
  const USED_CH1: bv8 := 0
  const USED_CH2: bv8 := 1
  const USED_CH1CH2: bv8 := 2
  const USED_NONE: bv8 := 3
  const BUSED_CH2: bv8 := USED_NONE

  /** The used-channels code setChannelUsed writes; no channel used gives the CH1 code. */
  function UsedChannelsCode(ch1: bool, ch2: bool, setChannels: int): (code: bv8)
    ensures code == USED_CH1CH2 <==> ch1 && ch2
    ensures code == BUSED_CH2 <==> !ch1 && ch2 && setChannels == BulkCode.BSETCHANNELS
    ensures code == USED_CH2 <==> !ch1 && ch2 && setChannels != BulkCode.BSETCHANNELS
    ensures code == USED_CH1 <==> !ch2
  {
    if ch2 then
      if ch1 then USED_CH1CH2
      else if setChannels == BulkCode.BSETCHANNELS then BUSED_CH2
      else USED_CH2
    else USED_CH1
  }

  /** The number of used flags. */
  function CountUsed(used: seq<bool>): (n: nat)
    ensures n <= |used|
    ensures n == 0 <==> forall i :: 0 <= i < |used| ==> !used[i]
    ensures n == |used| <==> forall i :: 0 <= i < |used| ==> used[i]
  {
    if used == [] then 0 else CountUsed(used[..|used| - 1]) + (if used[|used| - 1] then 1 else 0)
  }

  /** The error codes of the settings operations. */
  datatype ErrorCode = NONE | CONNECTION | PARAMETER | UNSUPPORTED

  /** The trigger-source value setTriggerSource hands to the trigger command:
    * a byte, of which the command's 2-bit field keeps the low two bits. */
  datatype SourceValue = SourceValue(value: bv8) | SourceError(error: ErrorCode)

  function TriggerSourceValue(special: bool, id: nat, setTrigger: int): (r: SourceValue)
    ensures r.SourceError? <==>
      (id >= 2 || setTrigger !in {BulkCode.SETTRIGGERANDSAMPLERATE, BulkCode.CSETTRIGGERORSAMPLERATE,
                                  BulkCode.ESETTRIGGERORSAMPLERATE})
    ensures r.SourceError? ==> (r.error == PARAMETER <==> id >= 2)
  {
    if (!special && id >= HANTEK_CHANNELS) || (special && id >= HANTEK_SPECIAL_CHANNELS) then SourceError(PARAMETER)
    else if setTrigger == BulkCode.SETTRIGGERANDSAMPLERATE || setTrigger == BulkCode.ESETTRIGGERORSAMPLERATE then
      SourceValue(if special then (3 + id) as bv8 else (1 - id) as bv8)
    else if setTrigger == BulkCode.CSETTRIGGERORSAMPLERATE then
      SourceValue(if special then 0 else (2 + id) as bv8)
    else SourceError(UNSUPPORTED)
  }

  /** What the 2-bit trigger-source field holds for each source. On the
    * DSO-2090 and DSO-5200 channel 1 is 1, channel 2 is 0 and EXT is 3, while
    * EXT/10 (3 + 1 = 4) is cut to 0, the code of channel 2. On the DSO-2250
    * the channels are 2 and 3 and both special sources are 0. */
  lemma TriggerSourceFields(m: Model)
    requires m != Dso6022
    ensures var t := SetTriggerCommand(m);
      var field := (s: bool, id: nat) requires id < 2 => TriggerSourceValue(s, id, t).value & 0x03;
      if m == Dso2250 then field(false, 0) == 2 && field(false, 1) == 3 && field(true, 0) == 0 && field(true, 1) == 0
      else field(false, 0) == 1 && field(false, 1) == 0 && field(true, 0) == 3 && field(true, 1) == 0
  {
  }

  // ---------------------------------------------------------------------------
  // Sample counts

  /** getSampleCount's result: a count, or the exception getPacketSize throws. */
  datatype SampleCount = Count(value: uint32) | SpeedFault

  /** getSampleCount: in roll mode one packet (getPacketSize's int result taken
    * as unsigned, so -1 becomes 0xffffffff); otherwise the record length, or
    * twice it, modulo 2^32, when both channels share the buffer. */
  function SampleCountOf(rollMode: bool, fastRate: bool, recordLength: uint32, packetSize: UsbDevice.PacketSize)
    : (c: SampleCount)
    ensures c.SpeedFault? <==> rollMode && packetSize.UnknownSpeed?
    ensures rollMode && packetSize == UsbDevice.Size(-1) ==> c == Count(0xffff_ffff)
    ensures rollMode && packetSize.Size? && 0 <= packetSize.bytes < 0x1_0000_0000 ==> c == Count(packetSize.bytes)
    ensures !rollMode && fastRate ==> c == Count(recordLength)
    ensures !rollMode && !fastRate && recordLength < 0x8000_0000 ==> c == Count(2 * recordLength)
    ensures !rollMode && !fastRate && recordLength >= 0x8000_0000 ==> c == Count(2 * recordLength - 0x1_0000_0000)
  {
    if rollMode then
      match packetSize
      case Size(bytes) => Count(Wrap32(bytes))
      case UnknownSpeed => SpeedFault
    else if fastRate then Count(recordLength)
    else Count(Wrap32(recordLength * HANTEK_CHANNELS))
  }

  /** The counts getSamples works with: the samples it reads, the count it
    * remembers for next time and the bytes it asks the device for. */
  datatype Bookkeeping = Bookkeeping(readCount: uint32, previous: uint32, dataLength: uint32)

  /** getSamples reads the larger of the current and the remembered count, so
    * that no sample stays in the device buffer, and remembers the current one;
    * samples wider than 8 bits take two bytes each (modulo 2^32). */
  function SampleBookkeeping(total: uint32, previous: uint32, sampleSize: nat): (b: Bookkeeping)
    ensures b.readCount >= total && b.readCount >= previous && (b.readCount == total || b.readCount == previous)
    ensures b.previous == total
    ensures sampleSize <= 8 ==> b.dataLength == b.readCount
    ensures sampleSize > 8 && b.readCount < 0x8000_0000 ==> b.dataLength == 2 * b.readCount
  {
    var (count, remembered) := if total < previous then (previous, total) else (total, total);
    Bookkeeping(count, remembered, if sampleSize > 8 then Wrap32(count as int * 2) else count)
  }

  // ---------------------------------------------------------------------------
  // The roll-mode cycle

  const STARTSAMPLING: nat := 0
  const ENABLETRIGGER: nat := 1
  const FORCETRIGGER: nat := 2
  const GETDATA: nat := 3
  const ROLL_COUNT: nat := 4

  /** The next roll state, restarting after the last. */
  function NextRollState(s: nat): (n: nat)
    requires s < ROLL_COUNT
    ensures n < ROLL_COUNT
    ensures n == STARTSAMPLING <==> s == GETDATA
    ensures s < GETDATA ==> n == s + 1
  {
    (s + 1) % ROLL_COUNT
  }

  /** Four steps go round the whole cycle. */
  lemma RollCycle(s: nat)
    requires s < ROLL_COUNT
    ensures NextRollState(NextRollState(NextRollState(NextRollState(s)))) == s
  {
  }
}
