// Byte-level helpers shared by every packet: sub-byte bit-fields and
// little-endian multi-byte fields.
//
// A bit-field `T f : w` at bit offset `lo` of a byte is read as
// `(b >> lo) & Mask(w)`; assigning an unsigned value to it keeps only the
// value's `w` low bits and leaves every other bit of the byte alone.  The
// first-declared field of a packed struct occupies the least significant
// bits (the allocation GCC uses on little-endian targets).
module Bits {

  /** The `w` low bits of a byte set. */
  function Mask(w: nat): bv8
    requires w <= 8
  {
    if w == 8 then 0xff else ((1 as bv8) << w) - 1
  }

  /** The bits of the field at offset `lo`, width `w`, in place. */
  function FieldMask(lo: nat, w: nat): bv8
    requires lo + w <= 8
  {
    Mask(w) << lo
  }

  /** Reads the bit-field at offset `lo`, width `w` of `b`. */
  function GetField(b: bv8, lo: nat, w: nat): (v: bv8)
    requires lo + w <= 8
    ensures v & Mask(w) == v
  {
    (b >> lo) & Mask(w)
  }

  /** Assigns `v` to the bit-field at offset `lo`, width `w` of `b`, as C does:
    * only the low `w` bits of `v` are stored and the other bits of `b` are kept. */
  function SetField(b: bv8, lo: nat, w: nat, v: bv8): (r: bv8)
    requires lo + w <= 8
    ensures GetField(r, lo, w) == v & Mask(w)
    ensures r & !FieldMask(lo, w) == b & !FieldMask(lo, w)
  {
    (b & !FieldMask(lo, w)) | ((v & Mask(w)) << lo)
  }

  /** The value a C one-bit field holds after `field = flag ? 1 : 0`. */
  function BoolBit(flag: bool): (v: bv8)
    ensures (v == 1) == flag && v & Mask(1) == v
  {
    if flag then 1 else 0
  }

  /** A uint16 cast to uint8: its low byte. */
  function Low(v: bv16): bv8
  {
    (v & 0xff) as bv8
  }

  /** `(uint8_t)(v >> 8)` for a uint16 `v`: its high byte. */
  function High(v: bv16): bv8
  {
    (v >> 8) as bv8
  }

  /** `(uint16_t)lo | ((uint16_t)hi << 8)`: a little-endian 16-bit value. */
  function Le16(lo: bv8, hi: bv8): (v: bv16)
    ensures Low(v) == lo && High(v) == hi
  {
    ((hi as bv16) << 8) | (lo as bv16)
  }

  /** Splitting a 16-bit value into bytes and joining them again loses nothing. */
  lemma Le16Split(v: bv16)
    ensures Le16(Low(v), High(v)) == v
  {
    var lo, hi := Low(v), High(v);
    assert lo as bv16 == v & 0xff;
    assert (hi as bv16) << 8 == v & 0xff00;
  }

  /** `(uint8_t)(v >> shift)` for a uint32 `v`. */
  function ByteOf(v: bv32, shift: nat): bv8
    requires shift <= 24
  {
    ((v >> shift) & 0xff) as bv8
  }

  /** `b0 | b1 << 8 | b2 << 16` in 32-bit arithmetic: a little-endian 24-bit value. */
  function Le24(b0: bv8, b1: bv8, b2: bv8): (v: bv32)
    ensures v < 0x100_0000
    ensures ByteOf(v, 0) == b0 && ByteOf(v, 8) == b1 && ByteOf(v, 16) == b2
  {
    ((b2 as bv32) << 16) | ((b1 as bv32) << 8) | (b0 as bv32)
  }

  /** Splitting a 32-bit value into its three low bytes and joining them keeps it modulo 2^24. */
  lemma Le24Split(v: bv32)
    ensures Le24(ByteOf(v, 0), ByteOf(v, 8), ByteOf(v, 16)) == v & 0xff_ffff
  {
    assert ByteOf(v, 0) as bv32 == v & 0xff;
    assert (ByteOf(v, 8) as bv32) << 8 == v & 0xff00;
    assert (ByteOf(v, 16) as bv32) << 16 == v & 0xff_0000;
  }
}
