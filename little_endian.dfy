/**
 * The little-endian integer fields of a payload, written out as byte
 * arithmetic: `H` (unsigned 16-bit) and `h` (signed 16-bit, two's
 * complement) in the notation of Python's `struct` module; a `B` field
 * (unsigned 8-bit) is the byte itself.
 * The encoders are the inverses used to state what the decoders mean.
 */
module LittleEndian {

  /** One byte of a payload, as Python's `bytes` yields it: an int in 0..255. */
  type Byte = b: nat | b < 0x100

  /** An unsigned 16-bit field stored low byte first. */
  function U16(lo: Byte, hi: Byte): (r: nat)
    ensures r < 0x1_0000
  {
    lo + 256 * hi
  }

  /** A signed 16-bit two's-complement field stored low byte first. */
  function I16(lo: Byte, hi: Byte): (r: int)
    ensures -0x8000 <= r < 0x8000
    ensures r < 0 <==> hi >= 0x80
  {
    var u := U16(lo, hi);
    if u < 0x8000 then u else u - 0x1_0000
  }

  /** The two bytes, low first, that store v as an unsigned 16-bit field. */
  function EncodeU16(v: nat): (s: seq<Byte>)
    requires v < 0x1_0000
    ensures |s| == 2
  {
    [v % 256, v / 256]
  }

  /** The two bytes, low first, that store v as a signed 16-bit field. */
  function EncodeI16(v: int): (s: seq<Byte>)
    requires -0x8000 <= v < 0x8000
    ensures |s| == 2
  {
    EncodeU16(if v >= 0 then v else v + 0x1_0000)
  }

  lemma U16OfEncode(v: nat)
    requires v < 0x1_0000
    ensures U16(EncodeU16(v)[0], EncodeU16(v)[1]) == v
  {
  }

  lemma EncodeOfU16(lo: Byte, hi: Byte)
    ensures EncodeU16(U16(lo, hi)) == [lo, hi]
  {
  }

  lemma I16OfEncode(v: int)
    requires -0x8000 <= v < 0x8000
    ensures I16(EncodeI16(v)[0], EncodeI16(v)[1]) == v
  {
  }

  lemma EncodeOfI16(lo: Byte, hi: Byte)
    ensures EncodeI16(I16(lo, hi)) == [lo, hi]
  {
  }
}
