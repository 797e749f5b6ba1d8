/**
  The byte layer under a WAV file: what DataView's little-endian integer
  stores put into an ArrayBuffer, and the readers that take those fields back.

  DataView converts the stored value first (ToUint8, ToUint16, ToUint32 and
  ToInt16 all reduce modulo 2^8, 2^16 or 2^32), so the encoders below reduce
  explicitly; a value that does not fit its field wraps around.
 */
module Bytes {

  /** One octet of an ArrayBuffer. */
  type Byte = b: int | 0 <= b < 256

  /** Exactly four octets, as DataView.setFloat32 writes them. */
  type Bytes4 = b: seq<Byte> | |b| == 4 witness [0, 0, 0, 0]

  const Two8: int := 0x100
  const Two16: int := 0x1_0000
  const Two32: int := 0x1_0000_0000

  /**
    ToUint8: the octet DataView.setUint8 stores for an integer value, the one
    octet congruent to it modulo 256; a value that fits is stored as itself.
   */
  function Uint8(v: int): (b: Byte)
    ensures (v - b) % Two8 == 0
    ensures 0 <= v < Two8 ==> b == v
  {
    v % Two8
  }

  /** DataView.setUint16(offset, v, true): ToUint16, low octet first. */
  function Uint16LE(v: int): (b: seq<Byte>)
    ensures |b| == 2
  {
    var u := v % Two16;
    [u % Two8, u / Two8]
  }

  /** DataView.setUint32(offset, v, true): ToUint32, low octet first. */
  function Uint32LE(v: int): (b: seq<Byte>)
    ensures |b| == 4
  {
    var u := v % Two32;
    [u % Two8, (u / Two8) % Two8, (u / Two16) % Two8, u / 0x100_0000]
  }

  /** DataView.getUint16(0, true) on two octets. */
  function DecodeUint16(b: seq<Byte>): (v: int)
    requires |b| == 2
    ensures 0 <= v < Two16
  {
    b[0] as int + Two8 * b[1] as int
  }

  /** DataView.getUint32(0, true) on four octets. */
  function DecodeUint32(b: seq<Byte>): (v: int)
    requires |b| == 4
    ensures 0 <= v < Two32
  {
    b[0] as int + Two8 * b[1] as int + Two16 * b[2] as int + 0x100_0000 * b[3] as int
  }

  /** DataView.getInt16(0, true) on two octets: two's complement. */
  function DecodeInt16(b: seq<Byte>): (v: int)
    requires |b| == 2
    ensures -0x8000 <= v < 0x8000
  {
    var u := DecodeUint16(b);
    if u < 0x8000 then u else u - Two16
  }

  /** The field of width 2 or 4 at `offset` of a byte string. */
  function ReadUint16(b: seq<Byte>, offset: nat): int
    requires offset + 2 <= |b|
  {
    DecodeUint16(b[offset..offset + 2])
  }

  function ReadUint32(b: seq<Byte>, offset: nat): int
    requires offset + 4 <= |b|
  {
    DecodeUint32(b[offset..offset + 4])
  }

  function ReadInt16(b: seq<Byte>, offset: nat): int
    requires offset + 2 <= |b|
  {
    DecodeInt16(b[offset..offset + 2])
  }

  /**
    The octets writeString stores: setUint8(charCodeAt(i)) per character.
    For the four-letter ASCII tags of a WAV header this is the ASCII code.
   */
  function StringBytes(s: string): (b: seq<Byte>)
    ensures |b| == |s|
    ensures forall i :: 0 <= i < |s| ==> b[i] == s[i] as int % Two8
  {
    seq(|s|, i requires 0 <= i < |s| => Uint8(s[i] as int))
  }

  /** The four chunk tags of a WAV header, as ASCII octets. */
  lemma TagOctets()
    ensures StringBytes("RIFF") == [0x52, 0x49, 0x46, 0x46]
    ensures StringBytes("WAVE") == [0x57, 0x41, 0x56, 0x45]
    ensures StringBytes("fmt ") == [0x66, 0x6D, 0x74, 0x20]
    ensures StringBytes("data") == [0x64, 0x61, 0x74, 0x61]
  {
  }

  /** Reading back a uint16 field gives the stored value reduced modulo 2^16. */
  lemma Uint16RoundTrip(v: int)
    ensures DecodeUint16(Uint16LE(v)) == v % Two16
    ensures 0 <= v < Two16 ==> DecodeUint16(Uint16LE(v)) == v
  {
  }

  /** Reading back a uint32 field gives the stored value reduced modulo 2^32. */
  lemma Uint32RoundTrip(v: int)
    ensures DecodeUint32(Uint32LE(v)) == v % Two32
    ensures 0 <= v < Two32 ==> DecodeUint32(Uint32LE(v)) == v
  {
    var u := v % Two32;
    var q1 := u / Two8;
    var q2 := u / Two16;
    assert q2 == q1 / Two8;
    assert u / 0x100_0000 == q2 / Two8;
    assert u == u % Two8 + Two8 * q1;
    assert q1 == q1 % Two8 + Two8 * q2;
    assert q2 == q2 % Two8 + Two8 * (u / 0x100_0000);
  }

  /**
    setInt16 stores the same octets as setUint16 (ToInt16 and ToUint16 agree
    modulo 2^16), and getInt16 gives back every value of the int16 range.
   */
  lemma Int16RoundTrip(v: int)
    requires -0x8000 <= v < 0x8000
    ensures DecodeInt16(Uint16LE(v)) == v
  {
    Uint16RoundTrip(v);
  }
}
