/**
  The imperative encoder of app.js: interleave fills a fresh sample array in a
  while loop, encodeWAV allocates the ArrayBuffer and writes it in place through
  DataView stores at fixed offsets, and floatTo16BitPCM, writeFloat32 and
  writeString are for loops advancing an offset. Each method is proved to
  leave exactly the octets module WavFormat describes.

  An ArrayBuffer seen through its DataView is an `array<Byte>`; every store
  below says which octets it sets and that all others are left alone.
 */
module WavEncoder {
  import opened Bytes
  import opened Pcm
  import opened WavFormat

  // ----------------------------------------------------- DataView stores

  /** Stores `bytes` at `offset`: the octets before and after are unchanged. */
  method Store(view: array<Byte>, offset: nat, bytes: seq<Byte>)
    requires offset + |bytes| <= view.Length
    modifies view
    ensures view[..offset] == old(view[..offset])
    ensures view[..offset + |bytes|] == old(view[..offset]) + bytes
    ensures view[offset + |bytes|..] == old(view[offset + |bytes|..])
  {
    forall k | 0 <= k < |bytes| {
      view[offset + k] := bytes[k];
    }
    assert view[offset..offset + |bytes|] == bytes;
    assert view[..offset + |bytes|] == view[..offset] + view[offset..offset + |bytes|];
  }

  /** view.setUint8(offset, v) */
  method SetUint8(view: array<Byte>, offset: nat, v: int)
    requires offset < view.Length
    modifies view
    ensures view[..offset] == old(view[..offset])
    ensures view[..offset + 1] == old(view[..offset]) + [Uint8(v)]
    ensures view[offset + 1..] == old(view[offset + 1..])
  {
    Store(view, offset, [Uint8(v)]);
  }

  /** view.setUint16(offset, v, true) */
  method SetUint16(view: array<Byte>, offset: nat, v: int)
    requires offset + 2 <= view.Length
    modifies view
    ensures view[..offset] == old(view[..offset])
    ensures view[..offset + 2] == old(view[..offset]) + Uint16LE(v)
    ensures view[offset + 2..] == old(view[offset + 2..])
  {
    Store(view, offset, Uint16LE(v));
  }

  /** view.setUint32(offset, v, true) */
  method SetUint32(view: array<Byte>, offset: nat, v: int)
    requires offset + 4 <= view.Length
    modifies view
    ensures view[..offset] == old(view[..offset])
    ensures view[..offset + 4] == old(view[..offset]) + Uint32LE(v)
    ensures view[offset + 4..] == old(view[offset + 4..])
  {
    Store(view, offset, Uint32LE(v));
  }

  /** view.setInt16(offset, x, true): ToInt16 truncates toward zero, then wraps modulo 2^16. */
  method SetInt16(view: array<Byte>, offset: nat, x: real)
    requires offset + 2 <= view.Length
    modifies view
    ensures view[..offset] == old(view[..offset])
    ensures view[..offset + 2] == old(view[..offset]) + Uint16LE(TruncTowardZero(x))
    ensures view[offset + 2..] == old(view[offset + 2..])
  {
    Store(view, offset, Uint16LE(TruncTowardZero(x)));
  }

  /** view.setFloat32(offset, x, true), with the IEEE-754 octets given by `layout`. */
  method SetFloat32(view: array<Byte>, offset: nat, x: real, layout: Float32Layout)
    requires offset + 4 <= view.Length
    modifies view
    ensures view[..offset] == old(view[..offset])
    ensures view[..offset + 4] == old(view[..offset]) + layout(x)
    ensures view[offset + 4..] == old(view[offset + 4..])
  {
    Store(view, offset, layout(x));
  }

  // ------------------------------------------------------------ writers

  /** writeString(view, offset, s): one setUint8 of charCodeAt(i) per character. */
  method WriteString(view: array<Byte>, offset: nat, s: string)
    requires offset + |s| <= view.Length
    modifies view
    ensures view[..offset] == old(view[..offset])
    ensures view[..offset + |s|] == old(view[..offset]) + StringBytes(s)
    ensures view[offset + |s|..] == old(view[offset + |s|..])
  {
    for i := 0 to |s|
      invariant view[..offset + i] == old(view[..offset]) + StringBytes(s)[..i]
      invariant view[offset + i..] == old(view[offset + i..])
    {
      ghost var before := view[..];
      SetUint8(view, offset + i, s[i] as int);
      assert StringBytes(s)[..i + 1] == StringBytes(s)[..i] + [Uint8(s[i] as int)];
      assert view[offset + i + 1..] == before[offset + i + 1..] == before[offset + i..][1..];
    }
    assert view[..offset] == view[..offset + |s|][..offset];
  }

  /**
    floatTo16BitPCM(output, offset, input): sample i, clamped and scaled, goes
    to the two octets at offset + 2i; nothing before offset or after the
    last slot changes.
   */
  method FloatTo16BitPcm(output: array<Byte>, offset: nat, input: seq<real>)
    requires offset + 2 * |input| <= output.Length
    modifies output
    ensures output[..offset] == old(output[..offset])
    ensures output[..offset + 2 * |input|] == old(output[..offset]) + Pcm16Payload(input)
    ensures output[offset + 2 * |input|..] == old(output[offset + 2 * |input|..])
  {
    var i, off := 0, offset;
    while i < |input|
      invariant 0 <= i <= |input| && off == offset + 2 * i
      invariant output[..off] == old(output[..offset]) + Pcm16Payload(input[..i])
      invariant output[off..] == old(output[off..])
    {
      var s := Max(-1.0, Min(1.0, input[i]));
      SetInt16(output, off, if s < 0.0 then s * NegativeScale else s * PositiveScale);
      assert input[..i + 1][..i] == input[..i];
      i, off := i + 1, off + 2;
    }
    assert input[..i] == input;
    assert output[..offset] == output[..off][..offset];
  }

  /** writeFloat32(output, offset, input): sample i's four octets go to offset + 4i. */
  method WriteFloat32(output: array<Byte>, offset: nat, input: seq<real>, layout: Float32Layout)
    requires offset + 4 * |input| <= output.Length
    modifies output
    ensures output[..offset] == old(output[..offset])
    ensures output[..offset + 4 * |input|] == old(output[..offset]) + Float32Payload(input, layout)
    ensures output[offset + 4 * |input|..] == old(output[offset + 4 * |input|..])
  {
    var i, off := 0, offset;
    while i < |input|
      invariant 0 <= i <= |input| && off == offset + 4 * i
      invariant output[..off] == old(output[..offset]) + Float32Payload(input[..i], layout)
      invariant output[off..] == old(output[off..])
    {
      SetFloat32(output, off, input[i], layout);
      assert input[..i + 1][..i] == input[..i];
      i, off := i + 1, off + 4;
    }
    assert input[..i] == input;
    assert output[..offset] == output[..off][..offset];
  }

  // ------------------------------------------------------------ encoder

  /** Octets 0..12 of encodeWAV: "RIFF", the file length minus 8, "WAVE". */
  method WriteRiffDescriptor(view: array<Byte>, riffSize: int)
    requires HeaderSize <= view.Length
    modifies view
    ensures view[..12] == RiffDescriptor(riffSize)
    ensures view[12..] == old(view[12..])
  {
    WriteString(view, 0, "RIFF");
    SetUint32(view, 4, riffSize);
    WriteString(view, 8, "WAVE");
  }

  /** Octets 12..36 of encodeWAV: the "fmt " chunk of length 16 and its six fields. */
  method WriteFmtChunk(view: array<Byte>, format: int, numChannels: int, sampleRate: int,
                       byteRate: int, blockAlign: int, bitDepth: int)
    requires HeaderSize <= view.Length
    modifies view
    ensures view[..36] == old(view[..12]) + FmtChunk(format, numChannels, sampleRate, byteRate, blockAlign, bitDepth)
    ensures view[36..] == old(view[36..])
  {
    ghost var h := old(view[..12]);
    ghost var tail := view[36..];
    WriteString(view, 12, "fmt ");
    h := h + StringBytes("fmt ");
    assert view[36..] == view[16..][20..];
    SetUint32(view, 16, 16);
    h := h + Uint32LE(16);
    assert view[36..] == view[20..][16..];
    SetUint16(view, 20, format);
    h := h + Uint16LE(format);
    assert view[..22] == h;
    assert view[36..] == view[22..][14..] == tail;
    SetUint16(view, 22, numChannels);
    h := h + Uint16LE(numChannels);
    assert view[36..] == view[24..][12..];
    SetUint32(view, 24, sampleRate);
    h := h + Uint32LE(sampleRate);
    assert view[36..] == view[28..][8..];
    SetUint32(view, 28, byteRate);
    h := h + Uint32LE(byteRate);
    assert view[..32] == h;
    assert view[36..] == view[32..][4..] == tail;
    SetUint16(view, 32, blockAlign);
    h := h + Uint16LE(blockAlign);
    assert view[36..] == view[34..][2..];
    SetUint16(view, 34, bitDepth);
    h := h + Uint16LE(bitDepth);
    assert view[..36] == h;
    assert h == old(view[..12]) + FmtChunk(format, numChannels, sampleRate, byteRate, blockAlign, bitDepth);
  }

  /** Octets 36..44 of encodeWAV: "data" and the payload length. */
  method WriteDataChunkHeader(view: array<Byte>, dataLen: int)
    requires HeaderSize <= view.Length
    modifies view
    ensures view[..HeaderSize] == old(view[..36]) + DataChunkHeader(dataLen)
    ensures view[HeaderSize..] == old(view[HeaderSize..])
  {
    WriteString(view, 36, "data");
    SetUint32(view, 40, dataLen);
  }

  /** encodeWAV: a fresh buffer holding exactly the header and payload WavBytes describes. */
  method EncodeWav(samples: seq<real>, format: int, sampleRate: int, numChannels: int,
                   bitDepth: int, layout: Float32Layout) returns (buffer: array<Byte>)
    requires ValidFormat(format, bitDepth)
    ensures fresh(buffer)
    ensures buffer[..] == WavBytes(samples, format, sampleRate, numChannels, bitDepth, layout)
  {
    var bytesPerSample := bitDepth / 8;
    var blockAlign := numChannels * bytesPerSample;
    var dataLen := |samples| * bytesPerSample;
    assert dataLen == if format == FormatPcm then 2 * |samples| else 4 * |samples|;
    buffer := new Byte[HeaderSize + dataLen](_ => 0);

    WriteRiffDescriptor(buffer, 36 + dataLen);
    WriteFmtChunk(buffer, format, numChannels, sampleRate, sampleRate * blockAlign, blockAlign, bitDepth);
    WriteDataChunkHeader(buffer, dataLen);
    assert buffer[..HeaderSize] == Header(format, sampleRate, numChannels, bitDepth, dataLen);

    if format == FormatPcm {
      FloatTo16BitPcm(buffer, HeaderSize, samples);
    } else {
      WriteFloat32(buffer, HeaderSize, samples, layout);
    }
    assert buffer[..] == buffer[..HeaderSize + dataLen];
  }

  /** interleave(inputL, inputR): a new array L0, R0, L1, R1, ... filled by a while loop. */
  method Interleave(inputL: seq<real>, inputR: seq<real>) returns (result: array<real>)
    requires |inputL| == |inputR|
    ensures fresh(result)
    ensures result.Length == 2 * |inputL|
    ensures forall i :: 0 <= i < |inputL| ==> result[2 * i] == inputL[i] && result[2 * i + 1] == inputR[i]
    ensures result[..] == Interleaved(inputL, inputR)
  {
    var length := |inputL| + |inputR|;
    result := new real[length];
    var index, inputIndex := 0, 0;
    while index < length
      invariant index == 2 * inputIndex <= length
      invariant forall i :: 0 <= i < inputIndex ==> result[2 * i] == inputL[i] && result[2 * i + 1] == inputR[i]
    {
      result[index] := inputL[inputIndex];
      index := index + 1;
      result[index] := inputR[inputIndex];
      index := index + 1;
      inputIndex := inputIndex + 1;
    }
    InterleavedAt(inputL, inputR);
    forall k | 0 <= k < length
      ensures result[k] == Interleaved(inputL, inputR)[k]
    {
      var i := k / 2;
      assert i < |inputL|;
      assert result[2 * i] == inputL[i] && result[2 * i + 1] == inputR[i];
      assert Interleaved(inputL, inputR)[2 * i] == inputL[i];
      assert Interleaved(inputL, inputR)[2 * i + 1] == inputR[i];
      if k % 2 == 0 {
        assert k == 2 * i;
      } else {
        assert k == 2 * i + 1;
      }
    }
    assert result[..] == Interleaved(inputL, inputR);
  }

  /**
    audioBufferToWav(buffer, {float32}): picks format 3 / 32 bits when float32
    is set and 1 / 16 bits otherwise, interleaves a stereo buffer, passes
    channel 0 for any other channel count, and encodes.
   */
  method AudioBufferToWav(buffer: AudioBuffer, float32: bool, layout: Float32Layout)
    returns (wav: array<Byte>)
    requires buffer.Valid()
    ensures fresh(wav)
    ensures wav[..] == AudioBufferWav(buffer, float32, layout)
  {
    var numChannels := buffer.NumberOfChannels();
    var sampleRate := buffer.sampleRate;
    var format := if float32 then FormatIeeeFloat else FormatPcm;
    var bitDepth := if format == FormatIeeeFloat then 32 else 16;

    var result: seq<real>;
    if numChannels == 2 {
      var interleaved := Interleave(buffer.channels[0], buffer.channels[1]);
      result := interleaved[..];
    } else {
      result := buffer.channels[0];
    }
    wav := EncodeWav(result, format, sampleRate, numChannels, bitDepth, layout);
  }
}
