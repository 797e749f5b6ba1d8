/**
  The canonical 44-byte-header RIFF/WAVE file that app.js's encodeWAV builds,
  as a value: the header, the 16-bit or 32-bit-float payload, the stereo
  interleaving and the channel/format selection of audioBufferToWav.
  The imperative encoder in module WavEncoder is proved to produce exactly
  WavBytes; the lemmas here state what those bytes mean.
 */
module WavFormat {
  import opened Bytes
  import opened Pcm

  datatype Option<T> = None | Some(value: T)

  /** WAVE_FORMAT_PCM and WAVE_FORMAT_IEEE_FLOAT format tags. */
  const FormatPcm: int := 1
  const FormatIeeeFloat: int := 3
  const HeaderSize: nat := 44

  /** The octets setFloat32(offset, s, true) stores: the IEEE-754 layout is a parameter. */
  type Float32Layout = real -> Bytes4

  /** The (format, bitDepth) pairs audioBufferToWav hands to encodeWAV. */
  predicate ValidFormat(format: int, bitDepth: int)
  {
    (format == FormatPcm && bitDepth == 16) || (format == FormatIeeeFloat && bitDepth == 32)
  }

  function BytesPerSample(bitDepth: int): (n: nat)
    requires bitDepth == 16 || bitDepth == 32
    ensures n * 8 == bitDepth
  {
    bitDepth / 8
  }

  // ---------------------------------------------------------------- header

  /** Octets 0..12: "RIFF", the RIFF chunk size (file length minus 8), "WAVE". */
  function RiffDescriptor(riffSize: int): (d: seq<Byte>)
    ensures |d| == 12
  {
    StringBytes("RIFF") + Uint32LE(riffSize) + StringBytes("WAVE")
  }

  /** Octets 12..36: the "fmt " chunk, 16 octets long, and its six little-endian fields. */
  function FmtChunk(format: int, numChannels: int, sampleRate: int, byteRate: int,
                    blockAlign: int, bitDepth: int): (c: seq<Byte>)
    ensures |c| == 24
  {
    StringBytes("fmt ") + Uint32LE(16) + Uint16LE(format) + Uint16LE(numChannels)
    + Uint32LE(sampleRate) + Uint32LE(byteRate) + Uint16LE(blockAlign) + Uint16LE(bitDepth)
  }

  /** Octets 36..44: "data" and the payload length. */
  function DataChunkHeader(dataLen: int): (d: seq<Byte>)
    ensures |d| == 8
  {
    StringBytes("data") + Uint32LE(dataLen)
  }

  /**
    The 44 header octets encodeWAV writes: byte rate sampleRate * blockAlign
    and block align numChannels * bytesPerSample.
   */
  function Header(format: int, sampleRate: int, numChannels: int, bitDepth: int, dataLen: int): (h: seq<Byte>)
    requires ValidFormat(format, bitDepth)
    ensures |h| == HeaderSize
  {
    var blockAlign := numChannels * BytesPerSample(bitDepth);
    RiffDescriptor(36 + dataLen)
    + FmtChunk(format, numChannels, sampleRate, sampleRate * blockAlign, blockAlign, bitDepth)
    + DataChunkHeader(dataLen)
  }

  // --------------------------------------------------------------- payload

  /** floatTo16BitPCM's output: one little-endian int16 per sample, in index order. */
  function Pcm16Payload(input: seq<real>): (p: seq<Byte>)
    ensures |p| == 2 * |input|
    decreases |input|
  {
    if input == [] then []
    else Pcm16Payload(input[..|input| - 1]) + Uint16LE(Pcm16Value(input[|input| - 1]))
  }

  /** writeFloat32's output: four octets per sample, in index order, unclamped. */
  function Float32Payload(input: seq<real>, layout: Float32Layout): (p: seq<Byte>)
    ensures |p| == 4 * |input|
    decreases |input|
  {
    if input == [] then []
    else Float32Payload(input[..|input| - 1], layout) + layout(input[|input| - 1])
  }

  /** The payload encodeWAV writes: `format === 1` selects PCM16, anything else float32. */
  function Payload(samples: seq<real>, format: int, layout: Float32Layout): seq<Byte>
  {
    if format == FormatPcm then Pcm16Payload(samples) else Float32Payload(samples, layout)
  }

  /** The whole file encodeWAV(samples, format, sampleRate, numChannels, bitDepth) returns. */
  function WavBytes(samples: seq<real>, format: int, sampleRate: int, numChannels: int,
                    bitDepth: int, layout: Float32Layout): seq<Byte>
    requires ValidFormat(format, bitDepth)
  {
    Header(format, sampleRate, numChannels, bitDepth, |samples| * BytesPerSample(bitDepth))
    + Payload(samples, format, layout)
  }

  // ---------------------------------------------------------- header reader

  /** The fields a reader of the canonical header recovers. */
  datatype WavInfo = WavInfo(riffSize: int, format: int, numChannels: int, sampleRate: int,
                             byteRate: int, blockAlign: int, bitDepth: int, dataLen: int)

  /**
    A reader of the canonical 44-byte header: it checks the four tags and the
    fmt chunk size 16 and reads the little-endian fields at their offsets.
   */
  function ParseHeader(b: seq<Byte>): (r: Option<WavInfo>)
    ensures r.Some? ==> |b| >= HeaderSize && b[0..4] == StringBytes("RIFF") && b[36..40] == StringBytes("data")
  {
    if |b| < HeaderSize || b[0..4] != StringBytes("RIFF") || b[8..12] != StringBytes("WAVE")
       || b[12..16] != StringBytes("fmt ") || ReadUint32(b, 16) != 16 || b[36..40] != StringBytes("data")
    then None
    else Some(WavInfo(ReadUint32(b, 4), ReadUint16(b, 20), ReadUint16(b, 22), ReadUint32(b, 24),
                      ReadUint32(b, 28), ReadUint16(b, 32), ReadUint16(b, 34), ReadUint32(b, 40)))
  }

  // ----------------------------------------------------------- interleaving

  /** Two channels frame by frame: L0, R0, L1, R1, ... */
  function Interleaved(left: seq<real>, right: seq<real>): seq<real>
    requires |left| == |right|
    decreases |left|
  {
    if left == [] then [] else [left[0], right[0]] + Interleaved(left[1..], right[1..])
  }

  /** Every second sample of an interleaved stream, starting at `channel`. */
  function Channel(s: seq<real>, channel: nat): (c: seq<real>)
    requires channel < 2 && |s| % 2 == 0
    ensures |c| == |s| / 2
    ensures forall i :: 0 <= i < |c| ==> c[i] == s[2 * i + channel]
  {
    seq(|s| / 2, i requires 0 <= i < |s| / 2 => s[2 * i + channel])
  }

  // ------------------------------------------------------ audioBufferToWav

  /** The decoded/rendered AudioBuffer: a sample rate and one sample sequence per channel. */
  datatype AudioBuffer = AudioBuffer(sampleRate: int, channels: seq<seq<real>>)
  {
    /** What Web Audio guarantees of every AudioBuffer: a positive rate, a channel 0, channels of one length. */
    predicate Valid()
    {
      && sampleRate > 0
      && |channels| >= 1
      && forall c :: 0 <= c < |channels| ==> |channels[c]| == |channels[0]|
    }

    function NumberOfChannels(): int { |channels| }
  }

  /** `opt.float32 ? 3 : 1` */
  function FormatFor(float32: bool): int
  {
    if float32 then FormatIeeeFloat else FormatPcm
  }

  /** `format === 3 ? 32 : 16` */
  function BitDepthFor(format: int): int
  {
    if format == FormatIeeeFloat then 32 else 16
  }

  /** The samples audioBufferToWav encodes: stereo is interleaved, any other count passes channel 0. */
  function EncodedSamples(buffer: AudioBuffer): seq<real>
    requires buffer.Valid()
  {
    if buffer.NumberOfChannels() == 2 then Interleaved(buffer.channels[0], buffer.channels[1])
    else buffer.channels[0]
  }

  /** The file audioBufferToWav(buffer, {float32}) returns. */
  function AudioBufferWav(buffer: AudioBuffer, float32: bool, layout: Float32Layout): seq<Byte>
    requires buffer.Valid()
  {
    var format := FormatFor(float32);
    FormatSelection(float32);
    WavBytes(EncodedSamples(buffer), format, buffer.sampleRate, buffer.NumberOfChannels(),
             BitDepthFor(format), layout)
  }

  // ================================================================ lemmas

  /** The float32 option alone picks the format: 3 and 32 bits iff set, otherwise 1 and 16 bits. */
  lemma FormatSelection(float32: bool)
    ensures ValidFormat(FormatFor(float32), BitDepthFor(FormatFor(float32)))
    ensures FormatFor(float32) == FormatIeeeFloat <==> float32
    ensures BitDepthFor(FormatFor(float32)) == 32 <==> float32
    ensures !float32 <==> FormatFor(float32) == FormatPcm && BitDepthFor(FormatFor(float32)) == 16
  {
  }

  /** The slot of sample i in the PCM16 payload holds its int16 value, little-endian. */
  lemma {:induction false} Pcm16PayloadSlot(input: seq<real>, i: nat)
    requires i < |input|
    ensures Pcm16Payload(input)[2 * i..2 * i + 2] == Uint16LE(Pcm16Value(input[i]))
    decreases |input|
  {
    var n := |input| - 1;
    var prefix := input[..n];
    if i < n {
      Pcm16PayloadSlot(prefix, i);
      assert prefix[i] == input[i];
      var p := Pcm16Payload(prefix);
      assert Pcm16Payload(input) == p + Uint16LE(Pcm16Value(input[n]));
      assert (p + Uint16LE(Pcm16Value(input[n])))[2 * i..2 * i + 2] == p[2 * i..2 * i + 2];
    }
  }

  /** The slot of sample i in the float32 payload holds the sample's four IEEE octets. */
  lemma {:induction false} Float32PayloadSlot(input: seq<real>, layout: Float32Layout, i: nat)
    requires i < |input|
    ensures Float32Payload(input, layout)[4 * i..4 * i + 4] == layout(input[i])
    decreases |input|
  {
    var n := |input| - 1;
    var prefix := input[..n];
    if i < n {
      Float32PayloadSlot(prefix, layout, i);
      assert prefix[i] == input[i];
      var p := Float32Payload(prefix, layout);
      assert Float32Payload(input, layout) == p + layout(input[n]);
      assert (p + layout(input[n]))[4 * i..4 * i + 4] == p[4 * i..4 * i + 4];
    }
  }

  lemma SliceOfLeft<T>(a: seq<T>, b: seq<T>, i: nat, j: nat)
    requires i <= j <= |a|
    ensures (a + b)[i..j] == a[i..j]
  {
  }

  lemma SliceOfRight<T>(a: seq<T>, b: seq<T>, i: nat, j: nat)
    requires |a| <= i <= j <= |a| + |b|
    ensures (a + b)[i..j] == b[i - |a|..j - |a|]
  {
  }

  lemma RiffDescriptorFields(riffSize: int)
    ensures var d := RiffDescriptor(riffSize);
      d[0..4] == StringBytes("RIFF") && d[4..8] == Uint32LE(riffSize) && d[8..12] == StringBytes("WAVE")
  {
    var a := StringBytes("RIFF") + Uint32LE(riffSize);
    SliceOfLeft(a, StringBytes("WAVE"), 0, 4);
    SliceOfLeft(a, StringBytes("WAVE"), 4, 8);
    SliceOfRight(a, StringBytes("WAVE"), 8, 12);
  }

  lemma FmtChunkFields(format: int, numChannels: int, sampleRate: int, byteRate: int,
                       blockAlign: int, bitDepth: int)
    ensures var c := FmtChunk(format, numChannels, sampleRate, byteRate, blockAlign, bitDepth);
      && c[0..4] == StringBytes("fmt ") && c[4..8] == Uint32LE(16)
      && c[8..10] == Uint16LE(format) && c[10..12] == Uint16LE(numChannels)
      && c[12..16] == Uint32LE(sampleRate) && c[16..20] == Uint32LE(byteRate)
      && c[20..22] == Uint16LE(blockAlign) && c[22..24] == Uint16LE(bitDepth)
  {
    var p1 := StringBytes("fmt ") + Uint32LE(16);
    var p2 := p1 + Uint16LE(format);
    var p3 := p2 + Uint16LE(numChannels);
    var p4 := p3 + Uint32LE(sampleRate);
    var p5 := p4 + Uint32LE(byteRate);
    var p6 := p5 + Uint16LE(blockAlign);
    var c := p6 + Uint16LE(bitDepth);
    var bd, ba, br, sr := Uint16LE(bitDepth), Uint16LE(blockAlign), Uint32LE(byteRate), Uint32LE(sampleRate);
    assert c[22..24] == bd by { SliceOfRight(p6, bd, 22, 24); }
    assert c[20..22] == ba by { SliceOfLeft(p6, bd, 20, 22); SliceOfRight(p5, ba, 20, 22); }
    assert c[16..20] == br by {
      SliceOfLeft(p6, bd, 16, 20); SliceOfLeft(p5, ba, 16, 20); SliceOfRight(p4, br, 16, 20);
    }
    assert c[12..16] == sr by {
      SliceOfLeft(p6, bd, 12, 16); SliceOfLeft(p5, ba, 12, 16); SliceOfLeft(p4, br, 12, 16);
      SliceOfRight(p3, sr, 12, 16);
    }
    forall i, j | 0 <= i <= j <= 12 ensures c[i..j] == p3[i..j] {
      SliceOfLeft(p6, bd, i, j); SliceOfLeft(p5, ba, i, j); SliceOfLeft(p4, br, i, j);
      SliceOfLeft(p3, sr, i, j);
    }
    assert p3[10..12] == Uint16LE(numChannels) by { SliceOfRight(p2, Uint16LE(numChannels), 10, 12); }
    assert p3[8..10] == Uint16LE(format) by {
      SliceOfLeft(p2, Uint16LE(numChannels), 8, 10); SliceOfRight(p1, Uint16LE(format), 8, 10);
    }
    assert p3[0..4] == StringBytes("fmt ") && p3[4..8] == Uint32LE(16) by {
      SliceOfLeft(p2, Uint16LE(numChannels), 0, 4); SliceOfLeft(p1, Uint16LE(format), 0, 4);
      SliceOfLeft(p2, Uint16LE(numChannels), 4, 8); SliceOfLeft(p1, Uint16LE(format), 4, 8);
    }
  }

  lemma DataChunkHeaderFields(dataLen: int)
    ensures var d := DataChunkHeader(dataLen);
      d[0..4] == StringBytes("data") && d[4..8] == Uint32LE(dataLen)
  {
  }

  /** The header's fields, each at its fixed offset. */
  lemma HeaderFields(format: int, sampleRate: int, numChannels: int, bitDepth: int, dataLen: int)
    requires ValidFormat(format, bitDepth)
    ensures var h := Header(format, sampleRate, numChannels, bitDepth, dataLen);
      var blockAlign := numChannels * BytesPerSample(bitDepth);
      && h[0..4] == StringBytes("RIFF") && h[4..8] == Uint32LE(36 + dataLen)
      && h[8..12] == StringBytes("WAVE") && h[12..16] == StringBytes("fmt ")
      && h[16..20] == Uint32LE(16) && h[20..22] == Uint16LE(format)
      && h[22..24] == Uint16LE(numChannels) && h[24..28] == Uint32LE(sampleRate)
      && h[28..32] == Uint32LE(sampleRate * blockAlign) && h[32..34] == Uint16LE(blockAlign)
      && h[34..36] == Uint16LE(bitDepth) && h[36..40] == StringBytes("data")
      && h[40..44] == Uint32LE(dataLen)
  {
    var blockAlign := numChannels * BytesPerSample(bitDepth);
    var r := RiffDescriptor(36 + dataLen);
    var f := FmtChunk(format, numChannels, sampleRate, sampleRate * blockAlign, blockAlign, bitDepth);
    var d := DataChunkHeader(dataLen);
    RiffDescriptorFields(36 + dataLen);
    FmtChunkFields(format, numChannels, sampleRate, sampleRate * blockAlign, blockAlign, bitDepth);
    DataChunkHeaderFields(dataLen);
    forall i, j | 0 <= i <= j <= 12 ensures (r + f + d)[i..j] == r[i..j] {
      SliceOfLeft(r + f, d, i, j);
      SliceOfLeft(r, f, i, j);
    }
    forall i, j | 12 <= i <= j <= 36 ensures (r + f + d)[i..j] == f[i - 12..j - 12] {
      SliceOfLeft(r + f, d, i, j);
      SliceOfRight(r, f, i, j);
    }
    forall i, j | 36 <= i <= j <= 44 ensures (r + f + d)[i..j] == d[i - 36..j - 36] {
      SliceOfRight(r + f, d, i, j);
    }
  }

  /**
    The file is exactly 44 + n * bytesPerSample octets, where n counts the
    encoded samples and bytesPerSample is 2 for format 1 and 4 for format 3.
   */
  lemma WavLength(samples: seq<real>, format: int, sampleRate: int, numChannels: int,
                  bitDepth: int, layout: Float32Layout)
    requires ValidFormat(format, bitDepth)
    ensures |WavBytes(samples, format, sampleRate, numChannels, bitDepth, layout)|
            == HeaderSize + |samples| * (if format == FormatPcm then 2 else 4)
  {
  }

  /** The 44-octet prefix of the file is the header, and the rest is the payload. */
  lemma WavSplit(samples: seq<real>, format: int, sampleRate: int, numChannels: int,
                 bitDepth: int, layout: Float32Layout)
    requires ValidFormat(format, bitDepth)
    ensures var w := WavBytes(samples, format, sampleRate, numChannels, bitDepth, layout);
      && w[..HeaderSize] == Header(format, sampleRate, numChannels, bitDepth, |samples| * BytesPerSample(bitDepth))
      && w[HeaderSize..] == Payload(samples, format, layout)
  {
  }

  /**
    Reading the header back gives the tags, fmt size 16, and every field as
    written, each reduced modulo its width (the DataView conversions).
   */
  lemma ParseWavBytes(samples: seq<real>, format: int, sampleRate: int, numChannels: int,
                      bitDepth: int, layout: Float32Layout)
    requires ValidFormat(format, bitDepth)
    ensures var dataLen := |samples| * BytesPerSample(bitDepth);
      var blockAlign := numChannels * BytesPerSample(bitDepth);
      ParseHeader(WavBytes(samples, format, sampleRate, numChannels, bitDepth, layout))
      == Some(WavInfo((36 + dataLen) % Two32, format, numChannels % Two16, sampleRate % Two32,
                      (sampleRate * blockAlign) % Two32, blockAlign % Two16, bitDepth, dataLen % Two32))
  {
    var dataLen := |samples| * BytesPerSample(bitDepth);
    var blockAlign := numChannels * BytesPerSample(bitDepth);
    var h := Header(format, sampleRate, numChannels, bitDepth, dataLen);
    var w := WavBytes(samples, format, sampleRate, numChannels, bitDepth, layout);
    WavSplit(samples, format, sampleRate, numChannels, bitDepth, layout);
    HeaderFields(format, sampleRate, numChannels, bitDepth, dataLen);
    assert forall a, b :: 0 <= a <= b <= HeaderSize ==> w[a..b] == h[a..b];
    Uint32RoundTrip(36 + dataLen);
    Uint32RoundTrip(16);
    Uint16RoundTrip(format);
    Uint16RoundTrip(numChannels);
    Uint32RoundTrip(sampleRate);
    Uint32RoundTrip(sampleRate * blockAlign);
    Uint16RoundTrip(blockAlign);
    Uint16RoundTrip(bitDepth);
    Uint32RoundTrip(dataLen);
  }

  /**
    Header round trip: when every value fits its field, reading the header
    gives back exactly the inputs, the byte rate sampleRate * numChannels *
    bytesPerSample, the block align numChannels * bytesPerSample, and a RIFF
    size of the file length minus 8.
   */
  lemma HeaderRoundTrip(samples: seq<real>, format: int, sampleRate: int, numChannels: int,
                        bitDepth: int, layout: Float32Layout)
    requires ValidFormat(format, bitDepth)
    requires 0 <= sampleRate < Two32 && 0 <= numChannels < Two16
    requires numChannels * BytesPerSample(bitDepth) < Two16
    requires sampleRate * (numChannels * BytesPerSample(bitDepth)) < Two32
    requires 36 + |samples| * BytesPerSample(bitDepth) < Two32
    ensures var w := WavBytes(samples, format, sampleRate, numChannels, bitDepth, layout);
      var bps := BytesPerSample(bitDepth);
      ParseHeader(w) == Some(WavInfo(|w| - 8, format, numChannels, sampleRate,
                                     sampleRate * (numChannels * bps), numChannels * bps,
                                     bitDepth, |samples| * bps))
  {
    var bps := BytesPerSample(bitDepth);
    var blockAlign := numChannels * bps;
    var dataLen := |samples| * bps;
    ParseWavBytes(samples, format, sampleRate, numChannels, bitDepth, layout);
    WavLength(samples, format, sampleRate, numChannels, bitDepth, layout);
    assert 0 <= blockAlign by {
      MulNonNegative(numChannels, bps);
    }
    assert 0 <= sampleRate * blockAlign by {
      MulNonNegative(sampleRate, blockAlign);
    }
    assert 0 <= dataLen by {
      MulNonNegative(|samples|, bps);
    }
    ModSmall(36 + dataLen, Two32);
    ModSmall(dataLen, Two32);
    ModSmall(numChannels, Two16);
    ModSmall(sampleRate, Two32);
    ModSmall(sampleRate * blockAlign, Two32);
    ModSmall(blockAlign, Two16);
  }

  lemma ModSmall(x: int, m: int)
    requires 0 <= x < m
    ensures x % m == x
  {
  }

  lemma MulNonNegative(a: int, b: int)
    requires 0 <= a && 0 <= b
    ensures 0 <= a * b
  {
  }

  /** In 16-bit mode, sample i is read back at offset 44 + 2i as its clamped, scaled, truncated value. */
  lemma Pcm16SampleAt(samples: seq<real>, sampleRate: int, numChannels: int, layout: Float32Layout, i: nat)
    requires i < |samples|
    ensures var w := WavBytes(samples, FormatPcm, sampleRate, numChannels, 16, layout);
      && HeaderSize + 2 * i + 2 <= |w|
      && ReadInt16(w, HeaderSize + 2 * i) == Pcm16Value(samples[i])
  {
    var w := WavBytes(samples, FormatPcm, sampleRate, numChannels, 16, layout);
    WavSplit(samples, FormatPcm, sampleRate, numChannels, 16, layout);
    Pcm16PayloadSlot(samples, i);
    var p := Pcm16Payload(samples);
    assert w[HeaderSize + 2 * i..HeaderSize + 2 * i + 2] == p[2 * i..2 * i + 2];
    Pcm16InRange(samples[i]);
    Int16RoundTrip(Pcm16Value(samples[i]));
  }

  /** In float mode, octets 44 + 4i .. 48 + 4i are sample i's IEEE-754 layout, unclamped. */
  lemma Float32SampleAt(samples: seq<real>, sampleRate: int, numChannels: int, layout: Float32Layout, i: nat)
    requires i < |samples|
    ensures var w := WavBytes(samples, FormatIeeeFloat, sampleRate, numChannels, 32, layout);
      && HeaderSize + 4 * i + 4 <= |w|
      && w[HeaderSize + 4 * i..HeaderSize + 4 * i + 4] == layout(samples[i])
  {
    var w := WavBytes(samples, FormatIeeeFloat, sampleRate, numChannels, 32, layout);
    WavSplit(samples, FormatIeeeFloat, sampleRate, numChannels, 32, layout);
    Float32PayloadSlot(samples, layout, i);
    var p := Float32Payload(samples, layout);
    assert w[HeaderSize + 4 * i..HeaderSize + 4 * i + 4] == p[4 * i..4 * i + 4];
  }

  /** Interleaving doubles the length and puts L[i] at 2i and R[i] at 2i + 1. */
  lemma {:induction false} InterleavedIndex(left: seq<real>, right: seq<real>, i: nat)
    requires |left| == |right| && i < |left|
    ensures |Interleaved(left, right)| == 2 * |left|
    ensures Interleaved(left, right)[2 * i] == left[i]
    ensures Interleaved(left, right)[2 * i + 1] == right[i]
    decreases |left|
  {
    var rest := Interleaved(left[1..], right[1..]);
    if i == 0 {
      if |left| > 1 {
        InterleavedIndex(left[1..], right[1..], 0);
      } else {
        assert rest == [];
      }
    } else {
      InterleavedIndex(left[1..], right[1..], i - 1);
      var j := 2 * (i - 1);
      assert ([left[0], right[0]] + rest)[j + 2] == rest[j];
      assert ([left[0], right[0]] + rest)[j + 3] == rest[j + 1];
    }
  }

  /** The same, for every frame at once. */
  lemma InterleavedAt(left: seq<real>, right: seq<real>)
    requires |left| == |right|
    ensures |Interleaved(left, right)| == 2 * |left|
    ensures forall i :: 0 <= i < |left| ==>
      Interleaved(left, right)[2 * i] == left[i] && Interleaved(left, right)[2 * i + 1] == right[i]
  {
    if left == [] {
    } else {
      InterleavedIndex(left, right, 0);
      forall i | 0 <= i < |left|
        ensures Interleaved(left, right)[2 * i] == left[i] && Interleaved(left, right)[2 * i + 1] == right[i]
      {
        InterleavedIndex(left, right, i);
      }
    }
  }

  /** De-interleaving takes back both channels: Channel is the inverse of Interleaved. */
  lemma DeinterleaveRoundTrip(left: seq<real>, right: seq<real>)
    requires |left| == |right|
    ensures |Interleaved(left, right)| % 2 == 0
    ensures Channel(Interleaved(left, right), 0) == left
    ensures Channel(Interleaved(left, right), 1) == right
  {
    InterleavedAt(left, right);
  }

  /**
    Which samples are encoded: for two channels, the interleaving of channels
    0 and 1; for any other count (1, or 3 and more), channel 0 unchanged.
   */
  lemma EncodedSamplesSelection(buffer: AudioBuffer)
    requires buffer.Valid()
    ensures buffer.NumberOfChannels() != 2 ==> EncodedSamples(buffer) == buffer.channels[0]
    ensures buffer.NumberOfChannels() == 2 ==>
      && |EncodedSamples(buffer)| == 2 * |buffer.channels[0]|
      && forall i :: 0 <= i < |buffer.channels[0]| ==>
           EncodedSamples(buffer)[2 * i] == buffer.channels[0][i]
           && EncodedSamples(buffer)[2 * i + 1] == buffer.channels[1][i]
  {
    if buffer.NumberOfChannels() == 2 {
      InterleavedAt(buffer.channels[0], buffer.channels[1]);
    }
  }

  /**
    The data chunk holds frames * blockAlign octets exactly when there are at
    most two channels (or no frames): with three or more channels the header
    announces numChannels but only channel 0 is written.
   */
  lemma DataMatchesBlockAlign(buffer: AudioBuffer, float32: bool)
    requires buffer.Valid()
    ensures var bps := BytesPerSample(BitDepthFor(FormatFor(float32)));
      var frames := |buffer.channels[0]|;
      (|EncodedSamples(buffer)| * bps == frames * (buffer.NumberOfChannels() * bps))
      <==> (buffer.NumberOfChannels() <= 2 || frames == 0)
  {
    var bps := BytesPerSample(BitDepthFor(FormatFor(float32)));
    var frames := |buffer.channels[0]|;
    var c := buffer.NumberOfChannels();
    EncodedSamplesSelection(buffer);
    assert frames * (c * bps) == (frames * c) * bps;
    if c > 2 && frames > 0 {
      assert frames * c > frames;
    }
  }
}
