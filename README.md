# WAV encoder of the audio editor (app.js)

This project models the part of the browser audio editor that turns a decoded or
rendered `AudioBuffer` into the bytes of a canonical RIFF/WAVE file with a
44-byte header. It also models the frame count that the Export button asks the
offline renderer for. The modules are:

- `Bytes` (bytes.dfy): what DataView's little-endian stores (`setUint8`,
  `setUint16`, `setUint32`, `setInt16`) put into the buffer. Every store
  reduces its value modulo its width, as ToUint8, ToUint16, ToUint32 and ToInt16
  do. Beside the encoders are the readers that decode those fields again.
- `Pcm` (pcm.dfy): `floatTo16BitPCM`'s sample conversion. The sample is
  clamped to [-1, 1] and scaled by 0x8000 when negative and by 0x7FFF
  otherwise. The stored value is the scaled sample truncated toward zero.
- `WavFormat` (wav_format.dfy): the file as a value.
  - `WavBytes` is the header followed by the payload.
  - `Header` is built from three chunks: the RIFF descriptor, the `fmt `
    chunk and the `data` chunk header.
  - `ParseHeader` reads the header back and is the partner of the round-trip
    lemmas.
  - `Interleaved` and `Channel` describe the stereo interleaving.
  - `EncodedSamples` and `AudioBufferWav` describe `audioBufferToWav`'s choice
    of format and of samples.
- `WavEncoder` (wav_encoder.dfy): the imperative code, as written.
  - `interleave` fills a new array in a `while` loop.
  - `encodeWAV` allocates an `array<Byte>` and stores the header fields at
    their fixed offsets. The payload writers then fill the rest with `for`
    and `while` loops that advance an offset.
  - Each method is proved to leave in the array exactly the bytes the
    `WavFormat` function describes. Every loop states which bytes it has
    written so far and that the bytes after them are unchanged.
- `Export` (export.dfy): `Math.ceil(duration * sampleRate / (parseFloat(speed) || 1))`
  and the `|| 1.0` fallback of the playback rate.
  - The three operations `length / sampleRate`, `* sampleRate` and
    `/ speed` are done in doubles. Each result passes through a rounding
    parameter `fl`.
  - `RoundsToNearest` says what IEEE-754 round-to-nearest guarantees of
    `fl`: a relative error of at most 2^-53, and integers up to 2^53 kept
    exactly.
  - So the requested length is ceil(frames / speed) give or take one frame.
    With the `|| 1` fallback it is the frame count or one frame more: 13
    frames at 44100 Hz can request 14.

Two behaviours of the code are worth noting:

- `audioBufferToWav` interleaves only when there are exactly two channels. For
  three or more channels it encodes channel 0 alone, while the header still
  records the full channel count. `EncodedSamplesSelection` and
  `DataMatchesBlockAlign` state this.
- A buffer with no frames is not rejected. `encodeWAV` returns a file that is
  only the 44-byte header, with a data length of 0. `WavLength` covers this
  case.

## Model

| member | source | states |
|---|---|---|
| Bytes.Uint8 | app.js:351 | setUint8 stores the one octet congruent to the character code modulo 256, so a code below 256 is stored as itself |
| Bytes.Uint16RoundTrip | app.js:312-322 | reading back a setUint16 field gives the value modulo 2^16, and the value itself when it fits |
| Bytes.Uint32RoundTrip | app.js:304-326 | reading back a setUint32 field gives the value modulo 2^32, and the value itself when it fits |
| Bytes.Int16RoundTrip | app.js:339 | getInt16 of the two octets setInt16 stores gives back every value of the int16 range |
| Bytes.StringBytes | app.js:349-353 | writeString stores one octet per character, octet i being charCodeAt(i) modulo 256 |
| Bytes.TagOctets | app.js:302-324 | the tags "RIFF", "WAVE", "fmt " and "data" are stored as their ASCII octets |
| Pcm.Clamp | app.js:338 | Math.max(-1, Math.min(1, s)) lies in [-1, 1], leaves samples inside it unchanged and saturates those outside |
| Pcm.TruncTowardZero | app.js:339 | ToInt16 drops the fraction toward zero: the result is within one unit of x, on x's side of zero |
| Pcm.Pcm16InRange | app.js:338-339 | every stored 16-bit value lies in [-32768, 32767] |
| Pcm.Pcm16FullScale | app.js:338-339 | +1.0 is stored as 32767 and -1.0 as -32768 |
| Pcm.Pcm16Saturates | app.js:338-339 | samples at or above +1 are stored as +1.0 is (so +1.5 as 32767), and those at or below -1 as -1.0 is |
| Pcm.Pcm16Error | app.js:338-339 | inside [-1, 1] the stored value is the scaled sample truncated toward zero, off by less than one step |
| Pcm.Pcm16Monotone | app.js:338-339 | a larger sample never stores a smaller value |
| Pcm.Pcm16Sign | app.js:338-339 | the stored value keeps the sample's sign |
| WavFormat.BytesPerSample | app.js:295 | bytesPerSample * 8 == bitDepth |
| WavFormat.FormatSelection | app.js:266-267 | format is 3 with 32 bits iff opt.float32 is set, and 1 with 16 bits otherwise |
| WavFormat.EncodedSamplesSelection | app.js:269-274 | two channels are encoded interleaved (L[i] at 2i, R[i] at 2i+1); any other count encodes channel 0 unchanged |
| WavFormat.DataMatchesBlockAlign | app.js:264-276 | the data chunk holds frames * blockAlign octets iff there are at most two channels or no frames |
| WavFormat.Pcm16Payload | app.js:336-340 | the 16-bit payload has two octets per sample |
| WavFormat.Float32Payload | app.js:343-346 | the float payload has four octets per sample |
| WavFormat.Pcm16PayloadSlot | app.js:336-340 | sample i occupies octets 2i..2i+2 of the 16-bit payload, as the little-endian int16 of its converted value |
| WavFormat.Float32PayloadSlot | app.js:343-346 | sample i occupies octets 4i..4i+4 of the float payload, as setFloat32 lays it out |
| WavFormat.RiffDescriptorFields | app.js:302-306 | octets 0-3 are "RIFF", 4-7 the little-endian RIFF size, 8-11 "WAVE" |
| WavFormat.FmtChunkFields | app.js:308-322 | the fmt chunk holds "fmt ", size 16, then format, channels, sample rate, byte rate, block align and bit depth at their offsets |
| WavFormat.DataChunkHeaderFields | app.js:324-326 | the data chunk header holds "data" and the little-endian data length |
| WavFormat.HeaderFields | app.js:302-326 | each header field sits at its fixed offset: tags at 0, 8, 12 and 36, size 16 at 16, RIFF size 36 + dataLen at 4, dataLen at 40, byte rate sampleRate * blockAlign at 28 |
| WavFormat.WavLength | app.js:295-298 | the file is exactly 44 + n * bytesPerSample octets: 2 per sample for format 1 and 4 for format 3 |
| WavFormat.WavSplit | app.js:298-331 | the first 44 octets are the header and the rest is the payload |
| WavFormat.ParseWavBytes | app.js:302-326 | reading the header back gives every field as written, reduced modulo its field width |
| WavFormat.HeaderRoundTrip | app.js:302-326 | when the values fit their fields, reading the header back gives exactly the inputs, RIFF size = file length - 8, byte rate and block align |
| WavFormat.Pcm16SampleAt | app.js:327-340 | in 16-bit mode the int16 at offset 44 + 2i of the file is the converted sample i |
| WavFormat.Float32SampleAt | app.js:327-346 | in float mode the four octets at offset 44 + 4i of the file are sample i's float layout |
| WavFormat.InterleavedIndex | app.js:279-291 | the interleaving has 2n samples, with L[i] at 2i and R[i] at 2i+1 |
| WavFormat.InterleavedAt | app.js:279-291 | the interleaving of two channels of length n has 2n samples, with L[i] at 2i and R[i] at 2i+1 for every i |
| WavFormat.DeinterleaveRoundTrip | app.js:279-291 | taking every second sample of the interleaving gives back the left and the right channel |
| WavEncoder.SetUint8 | app.js:351 | setUint8 stores one octet at the offset and changes nothing else |
| WavEncoder.SetUint16 | app.js:312-322 | setUint16(offset, v, true) stores ToUint16(v) low octet first and changes nothing else |
| WavEncoder.SetUint32 | app.js:304-326 | setUint32(offset, v, true) stores ToUint32(v) low octet first and changes nothing else |
| WavEncoder.SetInt16 | app.js:339 | setInt16(offset, x, true) stores the truncated value in two's complement and changes nothing else |
| WavEncoder.SetFloat32 | app.js:345 | setFloat32(offset, x, true) stores the four layout octets and changes nothing else |
| WavEncoder.WriteString | app.js:349-353 | the string's octets land at offset..offset+len, and the octets before and after are unchanged |
| WavEncoder.FloatTo16BitPcm | app.js:336-341 | the octets from offset on are the 16-bit payload of the input, and the octets before and after it are unchanged |
| WavEncoder.WriteFloat32 | app.js:343-347 | the octets from offset on are the float payload of the input, and the octets before and after it are unchanged |
| WavEncoder.WriteRiffDescriptor | app.js:301-306 | octets 0-11 become the RIFF descriptor and the rest is unchanged |
| WavEncoder.WriteFmtChunk | app.js:307-322 | octets 12-35 become the fmt chunk, and the octets before and after are unchanged |
| WavEncoder.WriteDataChunkHeader | app.js:323-326 | octets 36-43 become the data chunk header, and the octets before and after are unchanged |
| WavEncoder.EncodeWav | app.js:294-334 | the returned buffer is newly allocated and is exactly WavBytes: the header followed by the payload |
| WavEncoder.Interleave | app.js:279-292 | the result is a new array of 2n samples with L[i] at 2i and R[i] at 2i+1, which is Interleaved(L, R) |
| WavEncoder.AudioBufferToWav | app.js:262-277 | the returned buffer is newly allocated and is AudioBufferWav: the format chosen by the option, over the interleaved or channel-0 samples |
| Export.Ceil | app.js:220 | Math.ceil gives the least integer not below x |
| Export.EffectiveSpeedFallback | app.js:220-226 | the divisor is never 0: a speed that parses to NaN or 0 becomes 1, and any other speed is kept |
| Export.ExactLengthIsCeil | app.js:220 | in exact arithmetic the length ceil(frames / speed) is the least n with n * speed >= frames |
| Export.DurationFramesClose | app.js:220 | `duration * sampleRate` in doubles is non-negative and within 3 * 2^-53 * frames of the frame count |
| Export.ExportLengthNearCeil | app.js:220 | for a positive speed and fewer than 2^50 output frames, the requested length is within one of ceil(frames / speed) |
| Export.ExportLengthFallback | app.js:220 | a speed that parses to NaN or 0 requests the frame count or one frame more (fewer than 2^50 frames) |
| Export.ExportLengthCanOvershoot | app.js:220 | a rounding allowed by round-to-nearest makes 13 frames at 44100 Hz with the fallback speed request 14 frames |
| Export.ExportScenario | app.js:218-249 | 44100 mono frames at 44100 Hz exported at speed 2 render to 22050 frames, every rounding being exact; the offline context takes the file's channel count and rate; the 16-bit file is 44 + 22050 * 2 octets |

## Left out

- The user interface is not modelled: DOM lookups, slider and button listeners, play and stop state, and button labels. It is event wiring with no behaviour to state.
- The Tone.js player, PitchShift and Analyser are not modelled. They are foreign library calls on real-time audio.
- The canvas waveform and its animation loop are not modelled. They are drawing code.
- `decodeAudioData` and `OfflineAudioContext.startRendering` are not modelled, nor the playback-rate resampling and the biquad filter. They run inside the browser engine, whose source is not part of this model. The rendered buffer is an input. `ExportScenario` assumes that it has the requested length, and the channel count and sample rate the offline context was created with.
- The Blob, object URL and anchor download are not modelled. They are I/O.
- WavEncoder.SetFloat32: the IEEE-754 layout of `setFloat32` is the parameter `layout`, an arbitrary function from a sample to four octets. The float bytes are therefore stated only up to that layout.
- Pcm.Pcm16Error: samples are real numbers. The double rounding of `s * 0x8000` and of the Float32Array storage is not modelled, and neither are NaN and the infinities.
- WavEncoder.EncodeWav: requires the pair (1, 16) or (3, 32). These are the only pairs `audioBufferToWav`, its one caller, passes.
- WavEncoder.Interleave: requires two channels of equal length. Every AudioBuffer guarantees this. With unequal lengths the source would read past the shorter channel.
- WavEncoder.AudioBufferToWav: the buffer must be a valid AudioBuffer: a positive sample rate, at least one channel, and channels of one length. The option `opt.float32` is a boolean rather than an arbitrary JavaScript truthy value.
- WavFormat.HeaderRoundTrip: gives back exact values only when each value fits its field. `ParseWavBytes` states the general case, modulo the field widths.
- Export.ExportLengthNearCeil: stated for a positive effective speed and fewer than 2^50 output frames. Negative speeds are not considered.
- Export.RoundsToNearest: the rounding is characterised only by its error bound and by integers being kept. Which way a particular value rounds is left open, and overflow and subnormal results are not modelled.
- Export.ExportLengthFallback: states "the frame count or one more", not which of the two a given buffer gets. That depends on the exact double rounding, which is a parameter here.
- Sample rates and channel counts are integers. A fractional sample rate passed to `setUint32` is not modelled.
- Determinism of the payload writers is not a separate lemma. It follows from `EncodeWav`'s result being a function of its inputs.
