/**
  The frame count the export handler asks the offline renderer for
  (app.js, the Export click handler):
  `Math.ceil(fileBuffer.duration * sampleRate / (parseFloat(speed.value) || 1))`,
  and the playback rate `parseFloat(speed.value) || 1.0` given to the source.

  The three operations `length / sampleRate` (AudioBuffer.duration),
  `duration * sampleRate` and `/ speed` are done in doubles. Each one is
  rounded by `fl`, a parameter that stands for IEEE-754 round-to-nearest
  (see RoundsToNearest). So the requested length is close to, but not always
  equal to, ceil(frames / speed). The renderer itself (resampling, filtering)
  is not part of this model; the rendered buffer it returns has exactly the
  requested number of frames.
 */
module Export {
  import opened WavFormat

  /** What parseFloat yields for the speed slider's text: NaN, or a finite number. */
  datatype ParsedNumber = NaN | Finite(value: real)

  /** `parseFloat(speed.value) || 1`: NaN and 0 are falsy and fall back to 1. */
  function EffectiveSpeed(speed: ParsedNumber): (r: real)
  {
    match speed
    case NaN => 1.0
    case Finite(x) => if x == 0.0 then 1.0 else x
  }

  /** Math.ceil on a finite value: the least integer not below x. */
  function Ceil(x: real): (n: int)
    ensures x <= n as real < x + 1.0
  {
    -((-x).Floor)
  }

  function Abs(x: real): real { if x < 0.0 then -x else x }

  /** 2^53: below it every integer is a double. */
  const Two53: real := 9007199254740992.0

  /** The largest error one rounding may make on a value of magnitude x: x * 2^-53. */
  function Err(x: real): real { x / 9007199254740992.0 }

  /** The rounding of one double operation, applied to its exact real result. */
  type Rounding = real -> real

  /**
    What round-to-nearest guarantees: a relative error of at most 2^-53,
    and an integer of magnitude at most 2^53 is a double already, so it is
    kept as it is. Overflow and underflow do not arise for frame counts and
    sample rates.
   */
  ghost predicate RoundsToNearest(fl: Rounding)
  {
    && (forall x: real :: Bounded(fl, x))
    && (forall n: int :: -Two53 <= Real(n) <= Two53 ==> Round(fl, Real(n)) == Real(n))
  }

  /** An integer as a real number. */
  function Real(n: int): real
  {
    n as real
  }

  /** One rounding of x is off by at most Err(|x|). */
  ghost predicate Bounded(fl: Rounding, x: real)
  {
    Abs(Round(fl, x) - x) <= Err(Abs(x))
  }

  /** The double an operation whose exact result is x yields. */
  function Round(fl: Rounding, x: real): real
  {
    fl(x)
  }

  /**
    `fileBuffer.duration * sampleRate` in doubles: AudioBuffer.duration is
    length / sampleRate rounded, and the product is rounded again.
   */
  function DurationFrames(frames: nat, sampleRate: int, fl: Rounding): real
    requires sampleRate > 0
  {
    Round(fl, Round(fl, frames as real / sampleRate as real) * sampleRate as real)
  }

  /** The `length` handed to the OfflineAudioContext. */
  function ExportLength(fileBuffer: AudioBuffer, speed: ParsedNumber, fl: Rounding): int
    requires fileBuffer.Valid()
  {
    var p := DurationFrames(|fileBuffer.channels[0]|, fileBuffer.sampleRate, fl);
    Ceil(Round(fl, p / EffectiveSpeed(speed)))
  }

  /** The length exact arithmetic would ask for: ceil(frames / speed). */
  function ExactLength(frames: nat, v: real): int
    requires v != 0.0
  {
    Ceil(frames as real / v)
  }

  /** The fallback never leaves a zero divisor: the effective speed is the parsed value unless that is NaN or 0. */
  lemma EffectiveSpeedFallback(speed: ParsedNumber)
    ensures EffectiveSpeed(speed) != 0.0
    ensures speed.NaN? || speed.value == 0.0 <==> EffectiveSpeed(speed) == 1.0 && speed != Finite(1.0)
    ensures speed.Finite? && speed.value != 0.0 ==> EffectiveSpeed(speed) == speed.value
  {
  }

  /**
    In exact arithmetic the length for a positive speed v is the least count
    n with n * v >= frames: the rendered audio is never cut short and
    overshoots by less than one output frame.
   */
  lemma ExactLengthIsCeil(frames: nat, v: real)
    requires 0.0 < v
    ensures var n := ExactLength(frames, v);
      0 <= n && (n - 1) as real * v < frames as real <= n as real * v
  {
    var a := frames as real;
    var x := a / v;
    var n := Ceil(x);
    DivTimes(a, v);
    assert x * v == a;
    ScaleLess((n - 1) as real, x, v);
    assert (n - 1) as real * v < a;
    ScaleAtMost(x, n as real, v);
    assert a <= n as real * v;
    DivNonNegative(a, v);
  }

  /**
    `duration * sampleRate` is non-negative and lies within 3 * 2^-53 * frames
    of the frame count: two roundings, each of relative error at most 2^-53.
   */
  lemma DurationFramesClose(frames: nat, sampleRate: int, fl: Rounding)
    requires sampleRate > 0 && RoundsToNearest(fl)
    ensures var p := DurationFrames(frames, sampleRate, fl);
      0.0 <= p && Abs(p - frames as real) <= 3.0 * Err(frames as real)
  {
    DurationFramesUnfold(frames, sampleRate, fl);
    FirstRoundingClose(frames as real, sampleRate as real, fl);
    SecondRoundingClose(frames as real, Round(fl, frames as real / sampleRate as real) * sampleRate as real, fl);
  }

  lemma DurationFramesUnfold(frames: nat, sampleRate: int, fl: Rounding)
    requires sampleRate > 0
    ensures DurationFrames(frames, sampleRate, fl)
            == Round(fl, Round(fl, frames as real / sampleRate as real) * sampleRate as real)
  {
  }

  /** Rounding frames / sr and multiplying back by sr is off by at most Err(frames). */
  lemma FirstRoundingClose(f: real, sr: real, fl: Rounding)
    requires 0.0 <= f && 0.0 < sr && RoundsToNearest(fl)
    ensures Abs(Round(fl, f / sr) * sr - f) <= Err(f)
  {
    RoundingBound(fl, f / sr);
    ScaledRounding(f, sr, Round(fl, f / sr));
  }

  /** A value within Err(f) of f, rounded once more, stays within 3 * Err(f). */
  lemma SecondRoundingClose(f: real, m: real, fl: Rounding)
    requires 0.0 <= f && Abs(m - f) <= Err(f) && RoundsToNearest(fl)
    ensures 0.0 <= Round(fl, m) && Abs(Round(fl, m) - f) <= 3.0 * Err(f)
  {
    RoundingBound(fl, m);
    SecondRounding(f, m, Round(fl, m));
  }

  /** One rounding, as RoundsToNearest bounds it. */
  lemma RoundingBound(fl: Rounding, x: real)
    requires RoundsToNearest(fl)
    ensures Abs(Round(fl, x) - x) <= Err(Abs(x))
  {
    assert Bounded(fl, x);
  }

  /** The arithmetic behind FirstRoundingClose. */
  lemma ScaledRounding(frames: real, sr: real, d: real)
    requires 0.0 <= frames && 0.0 < sr
    requires Abs(d - frames / sr) <= Err(Abs(frames / sr))
    ensures Abs(d * sr - frames) <= Err(frames)
  {
    var a := frames / sr;
    DivTimes(frames, sr);
    DivNonNegative(frames, sr);
    MulSub(d, a, sr);
    AbsScale(d - a, sr);
    ScaleAtMost(Abs(d - a), Err(a), sr);
    ErrScale(a, sr);
  }

  /** The arithmetic behind SecondRoundingClose. */
  lemma SecondRounding(frames: real, m: real, p: real)
    requires 0.0 <= frames && Abs(m - frames) <= Err(frames)
    requires Abs(p - m) <= Err(Abs(m))
    ensures 0.0 <= p && Abs(p - frames) <= 3.0 * Err(frames)
  {
  }

  /**
    The requested length is ceil(frames / speed), give or take one frame,
    for a positive speed and fewer than 2^50 output frames: the three
    roundings move the quotient by less than one.
   */
  lemma ExportLengthNearCeil(fileBuffer: AudioBuffer, speed: ParsedNumber, fl: Rounding)
    requires fileBuffer.Valid() && RoundsToNearest(fl)
    requires EffectiveSpeed(speed) > 0.0
    requires |fileBuffer.channels[0]| as real / EffectiveSpeed(speed) < 1125899906842624.0
    ensures var n := ExportLength(fileBuffer, speed, fl);
      var exact := ExactLength(|fileBuffer.channels[0]|, EffectiveSpeed(speed));
      exact - 1 <= n <= exact + 1
  {
    var frames := |fileBuffer.channels[0]|;
    var v := EffectiveSpeed(speed);
    var p := DurationFrames(frames, fileBuffer.sampleRate, fl);
    DurationFramesClose(frames, fileBuffer.sampleRate, fl);
    QuotientClose(p, frames as real, v, fl);
    CeilWithinOne(Round(fl, p / v), frames as real / v);
  }

  /**
    A speed that parses to NaN or 0 falls back to 1: the export asks for the
    frame count or, when `duration * sampleRate` rounds up past it, one frame
    more (fewer than 2^50 frames).
   */
  lemma ExportLengthFallback(fileBuffer: AudioBuffer, speed: ParsedNumber, fl: Rounding)
    requires fileBuffer.Valid() && RoundsToNearest(fl)
    requires speed.NaN? || speed == Finite(0.0)
    requires |fileBuffer.channels[0]| < 1125899906842624
    ensures var n := ExportLength(fileBuffer, speed, fl);
      var frames := |fileBuffer.channels[0]|;
      n == frames || n == frames + 1
  {
    var frames := |fileBuffer.channels[0]|;
    var p := DurationFrames(frames, fileBuffer.sampleRate, fl);
    DurationFramesClose(frames, fileBuffer.sampleRate, fl);
    QuotientClose(p, frames as real, 1.0, fl);
    assert frames as real / 1.0 == frames as real;
  }

  /**
    The fallback can indeed ask for one frame more: a rounding of
    13 / 44100 upwards by a relative 2^-53 makes `duration * sampleRate`
    exceed 13, and 13 frames at 44100 Hz request 14.
   */
  lemma ExportLengthCanOvershoot()
    ensures RoundsToNearest(UpAt1344100)
    ensures ExportLength(AudioBuffer(44100, [seq(13, _ => 0.0)]), NaN, UpAt1344100) == 14
  {
    var a := 13.0 / 44100.0;
    assert Round(UpAt1344100, a) == a + Err(a);
    assert (a + Err(a)) * 44100.0 == 13.0 + Err(13.0);
    assert DurationFrames(13, 44100, UpAt1344100) == 13.0 + Err(13.0);
  }

  /** A rounding that keeps every value except 13 / 44100, which it rounds up by a relative 2^-53. */
  function UpAt1344100(x: real): real
  {
    if x == 13.0 / 44100.0 then x + Err(x) else x
  }

  /**
    |p - frames| <= 3 * 2^-53 * frames and one more rounding of p / v leave
    the quotient within one of frames / v, for frames / v < 2^50.
   */
  lemma QuotientClose(p: real, frames: real, v: real, fl: Rounding)
    requires RoundsToNearest(fl)
    requires 0.0 <= frames && 0.0 < v && frames / v < 1125899906842624.0
    requires 0.0 <= p && Abs(p - frames) <= 3.0 * Err(frames)
    ensures frames / v - 1.0 < Round(fl, p / v) < frames / v + 1.0
  {
    QuotientNear(p, frames, v);
    ThirdRoundingClose(frames / v, p / v, fl);
  }

  /** Dividing by v > 0 keeps the relative error: |p / v - frames / v| <= 3 * Err(frames / v). */
  lemma QuotientNear(p: real, frames: real, v: real)
    requires 0.0 <= frames && 0.0 < v
    requires 0.0 <= p && Abs(p - frames) <= 3.0 * Err(frames)
    ensures 0.0 <= frames / v && 0.0 <= p / v && Abs(p / v - frames / v) <= 3.0 * Err(frames / v)
  {
    var x, y := frames / v, p / v;
    DivTimes(frames, v);
    DivTimes(p, v);
    DivNonNegative(frames, v);
    DivNonNegative(p, v);
    MulSub(y, x, v);
    AbsScale(y - x, v);
    ErrScale(x, v);
    assert (3.0 * Err(x)) * v == 3.0 * (Err(x) * v);
    assert (y - x) * v == p - frames;
    assert Abs(y - x) * v == Abs(p - frames);
    assert Err(x) * v == Err(frames);
    assert Abs(y - x) * v <= (3.0 * Err(x)) * v;
    CancelScale(Abs(y - x), 3.0 * Err(x), v);
  }

  /** A quotient within 3 * Err(x) of x < 2^50, rounded once more, stays within one of x. */
  lemma ThirdRoundingClose(x: real, y: real, fl: Rounding)
    requires 0.0 <= x < 1125899906842624.0 && 0.0 <= y && Abs(y - x) <= 3.0 * Err(x)
    requires RoundsToNearest(fl)
    ensures x - 1.0 < Round(fl, y) < x + 1.0
  {
    RoundingBound(fl, y);
  }

  /** A value within one of x has a ceiling within one of x's. */
  lemma CeilWithinOne(q: real, x: real)
    requires x - 1.0 < q < x + 1.0
    ensures Ceil(x) - 1 <= Ceil(q) <= Ceil(x) + 1
  {
  }

  lemma DivTimes(a: real, b: real)
    requires b != 0.0
    ensures a / b * b == a
  {
  }

  lemma DivNonNegative(a: real, b: real)
    requires 0.0 <= a && 0.0 < b
    ensures 0.0 <= a / b
  {
  }

  lemma ScaleLess(a: real, b: real, v: real)
    requires a < b && v > 0.0
    ensures a * v < b * v
  {
  }

  lemma ScaleAtMost(a: real, b: real, v: real)
    requires a <= b && v >= 0.0
    ensures a * v <= b * v
  {
  }

  lemma CancelScale(a: real, b: real, v: real)
    requires v > 0.0 && a * v <= b * v
    ensures a <= b
  {
    if a > b {
      ScaleLess(b, a, v);
    }
  }

  lemma MulSub(a: real, b: real, v: real)
    ensures a * v - b * v == (a - b) * v
  {
  }

  lemma ErrScale(a: real, v: real)
    ensures Err(a) * v == Err(a * v)
  {
  }

  lemma AbsScale(a: real, v: real)
    requires v >= 0.0
    ensures Abs(a * v) == Abs(a) * v
  {
  }

  /**
    One second of mono audio at 44100 Hz exported at speed 2 is rendered to
    22050 frames, every rounding on the way being exact, and its 16-bit WAV
    file is 44 + 22050 * 2 octets long. The offline context takes the file's
    channel count and sample rate.
   */
  lemma ExportScenario(fileBuffer: AudioBuffer, rendered: AudioBuffer, fl: Rounding, layout: Float32Layout)
    requires RoundsToNearest(fl)
    requires fileBuffer.Valid() && fileBuffer.sampleRate == 44100 && |fileBuffer.channels[0]| == 44100
    requires fileBuffer.NumberOfChannels() == 1
    requires rendered.Valid() && rendered.NumberOfChannels() == fileBuffer.NumberOfChannels()
    requires rendered.sampleRate == fileBuffer.sampleRate
    requires |rendered.channels[0]| == ExportLength(fileBuffer, Finite(2.0), fl)
    ensures |rendered.channels[0]| == 22050
    ensures |AudioBufferWav(rendered, false, layout)| == 44 + 22050 * 2
  {
    assert 44100.0 / 44100.0 == Real(1);
    assert 1.0 * 44100.0 == Real(44100);
    assert DurationFrames(44100, 44100, fl) == 44100.0;
    assert 44100.0 / 2.0 == Real(22050);
    EncodedSamplesSelection(rendered);
    FormatSelection(false);
    WavLength(EncodedSamples(rendered), FormatPcm, rendered.sampleRate, 1, 16, layout);
  }
}
