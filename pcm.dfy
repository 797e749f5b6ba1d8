/**
  The 16-bit PCM conversion of one float sample (app.js, floatTo16BitPCM):
  clamp to [-1, 1] with Math.max/Math.min, scale negative values by 0x8000
  and the others by 0x7FFF, and let DataView's ToInt16 truncate toward zero.
  Samples are real numbers; the rounding of the double products is not modelled.
 */
module Pcm {

  const NegativeScale: real := 32768.0  // 0x8000
  const PositiveScale: real := 32767.0  // 0x7FFF
  const Int16Min: int := -0x8000
  const Int16Max: int := 0x7FFF

  function Min(a: real, b: real): real { if a <= b then a else b }
  function Max(a: real, b: real): real { if a >= b then a else b }

  /** Math.max(-1, Math.min(1, s)). */
  function Clamp(s: real): (c: real)
    ensures -1.0 <= c <= 1.0
    ensures -1.0 <= s <= 1.0 ==> c == s
    ensures s > 1.0 ==> c == 1.0
    ensures s < -1.0 ==> c == -1.0
  {
    Max(-1.0, Min(1.0, s))
  }

  /** ToIntegerOrInfinity on a finite value: drop the fraction, toward zero. */
  function TruncTowardZero(x: real): (n: int)
    ensures x >= 0.0 ==> 0 <= n && n as real <= x < n as real + 1.0
    ensures x < 0.0 ==> n <= 0 && n as real - 1.0 < x <= n as real
  {
    if x >= 0.0 then x.Floor else -((-x).Floor)
  }

  /** The scaled sample handed to setInt16: `s < 0 ? s * 0x8000 : s * 0x7FFF`. */
  function Scaled(s: real): real
  {
    var c := Clamp(s);
    if c < 0.0 then c * NegativeScale else c * PositiveScale
  }

  /** The int16 value stored for one sample. */
  function Pcm16Value(s: real): int
  {
    TruncTowardZero(Scaled(s))
  }

  /** Every stored value lies in the int16 range, so ToInt16 never wraps. */
  lemma Pcm16InRange(s: real)
    ensures Int16Min <= Pcm16Value(s) <= Int16Max
  {
    var c := Clamp(s);
    if c < 0.0 {
      assert -NegativeScale <= c * NegativeScale < 0.0;
    } else {
      assert 0.0 <= c * PositiveScale <= PositiveScale;
    }
  }

  /** Full scale: +1.0 gives 32767 and -1.0 gives -32768. */
  lemma Pcm16FullScale()
    ensures Pcm16Value(1.0) == Int16Max
    ensures Pcm16Value(-1.0) == Int16Min
  {
  }

  /** Out-of-range samples saturate: above +1 as +1 (so +1.5 as +1.0), below -1 as -1. */
  lemma Pcm16Saturates(s: real)
    ensures s >= 1.0 ==> Pcm16Value(s) == Pcm16Value(1.0) == Int16Max
    ensures s <= -1.0 ==> Pcm16Value(s) == Pcm16Value(-1.0) == Int16Min
  {
  }

  /** Samples inside [-1, 1] lose less than one step: the stored value is the scaled sample truncated. */
  lemma Pcm16Error(s: real)
    requires -1.0 <= s <= 1.0
    ensures s >= 0.0 ==> 0 <= Pcm16Value(s) && Pcm16Value(s) as real <= s * PositiveScale < Pcm16Value(s) as real + 1.0
    ensures s < 0.0 ==> Pcm16Value(s) <= 0 && Pcm16Value(s) as real - 1.0 < s * NegativeScale <= Pcm16Value(s) as real
  {
  }

  lemma TruncMonotone(x: real, y: real)
    requires x <= y
    ensures TruncTowardZero(x) <= TruncTowardZero(y)
  {
    if x < 0.0 && y >= 0.0 {
    } else if x >= 0.0 {
      assert x.Floor as real <= x <= y;
    } else {
      assert (-y).Floor as real <= -y <= -x;
    }
  }

  /** The conversion preserves order: a louder sample never stores a smaller value. */
  lemma Pcm16Monotone(s: real, t: real)
    requires s <= t
    ensures Pcm16Value(s) <= Pcm16Value(t)
  {
    var cs, ct := Clamp(s), Clamp(t);
    assert cs <= ct;
    if cs < 0.0 && ct < 0.0 {
      assert cs * NegativeScale <= ct * NegativeScale;
    } else if cs >= 0.0 {
      assert cs * PositiveScale <= ct * PositiveScale;
    }
    TruncMonotone(Scaled(s), Scaled(t));
  }

  /** The stored value keeps the sign of the sample. */
  lemma Pcm16Sign(s: real)
    ensures s >= 0.0 ==> Pcm16Value(s) >= 0
    ensures s < 0.0 ==> Pcm16Value(s) <= 0
  {
  }
}
