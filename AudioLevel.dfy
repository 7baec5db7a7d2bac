/**
 * The audio level meter of the firmware: a frame of 16-bit PCM samples
 * read from the microphone is reduced to a 0..100 loudness figure for the
 * on-screen visualiser, blending the mean and the peak magnitude, rescaling
 * with Arduino `map`, clamping, and smoothing against the previous level.
 */
module AudioLevel {
  import opened Arduino

  /** Size in bytes of the firmware's audio buffer (`DATA_SIZE`). */
  const DATA_SIZE: int := 2048

  const INT32_MIN: int := -0x8000_0000
  const INT32_MAX: int := 0x7FFF_FFFF

  /**
   * Sample `i` of a byte buffer read as `int16_t` on the little-endian
   * ESP32: the two's-complement value whose low byte is `buf[2 * i]`.
   */
  function SampleAt(buf: seq<byte>, i: nat): (v: int)
    requires 2 * i + 1 < |buf|
    ensures -0x8000 <= v < 0x8000
    ensures (v + 0x1_0000) % 0x1_0000 == buf[2 * i] as int + 0x100 * buf[2 * i + 1] as int
  {
    var u := buf[2 * i] as int + 0x100 * buf[2 * i + 1] as int;
    if u >= 0x8000 then u - 0x1_0000 else u
  }

  /** The whole samples of a buffer; a trailing odd byte is not a sample. */
  function Samples(buf: seq<byte>): (s: seq<int>)
    ensures |s| == |buf| / 2
    ensures forall i :: 0 <= i < |s| ==> s[i] == SampleAt(buf, i)
  {
    seq(|buf| / 2, i requires 0 <= i < |buf| / 2 => SampleAt(buf, i))
  }

  /** Sum of the magnitudes of the samples. */
  function SumAbs(s: seq<int>): (r: int)
    ensures r >= 0
  {
    if s == [] then 0 else SumAbs(s[..|s| - 1]) + Abs(s[|s| - 1])
  }

  /**
   * The largest magnitude among the samples, starting from 0 as the
   * firmware's running maximum does.
   */
  function PeakAbs(s: seq<int>): (r: int)
    ensures r >= 0
    ensures forall i :: 0 <= i < |s| ==> Abs(s[i]) <= r
    ensures r == 0 || exists i :: 0 <= i < |s| && Abs(s[i]) == r
  {
    if s == [] then 0
    else
      var p, a := PeakAbs(s[..|s| - 1]), Abs(s[|s| - 1]);
      if a > p then a else p
  }

  /** The total magnitude is at most the peak magnitude times the count. */
  lemma {:induction false} SumAtMostCountTimesPeak(s: seq<int>)
    ensures SumAbs(s) <= |s| * PeakAbs(s)
  {
    if s != [] {
      var init := s[..|s| - 1];
      var n, p0, p := |init|, PeakAbs(init), PeakAbs(s);
      SumAtMostCountTimesPeak(init);
      BoundStep(SumAbs(init), Abs(s[|s| - 1]), n, p0, p);
    }
  }

  lemma BoundStep(sum: int, a: int, n: nat, p0: int, p: int)
    requires sum <= n * p0 && p0 <= p && a <= p
    ensures sum + a <= (n + 1) * p
  {
  }

  /** The mean magnitude (C division) never exceeds the peak magnitude. */
  lemma AverageAtMostPeak(s: seq<int>)
    requires |s| > 0
    ensures 0 <= TruncDiv(SumAbs(s), |s|) <= PeakAbs(s)
  {
    SumAtMostCountTimesPeak(s);
    TruncDivAtMost(SumAbs(s), |s|, PeakAbs(s));
  }

  /** `(avg * 3 + maxSample) / 4`: a 3:1 blend that lies between its inputs. */
  function Blend(avg: int, peak: int): (c: int)
    ensures avg <= peak ==> avg <= c <= peak
  {
    TruncDiv(avg * 3 + peak, 4)
  }

  /**
   * The blended value of `map(combined, 100, 2000, 0, 100)` clamped to
   * `[0, 100]`: silent below 100, saturated from 2000.
   */
  function RawLevel(combined: int): (r: int)
    ensures 0 <= r <= 100
    ensures combined <= 100 ==> r == 0
    ensures combined >= 2000 ==> r == 100
  {
    Constrain(ArduinoMap(combined, 100, 2000, 0, 100), 0, 100)
  }

  /** A louder blend never gives a lower raw level. */
  lemma RawLevelMonotone(a: int, b: int)
    requires a <= b
    ensures RawLevel(a) <= RawLevel(b)
  {
  }

  /**
   * `(level * 7 + lastLevel * 3) / 10`: a weighted mean, so it lies between
   * the new and the previous level and keeps a steady level unchanged.
   */
  function Smooth(level: int, last: int): (r: int)
    ensures Min(level, last) <= r <= Max(level, last)
    ensures level == last ==> r == level
  {
    TruncDiv(level * 7 + last * 3, 10)
  }

  /** The level `calculateAudioLevel` publishes for `buf` after `last`. */
  function Level(buf: seq<byte>, last: int): (r: int)
    requires |buf| >= 2
    ensures 0 <= last <= 100 ==> 0 <= r <= 100
  {
    var s := Samples(buf);
    Smooth(RawLevel(Blend(TruncDiv(SumAbs(s), |s|), PeakAbs(s))), last)
  }

  /** The blend of a frame lies between its mean and its peak magnitude. */
  lemma CombinedBetweenAverageAndPeak(buf: seq<byte>)
    requires |buf| >= 2
    ensures var s := Samples(buf);
            var avg := TruncDiv(SumAbs(s), |s|);
            0 <= avg <= Blend(avg, PeakAbs(s)) <= PeakAbs(s)
  {
    AverageAtMostPeak(Samples(buf));
  }

  /**
   * For any frame that fits the firmware's buffer, every intermediate value
   * of the computation fits a 32-bit `int`/`long`, so the unbounded
   * integers of this model compute what the C code computes.
   */
  lemma FrameArithmeticFitsInt32(buf: seq<byte>, last: int)
    requires 2 <= |buf| <= DATA_SIZE
    requires 0 <= last <= 100
    ensures var s := Samples(buf);
            var avg := TruncDiv(SumAbs(s), |s|);
            var combined := Blend(avg, PeakAbs(s));
            && SumAbs(s) <= INT32_MAX
            && 0 <= avg * 3 + PeakAbs(s) <= INT32_MAX
            && INT32_MIN <= (combined - 100) * 100 <= INT32_MAX
            && 0 <= RawLevel(combined) * 7 + last * 3 <= INT32_MAX
  {
    var s := Samples(buf);
    assert PeakAbs(s) <= 0x8000 by {
      if PeakAbs(s) != 0 {
        var i :| 0 <= i < |s| && Abs(s[i]) == PeakAbs(s);
        assert s[i] == SampleAt(buf, i);
      }
    }
    SumAtMostCountTimesPeak(s);
    MulLeMono(|s|, 1024, PeakAbs(s));
    AverageAtMostPeak(s);
  }

  /**
   * The sample loop of `calculateAudioLevel`: the running `sum` of the
   * magnitudes and their running maximum `maxSample`.
   */
  method ScanFrame(buf: seq<byte>) returns (sum: int, maxSample: int)
    ensures sum == SumAbs(Samples(buf))
    ensures maxSample == PeakAbs(Samples(buf))
  {
    var sampleCount := |buf| / 2;
    ghost var s := Samples(buf);
    sum, maxSample := 0, 0;
    for i := 0 to sampleCount
      invariant sum == SumAbs(s[..i])
      invariant maxSample == PeakAbs(s[..i])
    {
      var sample := Abs(SampleAt(buf, i));
      assert s[..i + 1][..i] == s[..i];
      sum := sum + sample;
      if sample > maxSample {
        maxSample := sample;
      }
    }
    assert s[..sampleCount] == s;
  }

  /**
   * The meter's persistent state: `audioLevel`, read by the display, and
   * the function-local `static int lastLevel` used for smoothing.
   */
  class AudioMeter {
    var audioLevel: int
    var lastLevel: int

    ghost predicate Valid()
      reads this
    {
      0 <= lastLevel <= 100 && 0 <= audioLevel <= 100
    }

    constructor ()
      ensures Valid() && audioLevel == 0 && lastLevel == 0
    {
      audioLevel, lastLevel := 0, 0;
    }

    /** `calculateAudioLevel(buffer, length)` on the bytes `buf`. */
    method Calculate(buf: seq<byte>)
      requires Valid()
      requires |buf| >= 2
      modifies this
      ensures Valid()
      ensures audioLevel == Level(buf, old(lastLevel))
      ensures lastLevel == audioLevel
    {
      var sampleCount := |buf| / 2;
      var sum, maxSample := ScanFrame(buf);
      var avg := TruncDiv(sum, sampleCount);
      var combined := Blend(avg, maxSample);       // (avg * 3 + maxSample) / 4
      audioLevel := RawLevel(combined);             // map, then constrain
      audioLevel := Smooth(audioLevel, lastLevel);  // (audioLevel * 7 + lastLevel * 3) / 10
      lastLevel := audioLevel;
    }
  }
}
