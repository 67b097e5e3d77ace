/** The waveform synthesiser (main.py, triangle_wave, generate_wave and
    generate_chord_wave), as exact real arithmetic over a given time axis.
    numpy's element-wise operations become sequence comprehensions. */
module Waves {

  function Abs(x: real): (r: real)
  {
    if x < 0.0 then -x else x
  }

  /** One sample of the phase-folding triangle generator,
      2 * |2 * (p - floor(p + 0.5))| - 1 for the phase p = t * f. */
  function TriangleSample(phase: real): (r: real)
    ensures -1.0 <= r <= 1.0
  {
    2.0 * Abs(2.0 * (phase - (phase + 0.5).Floor as real)) - 1.0
  }

  /** The distance from `p` to the nearest integer. */
  function DistanceToInteger(p: real): (d: real)
    ensures 0.0 <= d <= 0.5
  {
    var fraction := p - p.Floor as real;
    if fraction <= 0.5 then fraction else 1.0 - fraction
  }

  /** An independent description of the generator: the sample rises linearly
      from -1 at integer phases to 1 at half-integer phases. */
  lemma TriangleSampleIsDistance(phase: real)
    ensures TriangleSample(phase) == 4.0 * DistanceToInteger(phase) - 1.0
  {
    var k := phase.Floor;
    var fraction := phase - k as real;
    if fraction < 0.5 {
      assert (phase + 0.5).Floor == k;
    } else {
      assert (phase + 0.5).Floor == k + 1;
    }
  }

  /** Shifting the phase by a whole number of periods leaves the sample unchanged. */
  lemma TriangleSampleShift(phase: real, n: int)
    ensures TriangleSample(phase + n as real) == TriangleSample(phase)
  {
    assert (phase + n as real + 0.5).Floor == (phase + 0.5).Floor + n;
  }

  /** The generator starts at -1 and peaks at 1 half a period later. */
  lemma TriangleSampleExtremes()
    ensures TriangleSample(0.0) == -1.0
    ensures TriangleSample(0.5) == 1.0
  {
    assert (0.5).Floor == 0;
    assert (1.0).Floor == 1;
  }

  /** The sample of a wave of `frequency` Hz at `time` seconds: phase = t * f. */
  function SampleAt(frequency: real, time: real): (r: real)
    ensures -1.0 <= r <= 1.0
  {
    TriangleSample(time * frequency)
  }

  /** triangle_wave: the generator applied to every time value of `t`. */
  function TriangleWave(frequency: real, t: seq<real>): (w: seq<real>)
    ensures |w| == |t|
    ensures forall i :: 0 <= i < |w| ==> -1.0 <= w[i] <= 1.0
  {
    seq(|t|, i requires 0 <= i < |t| => SampleAt(frequency, t[i]))
  }

  /** triangle_wave at time 0 gives exactly -1, whatever the frequency. */
  lemma TriangleWaveStartsAtMinusOne(frequency: real, t: seq<real>)
    requires |t| > 0 && t[0] == 0.0
    ensures TriangleWave(frequency, t)[0] == -1.0
  {
    TriangleSampleExtremes();
  }

  /** triangle_wave has period 1 / frequency: moving every time value by
      n / frequency leaves the wave unchanged. */
  lemma TriangleWavePeriodic(frequency: real, t: seq<real>, shifted: seq<real>, n: int)
    requires frequency != 0.0
    requires |shifted| == |t|
    requires forall i :: 0 <= i < |t| ==> shifted[i] == t[i] + n as real / frequency
    ensures TriangleWave(frequency, shifted) == TriangleWave(frequency, t)
  {
    forall i | 0 <= i < |t|
      ensures TriangleWave(frequency, shifted)[i] == TriangleWave(frequency, t)[i]
    {
      var q := n as real / frequency;
      assert q * frequency == n as real;
      assert shifted[i] * frequency == t[i] * frequency + n as real by {
        assert (t[i] + q) * frequency == t[i] * frequency + q * frequency;
      }
      TriangleSampleShift(t[i] * frequency, n);
      assert SampleAt(frequency, shifted[i]) == SampleAt(frequency, t[i]);
    }
  }

  /** np.zeros_like(t). */
  function Zeros(n: nat): (z: seq<real>)
    ensures |z| == n
    ensures forall i :: 0 <= i < n ==> z[i] == 0.0
  {
    seq(n, _ => 0.0)
  }

  /** Element-wise sum of two waves of equal length. */
  function Add(a: seq<real>, b: seq<real>): (s: seq<real>)
    requires |a| == |b|
    ensures |s| == |a|
  {
    seq(|a|, i requires 0 <= i < |a| => a[i] + b[i])
  }

  /** Element-wise division of a wave by a non-zero number. */
  function Divide(s: seq<real>, m: real): (d: seq<real>)
    requires m != 0.0
    ensures |d| == |s|
  {
    seq(|s|, i requires 0 <= i < |s| => s[i] / m)
  }

  /** The unnormalised chord: zeros plus one triangle wave per frequency, in
      list order. Each sample is bounded by the number of waves summed. */
  function SumWaves(frequencies: seq<real>, t: seq<real>): (s: seq<real>)
    ensures |s| == |t|
    ensures forall i :: 0 <= i < |s| ==> Abs(s[i]) <= |frequencies| as real
  {
    if frequencies == [] then Zeros(|t|)
    else
      var prefix := frequencies[..|frequencies| - 1];
      Add(SumWaves(prefix, t), TriangleWave(frequencies[|frequencies| - 1], t))
  }

  /** np.max(np.abs(s)); numpy refuses an empty array, hence the precondition. */
  function MaxAbs(s: seq<real>): (m: real)
    requires |s| > 0
    ensures forall i :: 0 <= i < |s| ==> Abs(s[i]) <= m
    ensures exists i :: 0 <= i < |s| && Abs(s[i]) == m
  {
    if |s| == 1 then Abs(s[0])
    else
      var rest := MaxAbs(s[1..]);
      assert forall i :: 1 <= i < |s| ==> s[i] == s[1..][i - 1];
      if Abs(s[0]) > rest then Abs(s[0]) else rest
  }

  /** The peak of a wave is 0 exactly when every sample is 0. */
  lemma MaxAbsZero(s: seq<real>)
    requires |s| > 0
    ensures MaxAbs(s) == 0.0 <==> forall i :: 0 <= i < |s| ==> s[i] == 0.0
  {
    if MaxAbs(s) == 0.0 {
      forall i | 0 <= i < |s| ensures s[i] == 0.0 {
        assert Abs(s[i]) <= 0.0;
      }
    }
  }

  /** generate_chord_wave: no frequencies give silence; otherwise the sum is
      divided by its peak, unless the sum is silent. */
  function ChordSpec(frequencies: seq<real>, t: seq<real>): (w: seq<real>)
    requires frequencies != [] ==> t != []
    ensures |w| == |t|
  {
    if frequencies == [] then Zeros(|t|)
    else
      var sum := SumWaves(frequencies, t);
      var peak := MaxAbs(sum);
      if peak > 0.0 then Divide(sum, peak) else sum
  }

  /** With no frequencies the chord is all zeros, of the time axis' length. */
  lemma ChordOfNothingIsSilent(t: seq<real>)
    ensures ChordSpec([], t) == Zeros(|t|)
  {
  }

  /** Every chord sample lies in [-1, 1]. */
  lemma ChordBounded(frequencies: seq<real>, t: seq<real>)
    requires frequencies != [] ==> t != []
    ensures forall i :: 0 <= i < |t| ==> -1.0 <= ChordSpec(frequencies, t)[i] <= 1.0
  {
    if frequencies != [] {
      var sum := SumWaves(frequencies, t);
      var peak := MaxAbs(sum);
      if peak > 0.0 {
        forall i | 0 <= i < |t| ensures -1.0 <= ChordSpec(frequencies, t)[i] <= 1.0 {
          DivideBounded(sum[i], peak);
        }
      } else {
        MaxAbsZero(sum);
      }
    }
  }

  /** A value no larger in magnitude than a positive peak, divided by it, lies in [-1, 1]. */
  lemma DivideBounded(x: real, peak: real)
    requires peak > 0.0 && Abs(x) <= peak
    ensures -1.0 <= x / peak <= 1.0
  {
    if x < 0.0 {
      assert -x <= peak;
      assert -x / peak <= 1.0;
    } else {
      assert x / peak <= 1.0;
    }
  }

  /** A value whose magnitude is the peak, divided by it, has magnitude exactly 1. */
  lemma DivideByPeak(x: real, peak: real)
    requires peak > 0.0 && Abs(x) == peak
    ensures Abs(x / peak) == 1.0
  {
    assert peak / peak == 1.0;
    if x < 0.0 {
      assert x / peak == -(peak / peak) == -1.0;
    } else {
      assert x / peak == peak / peak;
    }
  }

  /** If the summed wave is non-zero somewhere, the chord's peak is exactly 1. */
  lemma ChordPeakIsOne(frequencies: seq<real>, t: seq<real>)
    requires frequencies != [] && t != []
    requires exists i :: 0 <= i < |t| && SumWaves(frequencies, t)[i] != 0.0
    ensures MaxAbs(ChordSpec(frequencies, t)) == 1.0
  {
    var sum := SumWaves(frequencies, t);
    MaxAbsZero(sum);
    NormalisedPeak(sum, MaxAbs(sum));
  }

  /** Dividing a wave by its (positive) peak gives a wave of peak 1. */
  lemma NormalisedPeak(s: seq<real>, peak: real)
    requires |s| > 0 && peak == MaxAbs(s) && peak > 0.0
    ensures MaxAbs(Divide(s, peak)) == 1.0
  {
    var w := Divide(s, peak);
    var k :| 0 <= k < |s| && Abs(s[k]) == peak;
    assert w[k] == s[k] / peak;
    DivideByPeak(s[k], peak);
    forall i | 0 <= i < |w| ensures Abs(w[i]) <= 1.0 {
      assert w[i] == s[i] / peak;
      DivideBounded(s[i], peak);
    }
    var m := MaxAbs(w);
    assert m >= 1.0;
    var j :| 0 <= j < |w| && Abs(w[j]) == m;
  }

  /** If the summed wave is identically zero, it is returned unscaled. */
  lemma SilentChordUnscaled(frequencies: seq<real>, t: seq<real>)
    requires frequencies != [] && t != []
    requires forall i :: 0 <= i < |t| ==> SumWaves(frequencies, t)[i] == 0.0
    ensures ChordSpec(frequencies, t) == SumWaves(frequencies, t)
  {
    MaxAbsZero(SumWaves(frequencies, t));
  }

  /** A single note whose wave reaches the full amplitude somewhere on the
      time axis is left as it is by normalisation. */
  lemma SingleNoteChord(frequency: real, t: seq<real>)
    requires exists i :: 0 <= i < |t| && Abs(TriangleWave(frequency, t)[i]) == 1.0
    ensures ChordSpec([frequency], t) == TriangleWave(frequency, t)
  {
    var w := TriangleWave(frequency, t);
    var sum := SumWaves([frequency], t);
    assert [frequency][..0] == [];
    assert sum == w;
    var peak := MaxAbs(sum);
    assert peak == 1.0;
    assert Divide(sum, 1.0) == sum;
  }

  /** On a time axis that starts at 0, as the program's does, every summed
      triangle wave contributes -1 to the first sample. */
  lemma {:induction false} SumAtTimeZero(frequencies: seq<real>, t: seq<real>)
    requires |t| > 0 && t[0] == 0.0
    ensures SumWaves(frequencies, t)[0] == -(|frequencies| as real)
  {
    if frequencies != [] {
      var prefix := frequencies[..|frequencies| - 1];
      SumAtTimeZero(prefix, t);
      TriangleWaveStartsAtMinusOne(frequencies[|frequencies| - 1], t);
    }
  }

  /** On such an axis every non-empty chord is normalised to peak exactly 1,
      and a single note is its own triangle wave. */
  lemma ChordFromTimeZero(frequencies: seq<real>, t: seq<real>)
    requires frequencies != [] && |t| > 0 && t[0] == 0.0
    ensures MaxAbs(ChordSpec(frequencies, t)) == 1.0
    ensures |frequencies| == 1 ==> ChordSpec(frequencies, t) == TriangleWave(frequencies[0], t)
  {
    SumAtTimeZero(frequencies, t);
    ChordPeakIsOne(frequencies, t);
    if |frequencies| == 1 {
      TriangleWaveStartsAtMinusOne(frequencies[0], t);
      assert frequencies == [frequencies[0]];
      SingleNoteChord(frequencies[0], t);
    }
  }

  /** generate_chord_wave, accumulating `wave += triangle_wave(freq, t)` in a
      loop as the program does. */
  method ChordWave(frequencies: seq<real>, t: seq<real>) returns (wave: seq<real>)
    requires frequencies != [] ==> t != []
    ensures wave == ChordSpec(frequencies, t)
  {
    if frequencies == [] {
      return Zeros(|t|);
    }
    wave := Zeros(|t|);
    for k := 0 to |frequencies|
      invariant wave == SumWaves(frequencies[..k], t)
    {
      assert frequencies[..k + 1][..k] == frequencies[..k];
      wave := Add(wave, TriangleWave(frequencies[k], t));
    }
    assert frequencies[..|frequencies|] == frequencies;
    var peak := MaxAbs(wave);
    if peak > 0.0 {
      wave := Divide(wave, peak);
    }
  }
}
