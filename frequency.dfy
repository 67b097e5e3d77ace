/** The frequency model of the piano: a table of octave-0 frequencies scaled
    by a power of two for the octave (main.py, get_frequency and
    get_note_frequency). Frequencies are exact reals. */
module Frequencies {

  /** Semitones in one octave. */
  const SemitonesPerOctave: nat := 12

  /** The octave-0 frequencies in Hz of C0, C#0, ..., B0, as the program's table gives them. */
  const BaseFrequencies: seq<real> :=
    [16.35, 17.32, 18.35, 19.45, 20.60, 21.83, 23.12, 24.50, 25.96, 27.50, 29.14, 30.87]

  /** Python's `2 ** n` for a non-negative integer `n`, as a real. */
  function Pow2(n: nat): (r: real)
    ensures r >= 1.0
  {
    if n == 0 then 1.0 else 2.0 * Pow2(n - 1)
  }

  /** `x * 2 ** n`, written as `x` doubled `n` times. */
  function Scale2(x: real, n: nat): (r: real)
  {
    if n == 0 then x else 2.0 * Scale2(x, n - 1)
  }

  /** Doubling `n` times is multiplying by 2 ** n. */
  lemma {:induction false} Scale2IsProduct(x: real, n: nat)
    ensures Scale2(x, n) == x * Pow2(n)
  {
    if n > 0 {
      Scale2IsProduct(x, n - 1);
      assert x * (2.0 * Pow2(n - 1)) == 2.0 * (x * Pow2(n - 1));
    }
  }

  /** Scaling by 2 ** a and then by 2 ** b is scaling by 2 ** (a + b). */
  lemma {:induction false} Scale2Add(x: real, a: nat, b: nat)
    ensures Scale2(Scale2(x, a), b) == Scale2(x, a + b)
  {
    if b > 0 {
      Scale2Add(x, a, b - 1);
    }
  }

  /** Scaling preserves strict order. */
  lemma {:induction false} Scale2StrictlyMonotone(x: real, y: real, n: nat)
    requires x < y
    ensures Scale2(x, n) < Scale2(y, n)
  {
    if n > 0 {
      Scale2StrictlyMonotone(x, y, n - 1);
    }
  }

  /** A positive value only grows with the exponent. */
  lemma {:induction false} Scale2Grows(x: real, a: nat, b: nat)
    requires x > 0.0 && a <= b
    ensures 0.0 < Scale2(x, a) <= Scale2(x, b)
  {
    if a < b {
      Scale2Grows(x, a, b - 1);
    } else if a > 0 {
      Scale2Grows(x, a - 1, a - 1);
    }
  }

  /** The table is strictly increasing, and its largest entry is less than
      twice its smallest, so it spans less than one octave. */
  lemma BaseFrequenciesSpanOneOctave()
    ensures |BaseFrequencies| == SemitonesPerOctave
    ensures forall i, j :: 0 <= i < j < |BaseFrequencies| ==> BaseFrequencies[i] < BaseFrequencies[j]
    ensures forall i, j :: 0 <= i < |BaseFrequencies| && 0 <= j < |BaseFrequencies| ==>
              BaseFrequencies[i] < 2.0 * BaseFrequencies[j]
    ensures forall i :: 0 <= i < |BaseFrequencies| ==> BaseFrequencies[i] > 0.0
  {
  }

  /** get_frequency: the note `noteIndex` of the octave `octave`, its table
      entry times 2 ** octave. */
  function GetFrequency(noteIndex: nat, octave: nat): (r: real)
    requires noteIndex < |BaseFrequencies|
  {
    Scale2(BaseFrequencies[noteIndex], octave)
  }

  /** get_note_frequency: a global key index is split into a semitone class
      `idx % 12` and an extra octave `idx / 12` (Python's `%` and `//` agree
      with Dafny's on non-negative operands), and the class's frequency in
      the current octave is multiplied by 2 ** (idx / 12). */
  function GetNoteFrequency(idx: nat, octave: nat): (r: real)
  {
    Scale2(GetFrequency(idx % SemitonesPerOctave, octave), idx / SemitonesPerOctave)
  }

  /** The frequency of a key is its octave-0 base frequency times
      2 ** (octave + idx / 12): the note idx % 12 of octave octave + idx / 12. */
  lemma NoteFrequencyFormula(idx: nat, octave: nat)
    ensures GetNoteFrequency(idx, octave) == GetFrequency(idx % SemitonesPerOctave, octave + idx / SemitonesPerOctave)
    ensures GetNoteFrequency(idx, octave) == BaseFrequencies[idx % SemitonesPerOctave] * Pow2(octave + idx / SemitonesPerOctave)
  {
    Scale2Add(BaseFrequencies[idx % SemitonesPerOctave], octave, idx / SemitonesPerOctave);
    Scale2IsProduct(BaseFrequencies[idx % SemitonesPerOctave], octave + idx / SemitonesPerOctave);
  }

  /** Every note frequency is positive, and at least its table entry. */
  lemma NoteFrequencyPositive(idx: nat, octave: nat)
    ensures GetNoteFrequency(idx, octave) >= BaseFrequencies[idx % SemitonesPerOctave] > 0.0
  {
    BaseFrequenciesSpanOneOctave();
    NoteFrequencyFormula(idx, octave);
    Scale2Grows(BaseFrequencies[idx % SemitonesPerOctave], 0, octave + idx / SemitonesPerOctave);
  }

  /** The key twelve semitones up sounds at exactly twice the frequency. */
  lemma NextOctaveKeyDoubles(idx: nat, octave: nat)
    ensures GetNoteFrequency(idx + SemitonesPerOctave, octave) == 2.0 * GetNoteFrequency(idx, octave)
  {
    assert (idx + SemitonesPerOctave) % SemitonesPerOctave == idx % SemitonesPerOctave && (idx + SemitonesPerOctave) / SemitonesPerOctave == idx / SemitonesPerOctave + 1;
    NoteFrequencyFormula(idx, octave);
    NoteFrequencyFormula(idx + SemitonesPerOctave, octave);
    assert octave + (idx + SemitonesPerOctave) / SemitonesPerOctave == (octave + idx / SemitonesPerOctave) + 1;
  }

  /** Raising the selected octave by one doubles the frequency of every key. */
  lemma RaiseOctaveDoubles(idx: nat, octave: nat)
    ensures GetNoteFrequency(idx, octave + 1) == 2.0 * GetNoteFrequency(idx, octave)
  {
    NoteFrequencyFormula(idx, octave);
    NoteFrequencyFormula(idx, octave + 1);
    assert octave + 1 + idx / SemitonesPerOctave == (octave + idx / SemitonesPerOctave) + 1;
  }

  /** A key further right on the keyboard always sounds higher. */
  lemma {:induction false} NoteFrequencyIncreasing(i: nat, j: nat, octave: nat)
    requires i < j
    ensures GetNoteFrequency(i, octave) < GetNoteFrequency(j, octave)
  {
    BaseFrequenciesSpanOneOctave();
    NoteFrequencyFormula(i, octave);
    NoteFrequencyFormula(j, octave);
    var bi, bj := BaseFrequencies[i % SemitonesPerOctave], BaseFrequencies[j % SemitonesPerOctave];
    var ni, nj := octave + i / SemitonesPerOctave, octave + j / SemitonesPerOctave;
    if i / SemitonesPerOctave == j / SemitonesPerOctave {
      assert i % SemitonesPerOctave < j % SemitonesPerOctave;
      Scale2StrictlyMonotone(bi, bj, ni);
    } else {
      assert ni + 1 <= nj;
      Scale2StrictlyMonotone(bi, 2.0 * bj, ni);
      Scale2Add(bj, 1, ni);
      Scale2Grows(bj, ni + 1, nj);
    }
  }

  /** The program starts in octave 4, where key 0 (C4) sounds at 16.35 * 16 Hz. */
  lemma MiddleC()
    ensures GetNoteFrequency(0, 4) == 261.6
  {
  }
}
