/** The two-octave keyboard (main.py, setup_piano, update_piano_labels and
    the colour bookkeeping of hold_note_right_click and release_note): which
    global note index each key plays, the label it shows, and its colours.
    A Tk button is modelled by its position among the white or black keys. */
module Keyboard {

  import opened Frequencies

  /** Names of the twelve semitone classes, from C. */
  const NoteNames: seq<string> := ["C", "C#", "D", "D#", "E", "F", "F#", "G", "G#", "A", "A#", "B"]

  /** The semitone classes of the white keys of one octave. */
  const WhiteClasses: seq<nat> := [0, 2, 4, 5, 7, 9, 11]

  /** The semitone classes of the black keys of one octave. */
  const BlackClasses: seq<nat> := [1, 3, 6, 8, 10]

  /** `[0, 2, 4, 5, 7, 9, 11] * 2`: the class of each of the 14 white keys. */
  const WhitePattern: seq<nat> := WhiteClasses + WhiteClasses

  /** `[1, 3, 6, 8, 10] * 2`: the class of each of the 10 black keys. */
  const BlackPattern: seq<nat> := BlackClasses + BlackClasses

  /** Number of keys, white and black, over the two octaves. */
  const KeyCount: nat := 24

  /** A key of the layout: the i-th white key, or the j-th black key, from the left. */
  datatype KeyId = WhiteKey(position: nat) | BlackKey(position: nat)

  predicate IsKey(k: KeyId)
  {
    match k
    case WhiteKey(i) => i < |WhitePattern|
    case BlackKey(j) => j < |BlackPattern|
  }

  /** Every key of the layout. */
  const AllKeys: set<KeyId> :=
    (set i | 0 <= i < |WhitePattern| :: WhiteKey(i)) + (set j | 0 <= j < |BlackPattern| :: BlackKey(j))

  lemma AllKeysAreTheKeys(k: KeyId)
    ensures k in AllKeys <==> IsKey(k)
  {
  }

  predicate IsWhiteClass(c: nat)
  {
    c in WhiteClasses
  }

  /** The global note index a key plays: its class plus 12 for the second octave. */
  function GlobalIndex(k: KeyId): (idx: nat)
    requires IsKey(k)
    ensures idx < KeyCount
  {
    match k
    case WhiteKey(i) => WhitePattern[i] + (i / 7) * SemitonesPerOctave
    case BlackKey(j) => BlackPattern[j] + (j / 5) * SemitonesPerOctave
  }

  /** The position of `x` in `s`. */
  function IndexOf(s: seq<nat>, x: nat): (i: nat)
    requires x in s
    ensures i < |s| && s[i] == x
    ensures forall j :: 0 <= j < i ==> s[j] != x
  {
    if s[0] == x then 0 else 1 + IndexOf(s[1..], x)
  }

  lemma ClassesPartitionOctave(c: nat)
    requires c < SemitonesPerOctave
    ensures c in WhiteClasses <==> c !in BlackClasses
  {
  }

  /** The key that plays global index `idx`: the inverse of GlobalIndex. */
  function KeyAt(idx: nat): (k: KeyId)
    requires idx < KeyCount
    ensures IsKey(k) && GlobalIndex(k) == idx
    ensures k.WhiteKey? <==> IsWhiteClass(idx % SemitonesPerOctave)
  {
    var c := idx % SemitonesPerOctave;
    OctaveOfIndex(idx);
    ClassesPartitionOctave(c);
    if c in WhiteClasses then
      var p := IndexOf(WhiteClasses, c);
      WhiteKeyIndices(p);
      if idx < SemitonesPerOctave then WhiteKey(p) else WhiteKey(p + 7)
    else
      var p := IndexOf(BlackClasses, c);
      BlackKeyIndices(p);
      if idx < SemitonesPerOctave then BlackKey(p) else BlackKey(p + 5)
  }

  /** An index of the keyboard is its class, plus 12 in the second octave. */
  lemma OctaveOfIndex(idx: nat)
    requires idx < KeyCount
    ensures idx % SemitonesPerOctave < SemitonesPerOctave
    ensures idx < SemitonesPerOctave ==> idx % SemitonesPerOctave == idx
    ensures idx >= SemitonesPerOctave ==> idx % SemitonesPerOctave + SemitonesPerOctave == idx
  {
  }

  /** The p-th white key of each octave plays class WhiteClasses[p]. */
  lemma WhiteKeyIndices(p: nat)
    requires p < |WhiteClasses|
    ensures GlobalIndex(WhiteKey(p)) == WhiteClasses[p]
    ensures GlobalIndex(WhiteKey(p + 7)) == WhiteClasses[p] + SemitonesPerOctave
  {
    assert WhitePattern[p + 7] == WhiteClasses[p];
  }

  /** The p-th black key of each octave plays class BlackClasses[p]. */
  lemma BlackKeyIndices(p: nat)
    requires p < |BlackClasses|
    ensures GlobalIndex(BlackKey(p)) == BlackClasses[p]
    ensures GlobalIndex(BlackKey(p + 5)) == BlackClasses[p] + SemitonesPerOctave
  {
    assert BlackPattern[p + 5] == BlackClasses[p];
  }

  /** Each key is the only one playing its global index. */
  lemma KeyAtGlobalIndex(k: KeyId)
    requires IsKey(k)
    ensures KeyAt(GlobalIndex(k)) == k
  {
    match k
    case WhiteKey(i) =>
      var p := if i < 7 then i else i - 7;
      WhiteKeyIndices(p);
      WhiteKeyAt(p);
    case BlackKey(j) =>
      var p := if j < 5 then j else j - 5;
      BlackKeyIndices(p);
      BlackKeyAt(p);
  }

  /** The keys found for the two indices of the p-th white class. */
  lemma WhiteKeyAt(p: nat)
    requires p < |WhiteClasses|
    ensures KeyAt(WhiteClasses[p]) == WhiteKey(p)
    ensures KeyAt(WhiteClasses[p] + SemitonesPerOctave) == WhiteKey(p + 7)
  {
    var c := WhiteClasses[p];
    SplitIndex(c, 0);
    SplitIndex(c, 1);
    IndexOfDistinct(WhiteClasses, p);
  }

  /** The keys found for the two indices of the p-th black class. */
  lemma BlackKeyAt(p: nat)
    requires p < |BlackClasses|
    ensures KeyAt(BlackClasses[p]) == BlackKey(p)
    ensures KeyAt(BlackClasses[p] + SemitonesPerOctave) == BlackKey(p + 5)
  {
    var c := BlackClasses[p];
    SplitIndex(c, 0);
    SplitIndex(c, 1);
    ClassesPartitionOctave(c);
    IndexOfDistinct(BlackClasses, p);
  }

  /** In a sequence without repetitions, IndexOf finds the position back. */
  lemma IndexOfDistinct(s: seq<nat>, p: nat)
    requires p < |s|
    requires forall i, j :: 0 <= i < j < |s| ==> s[i] != s[j]
    ensures IndexOf(s, s[p]) == p
  {
  }

  /** The 24 keys play pairwise distinct global indices, and every index in
      0..23 is played by a key of the layout. */
  lemma LayoutIsBijection()
    ensures forall k1, k2 :: IsKey(k1) && IsKey(k2) && GlobalIndex(k1) == GlobalIndex(k2) ==> k1 == k2
    ensures forall idx :: 0 <= idx < KeyCount ==> KeyAt(idx) in AllKeys
  {
    forall k1, k2 | IsKey(k1) && IsKey(k2) && GlobalIndex(k1) == GlobalIndex(k2)
      ensures k1 == k2
    {
      KeyAtGlobalIndex(k1);
      KeyAtGlobalIndex(k2);
    }
    forall idx | 0 <= idx < KeyCount
      ensures KeyAt(idx) in AllKeys
    {
      AllKeysAreTheKeys(KeyAt(idx));
    }
  }

  /** The white keys are exactly the keys whose class is one of C D E F G A B. */
  lemma WhiteKeysAreWhiteClasses(k: KeyId)
    requires IsKey(k)
    ensures k.WhiteKey? <==> IsWhiteClass(GlobalIndex(k) % SemitonesPerOctave)
  {
    KeyAtGlobalIndex(k);
  }

  /** Python's `str(n)` for a non-negative integer. */
  function NatToString(n: nat): (s: string)
    ensures |s| > 0 && IsDigits(s)
    ensures n == 0 || s[0] != '0'
  {
    if n < 10 then [DigitChar(n)] else NatToString(n / 10) + [DigitChar(n % 10)]
  }

  function DigitChar(d: nat): (c: char)
    requires d < 10
    ensures '0' <= c <= '9'
  {
    ('0' as int + d) as char
  }

  predicate IsDigits(s: string)
  {
    forall i :: 0 <= i < |s| ==> '0' <= s[i] <= '9'
  }

  /** The number a string of decimal digits denotes. */
  function DecimalValue(s: string): (n: nat)
    requires IsDigits(s)
  {
    if s == [] then 0
    else DecimalValue(s[..|s| - 1]) * 10 + (s[|s| - 1] as int - '0' as int)
  }

  /** NatToString writes the number itself: reading its digits gives it back. */
  lemma {:induction false} NatToStringRoundTrip(n: nat)
    ensures DecimalValue(NatToString(n)) == n
  {
    var s := NatToString(n);
    if n < 10 {
      assert s[..0] == [];
    } else {
      NatToStringRoundTrip(n / 10);
      assert s[..|s| - 1] == NatToString(n / 10);
    }
  }

  /** The label of a key, as setup_piano and update_piano_labels build it:
      the class name of its pattern entry, then the octave plus the key's octave offset. */
  function KeyLabel(k: KeyId, octave: nat): (text: string)
    requires IsKey(k)
  {
    match k
    case WhiteKey(i) => NoteNames[WhitePattern[i]] + NatToString(octave + i / 7)
    case BlackKey(j) => NoteNames[BlackPattern[j]] + NatToString(octave + j / 5)
  }

  /** A key's label names the class of its global index and its octave,
      the selected octave plus idx / 12. */
  lemma KeyLabelFormula(k: KeyId, octave: nat)
    requires IsKey(k)
    ensures KeyLabel(k, octave) == NoteNames[GlobalIndex(k) % SemitonesPerOctave] + NatToString(octave + GlobalIndex(k) / SemitonesPerOctave)
  {
    match k
    case WhiteKey(i) =>
      var p := if i < 7 then i else i - 7;
      WhiteKeyIndices(p);
      ClassOffset(GlobalIndex(k), WhiteClasses[p], i / 7);
    case BlackKey(j) =>
      var p := if j < 5 then j else j - 5;
      BlackKeyIndices(p);
      ClassOffset(GlobalIndex(k), BlackClasses[p], j / 5);
  }

  /** An index made of class `c` and octave offset `o` splits back into them. */
  lemma ClassOffset(idx: nat, c: nat, o: nat)
    requires c < SemitonesPerOctave && idx == c + o * SemitonesPerOctave
    ensures idx % SemitonesPerOctave == c && idx / SemitonesPerOctave == o
  {
    SplitIndex(c, o);
  }

  /** A class and an octave offset are recovered from the index they make. */
  lemma SplitIndex(c: nat, o: nat)
    requires c < SemitonesPerOctave
    ensures (c + o * SemitonesPerOctave) % SemitonesPerOctave == c && (c + o * SemitonesPerOctave) / SemitonesPerOctave == o
  {
  }

  /** The labels of C and E at the left end of the keyboard in octaves 4 and 5. */
  lemma FirstKeyLabels()
    ensures KeyLabel(WhiteKey(0), 4) == "C4" && KeyLabel(WhiteKey(0), 5) == "C5"
    ensures KeyLabel(WhiteKey(2), 4) == "E4"
  {
    assert WhitePattern[0] == 0 && WhitePattern[2] == 4;
    assert NoteNames[0] == "C" && NoteNames[4] == "E";
    assert NatToString(4) == "4" && NatToString(5) == "5";
  }

  /** Background colours of the keys. */
  const WhiteColour: string := "white"
  const BlackColour: string := "#1a1a1a"
  const HeldWhiteColour: string := "#cccccc"
  const HeldBlackColour: string := "#444444"

  /** The colour a key is created with. */
  function RestingColour(k: KeyId): (bg: string)
  {
    if k.WhiteKey? then WhiteColour else BlackColour
  }

  predicate IsShaded(bg: string)
  {
    bg == HeldWhiteColour || bg == HeldBlackColour
  }

  /** The shading hold_note_right_click gives a key: light grey for a white
      background, dark grey for any other. */
  function HeldColour(bg: string): (c: string)
    ensures IsShaded(c)
  {
    if bg == WhiteColour then HeldWhiteColour else HeldBlackColour
  }

  /** The colour release_note gives a key of note `idx` whose background is
      `bg`: a shaded key returns to the resting colour of the note's class;
      any other background is left alone. */
  function ReleasedColour(bg: string, idx: nat): (c: string)
    ensures !IsShaded(c)
  {
    if IsShaded(bg) then (if IsWhiteClass(idx % SemitonesPerOctave) then WhiteColour else BlackColour) else bg
  }

  /** Holding a key of the layout and releasing it restores its resting colour. */
  lemma HoldReleaseRestoresColour(k: KeyId)
    requires IsKey(k)
    ensures ReleasedColour(HeldColour(RestingColour(k)), GlobalIndex(k)) == RestingColour(k)
  {
    WhiteKeysAreWhiteClasses(k);
  }
}
