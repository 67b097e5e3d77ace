/** The held-note state of the piano window (main.py, class PianoGUI): the
    selected octave, the set of held (index, name) pairs, the map from held
    index to key, each key's background colour, and the wave and title on
    the plot. Widgets are reduced to key ids and colour strings. */
module Piano {
  import opened Frequencies
  import opened Waves
  import opened Keyboard
  import opened Display

  datatype Option<T> = None | Some(value: T)

  /** A held note: its global key index and the name it was held under. */
  type Note = (nat, string)

  const InitialOctave: int := 4
  const MinOctave: int := 0
  const MaxOctave: int := 8

  /** The title the plot carries before anything is played. */
  const InitialTitle: string := "Sound Wave Visualization"

  /** on_octave_change: the entry, when it parses (`Some`), becomes the
      octave if it lies in [0, 8]; otherwise the octave stays as it was. */
  function NextOctave(current: int, entry: Option<int>): (r: int)
    ensures r == current || (entry == Some(r) && MinOctave <= r <= MaxOctave)
    ensures entry.Some? && MinOctave <= entry.value <= MaxOctave ==> r == entry.value
  {
    if entry.Some? && MinOctave <= entry.value <= MaxOctave then entry.value else current
  }

  /** Starting from 4, any sequence of octave entries keeps the octave in [0, 8]. */
  lemma {:induction false} OctaveAlwaysInRange(entries: seq<Option<int>>)
    ensures MinOctave <= OctaveAfter(entries) <= MaxOctave
  {
    if entries != [] {
      OctaveAlwaysInRange(entries[..|entries| - 1]);
    }
  }

  /** The octave after the entries have been submitted one after the other. */
  function OctaveAfter(entries: seq<Option<int>>): (octave: int)
  {
    if entries == [] then InitialOctave
    else NextOctave(OctaveAfter(entries[..|entries| - 1]), entries[|entries| - 1])
  }

  /** `order` lists the elements of `s`, each exactly once: one iteration order of the set. */
  ghost predicate Enumerates(order: seq<Note>, s: set<Note>)
  {
    && |order| == |s|
    && (forall n :: n in s <==> n in order)
    && (forall i, j :: 0 <= i < j < |order| ==> order[i] != order[j])
  }

  /** One frequency per listed note, in the current octave. */
  function HeldFrequencies(order: seq<Note>, octave: nat): (fs: seq<real>)
    ensures |fs| == |order|
  {
    seq(|order|, i requires 0 <= i < |order| => GetNoteFrequency(order[i].0, octave))
  }

  /** One name per listed note. */
  function HeldNames(order: seq<Note>): (names: seq<string>)
    ensures |names| == |order|
  {
    seq(|order|, i requires 0 <= i < |order| => order[i].1)
  }

  /** Listing one more note appends its frequency and its name. */
  lemma HeldSnoc(order: seq<Note>, n: Note, octave: nat)
    ensures HeldFrequencies(order + [n], octave) == HeldFrequencies(order, octave) + [GetNoteFrequency(n.0, octave)]
    ensures HeldNames(order + [n]) == HeldNames(order) + [n.1]
  {
  }

  /** The title update_display_from_held_notes gives for the held notes listed in `order`. */
  function HeldTitle(order: seq<Note>): (title: string)
  {
    if order == [] then Title(NoteText("No notes")) else Title(NoteList(HeldNames(order)))
  }

  /** Nothing held gives a silent wave and the title "Note: No notes"; one
      held note, "Note: " and its name; more, "Chord: " and the names joined by ", ". */
  lemma HeldTitleCases(order: seq<Note>, t: seq<real>, octave: nat)
    ensures order == [] ==> HeldTitle(order) == "Note: No notes"
    ensures order == [] ==> ChordSpec(HeldFrequencies(order, octave), t) == Zeros(|t|)
    ensures |order| == 1 ==> HeldTitle(order) == "Note: " + order[0].1
    ensures |order| > 1 ==> HeldTitle(order) == "Chord: " + Join(", ", HeldNames(order))
  {
    if order == [] {
      assert HeldFrequencies(order, octave) == [];
    }
  }

  class PianoState {
    /** The time axis every wave is sampled on. */
    const t: seq<real>
    var octave: int
    var heldNotes: set<Note>
    var heldButtons: map<nat, KeyId>
    var colour: map<KeyId, string>
    /** The plotted wave (current_wave) and the plot title. */
    var wave: seq<real>
    var title: string

    ghost predicate Valid()
      reads this
    {
      && MinOctave <= octave <= MaxOctave
      && |t| > 0
      && colour.Keys == AllKeys
      && (forall idx :: idx in heldButtons ==> IsKey(heldButtons[idx]))
      && (forall idx :: idx in heldButtons ==> exists n :: n in heldNotes && n.0 == idx)
    }

    /** Shows(order): the plot displays the held notes in the iteration order `order`. */
    ghost predicate Shows(order: seq<Note>)
      reads this
      requires Valid()
    {
      && Enumerates(order, heldNotes)
      && wave == ChordSpec(HeldFrequencies(order, octave as nat), t)
      && title == HeldTitle(order)
    }

    constructor (t: seq<real>)
      requires |t| > 0
      ensures Valid()
      ensures this.t == t && octave == InitialOctave
      ensures heldNotes == {} && heldButtons == map[]
      ensures forall k :: k in AllKeys ==> colour[k] == RestingColour(k)
      ensures wave == [] && title == InitialTitle
    {
      this.t := t;
      octave := InitialOctave;
      heldNotes := {};
      heldButtons := map[];
      colour := map k | k in AllKeys :: RestingColour(k);
      wave := [];
      title := InitialTitle;
    }

    /** on_octave_change, with the parsed entry as input (None when `int()` fails). */
    method OnOctaveChange(entry: Option<int>)
      requires Valid()
      modifies this`octave
      ensures Valid()
      ensures octave == NextOctave(old(octave), entry)
    {
      if entry.Some? && MinOctave <= entry.value <= MaxOctave {
        octave := entry.value;
      }
    }

    /** update_wave_display: plot `w` under the title the rule gives for `shown`. */
    method UpdateWaveDisplay(w: seq<real>, shown: NoteLabel)
      requires shown.NoteList? ==> |shown.names| > 0
      modifies this`wave, this`title
      ensures wave == w && title == Title(shown)
    {
      wave := w;
      title := Title(shown);
    }

    /** update_display_from_held_notes: one frequency and one name per held
        pair, collected in the set's iteration order, which is returned. */
    method UpdateDisplayFromHeldNotes() returns (order: seq<Note>)
      requires Valid()
      modifies this`wave, this`title
      ensures Valid() && Shows(order)
    {
      if heldNotes == {} {
        UpdateWaveDisplay(Zeros(|t|), NoteText("No notes"));
        order := [];
        assert HeldFrequencies(order, octave as nat) == [];
        return;
      }
      var frequencies: seq<real> := [];
      var noteNames: seq<string> := [];
      var rest := heldNotes;
      order := [];
      while rest != {}
        invariant rest <= heldNotes
        invariant forall n :: n in heldNotes <==> n in rest || n in order
        invariant forall n :: n in order ==> n !in rest
        invariant |order| + |rest| == |heldNotes|
        invariant forall i, j :: 0 <= i < j < |order| ==> order[i] != order[j]
        invariant frequencies == HeldFrequencies(order, octave as nat)
        invariant noteNames == HeldNames(order)
        decreases |rest|
      {
        var n :| n in rest;
        HeldSnoc(order, n, octave as nat);
        frequencies := frequencies + [GetNoteFrequency(n.0, octave as nat)];
        noteNames := noteNames + [n.1];
        order := order + [n];
        rest := rest - {n};
      }
      var w := ChordWave(frequencies, t);
      UpdateWaveDisplay(w, NoteList(noteNames));
    }

    /** play_note_left_click: plot the single wave of the note; nothing is held or released. */
    method PlayNoteLeftClick(idx: nat, name: string)
      requires Valid()
      modifies this`wave, this`title
      ensures Valid()
      ensures wave == TriangleWave(GetNoteFrequency(idx, octave as nat), t)
      ensures title == "Note: " + name
    {
      var w := TriangleWave(GetNoteFrequency(idx, octave as nat), t);
      UpdateWaveDisplay(w, NoteList([name]));
    }

    /** release_note: the first pair with index `idx` that the set's iteration
        meets is removed (the choice among several is not determined), `idx`
        leaves heldButtons, and a shaded key gets the resting colour of the
        note's class. The removed pair is returned. */
    method ReleaseNote(idx: nat, key: KeyId) returns (removed: Option<Note>, order: seq<Note>)
      requires Valid() && IsKey(key)
      modifies this`heldNotes, this`heldButtons, this`colour, this`wave, this`title
      ensures Valid() && Shows(order)
      ensures removed.None? <==> forall n :: n in old(heldNotes) ==> n.0 != idx
      ensures removed.Some? ==> removed.value in old(heldNotes) && removed.value.0 == idx
      ensures heldNotes == if removed.Some? then old(heldNotes) - {removed.value} else old(heldNotes)
      ensures heldButtons == old(heldButtons) - {idx}
      ensures colour == old(colour)[key := ReleasedColour(old(colour)[key], idx)]
    {
      removed := None;
      var rest := heldNotes;
      while rest != {}
        invariant rest <= heldNotes
        invariant forall n :: n in heldNotes && n !in rest ==> n.0 != idx
        decreases |rest|
      {
        var n :| n in rest;
        if n.0 == idx {
          removed := Some(n);
          break;
        }
        rest := rest - {n};
      }
      ghost var before := heldNotes;
      if removed.Some? {
        heldNotes := heldNotes - {removed.value};
      }
      heldButtons := heldButtons - {idx};
      forall i | i in heldButtons
        ensures exists n :: n in heldNotes && n.0 == i
      {
        var n :| n in before && n.0 == i;
        assert n in heldNotes;
      }
      AllKeysAreTheKeys(key);
      colour := colour[key := ReleasedColour(colour[key], idx)];
      order := UpdateDisplayFromHeldNotes();
    }

    /** hold_note_right_click: a pair not yet held becomes held under `key`,
        which is shaded; a pair already held is released through release_note. */
    method HoldNoteRightClick(idx: nat, name: string, key: KeyId) returns (removed: Option<Note>, order: seq<Note>)
      requires Valid() && IsKey(key)
      modifies this`heldNotes, this`heldButtons, this`colour, this`wave, this`title
      ensures Valid() && Shows(order)
      ensures (idx, name) !in old(heldNotes) ==>
                && removed == None
                && heldNotes == old(heldNotes) + {(idx, name)}
                && heldButtons == old(heldButtons)[idx := key]
                && colour == old(colour)[key := HeldColour(old(colour)[key])]
      ensures (idx, name) in old(heldNotes) ==>
                && removed.Some? && removed.value in old(heldNotes) && removed.value.0 == idx
                && heldNotes == old(heldNotes) - {removed.value}
                && heldButtons == old(heldButtons) - {idx}
                && colour == old(colour)[key := ReleasedColour(old(colour)[key], idx)]
    {
      if (idx, name) in heldNotes {
        removed, order := ReleaseNote(idx, key);
      } else {
        removed := None;
        heldNotes := heldNotes + {(idx, name)};
        heldButtons := heldButtons[idx := key];
        AllKeysAreTheKeys(key);
        colour := colour[key := HeldColour(colour[key])];
        assert (idx, name) in heldNotes;
        order := UpdateDisplayFromHeldNotes();
      }
    }
  }

  /** Adding a fresh key to a map and then removing it gives the map back. */
  lemma UpdateThenRemove(m: map<nat, KeyId>, i: nat, k: KeyId)
    requires i !in m
    ensures m[i := k] - {i} == m
  {
    var r := m[i := k] - {i};
    assert r.Keys == m.Keys;
    assert forall j :: j in r ==> r[j] == m[j];
  }

  /** Right-clicking a resting key twice, while no note of its index is held,
      gives back the held notes, the held keys and the colours it started with. */
  method RightClickTwice(p: PianoState, key: KeyId)
    requires p.Valid() && IsKey(key)
    requires p.colour[key] == RestingColour(key)
    requires forall n :: n in p.heldNotes ==> n.0 != GlobalIndex(key)
    modifies p
    ensures p.Valid()
    ensures p.heldNotes == old(p.heldNotes) && p.heldButtons == old(p.heldButtons)
    ensures p.colour == old(p.colour) && p.octave == old(p.octave)
  {
    var idx, name := GlobalIndex(key), KeyLabel(key, p.octave as nat);
    assert idx !in p.heldButtons;
    ghost var held, buttons, colours := p.heldNotes, p.heldButtons, p.colour;
    var removed, order := p.HoldNoteRightClick(idx, name, key);
    ghost var shaded := p.colour;
    assert p.heldNotes == held + {(idx, name)};
    removed, order := p.HoldNoteRightClick(idx, name, key);
    assert removed.value == (idx, name);
    assert p.heldNotes == held;
    UpdateThenRemove(buttons, idx, key);
    HoldReleaseRestoresColour(key);
    assert shaded == colours[key := HeldColour(RestingColour(key))];
    UpdateTwice(colours, key, HeldColour(RestingColour(key)));
  }

  /** Overwriting an entry and then writing its old value back gives the map back. */
  lemma UpdateTwice(m: map<KeyId, string>, k: KeyId, c: string)
    requires k in m
    ensures m[k := c][k := m[k]] == m
  {
  }

  /** After an octave change the same index can be held under two names:
      C4 is held, the octave becomes 5, and C5 is held on the same key. The
      key, already shaded light grey, is now shaded dark grey. */
  method SameIndexHeldTwice(t: seq<real>) returns (p: PianoState)
    requires |t| > 0
    ensures fresh(p) && p.Valid() && p.octave == 5
    ensures p.heldNotes == {(0, "C4"), (0, "C5")}
    ensures p.colour[WhiteKey(0)] == HeldBlackColour
  {
    p := HoldC4(t);
    FirstKeyLabels();
    ShadeTwice();
    p.OnOctaveChange(Some(5));
    assert (0, "C5") !in p.heldNotes;
    var removed, order := p.HoldNoteRightClick(0, KeyLabel(WhiteKey(0), 5), WhiteKey(0));
  }

  /** Right-clicking the leftmost key of a fresh window holds C4 and shades the key light grey. */
  method HoldC4(t: seq<real>) returns (p: PianoState)
    requires |t| > 0
    ensures fresh(p) && p.Valid() && p.t == t && p.octave == InitialOctave
    ensures p.heldNotes == {(0, "C4")} && p.heldButtons == map[0 := WhiteKey(0)]
    ensures p.colour[WhiteKey(0)] == HeldWhiteColour
    ensures p.colour[WhiteKey(2)] == WhiteColour
  {
    p := new PianoState(t);
    FirstKeyLabels();
    ShadeTwice();
    AllKeysAreTheKeys(WhiteKey(0));
    AllKeysAreTheKeys(WhiteKey(2));
    var removed, order := p.HoldNoteRightClick(0, KeyLabel(WhiteKey(0), 4), WhiteKey(0));
  }

  /** Shading an already shaded white key again gives it the dark shade. */
  lemma ShadeTwice()
    ensures HeldColour(WhiteColour) == HeldWhiteColour
    ensures HeldColour(HeldWhiteColour) == HeldBlackColour
  {
    assert HeldWhiteColour[0] != WhiteColour[0];
  }

  /** Right-clicking C5 then releases one of the two pairs, whichever the
      set's iteration meets first: the other stays held, although index 0
      has left heldButtons and the key is white again. */
  method ReleaseAfterSameIndexHeldTwice(t: seq<real>) returns (p: PianoState)
    requires |t| > 0
    ensures p.Valid()
    ensures p.heldNotes == {(0, "C4")} || p.heldNotes == {(0, "C5")}
    ensures 0 !in p.heldButtons && p.colour[WhiteKey(0)] == WhiteColour
  {
    p := SameIndexHeldTwice(t);
    var removed, order := p.HoldNoteRightClick(0, "C5", WhiteKey(0));
    assert removed.value == (0, "C4") || removed.value == (0, "C5");
  }

  /** Holding C4 and E4 from the start, on an axis beginning at time 0, shows
      a chord of both notes at peak amplitude 1, titled in the set's
      iteration order. */
  method HoldCAndE(t: seq<real>) returns (p: PianoState)
    requires |t| > 0 && t[0] == 0.0
    ensures p.Valid() && p.heldNotes == {(0, "C4"), (4, "E4")}
    ensures |p.wave| == |t| && MaxAbs(p.wave) == 1.0
    ensures p.title == "Chord: C4, E4" || p.title == "Chord: E4, C4"
  {
    p := HoldC4(t);
    FirstKeyLabels();
    assert IsKey(WhiteKey(2)) && (4, "E4") !in p.heldNotes;
    var removed, order := p.HoldNoteRightClick(4, KeyLabel(WhiteKey(2), 4), WhiteKey(2));
    assert p.heldNotes == {(0, "C4"), (4, "E4")};
    CAndEDisplay(order, p.octave as nat, t);
  }

  /** The plot for C4 and E4 held together, in either iteration order. */
  lemma CAndEDisplay(order: seq<Note>, octave: nat, t: seq<real>)
    requires Enumerates(order, {(0, "C4"), (4, "E4")}) && |t| > 0 && t[0] == 0.0
    ensures MaxAbs(ChordSpec(HeldFrequencies(order, octave), t)) == 1.0
    ensures HeldTitle(order) == "Chord: C4, E4" || HeldTitle(order) == "Chord: E4, C4"
  {
    TwoNotesEnumerated(order, (0, "C4"), (4, "E4"));
    assert "Chord: " + "C4" + ", " + "E4" == "Chord: C4, E4";
    assert "Chord: " + "E4" + ", " + "C4" == "Chord: E4, C4";
    TwoNoteDisplay(order, octave, t);
  }

  /** A two-element set is enumerated in one of its two orders. */
  lemma TwoNotesEnumerated(order: seq<Note>, a: Note, b: Note)
    requires a != b && Enumerates(order, {a, b})
    ensures order == [a, b] || order == [b, a]
  {
    assert |{a, b}| == 2;
    assert order[0] in {a, b} && order[1] in {a, b} && order[0] != order[1];
  }

  /** What the plot shows for two held notes. */
  lemma TwoNoteDisplay(order: seq<Note>, octave: nat, t: seq<real>)
    requires |order| == 2 && |t| > 0 && t[0] == 0.0
    ensures MaxAbs(ChordSpec(HeldFrequencies(order, octave), t)) == 1.0
    ensures HeldTitle(order) == "Chord: " + order[0].1 + ", " + order[1].1
  {
    ChordFromTimeZero(HeldFrequencies(order, octave), t);
    var names := HeldNames(order);
    assert names == [order[0].1, order[1].1];
    ChordTitleListsNames(names);
    assert names[1..] == [order[1].1];
  }
}
