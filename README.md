# Piano wave visualiser: a verified model of its note and key-state core

The program is a Tk window with a two-octave piano keyboard and a plot of a
triangle wave. The window and the plot are not modelled. This project models
what sits underneath them, in Dafny:

- **Frequencies** (`frequency.dfy`): the 12-entry table of octave-0
  frequencies scaled by `2 ** octave` (`get_frequency`), and the split of a
  global key index into a semitone class `idx % 12` and an extra octave
  `idx // 12` (`get_note_frequency`). Frequencies are exact reals, and
  `x * 2 ** n` is written as `x` doubled `n` times. `Scale2IsProduct`
  proves the two forms equal.
- **Waves** (`wave.dfy`): the phase-folding triangle generator
  `2*|2*(p - floor(p + 0.5))| - 1` with `p = t * f`, applied to every time
  value (`triangle_wave`, `generate_wave`); and the chord mix
  (`generate_chord_wave`). A chord is the sum of its notes' waves, divided
  by its peak absolute value when that peak is positive. The mix is a method
  with the program's accumulating loop, proved equal to a specification
  function.
- **Keyboard** (`keyboard.dfy`): the 14 white and 10 black keys, the global
  index each plays (pattern entry plus 12 in the second octave), the label it
  shows (`note_names[class] + str(octave + offset)`), and the background
  colours given by holding and releasing it.
- **Display** (`display.dfy`): the title rule of `update_wave_display`. A
  list of more than one name gives a "Chord: " title; a single name or a
  plain string gives a "Note: " title.
- **Piano** (`piano.dfy`): the window's state as a class with these fields:
  - the selected octave;
  - the set of held `(index, name)` pairs;
  - the map from held index to key;
  - every key's colour;
  - the plotted wave and its title.

  The class's methods are `on_octave_change`, `update_wave_display`,
  `update_display_from_held_notes`, `play_note_left_click`,
  `hold_note_right_click` and `release_note`. Set iteration has no fixed
  order. `update_display_from_held_notes` returns the order it listed the
  held set in, and its contract holds for every such order; `hold_note_right_click`
  and `release_note` end by redrawing and return that same display order. The search
  loop of `release_note` meets the held pairs in an arbitrary order too,
  modelled by choosing each next pair with `:|`. For that search the method
  returns only the pair it removed, if any.

All paths below are relative to the program's repository. Its one file is
`main.py`.

The code does not keep the held set to one pair per index: after an octave
change the same key can be held under its old and its new name.
`Piano.SameIndexHeldTwice` builds that state.
`Piano.ReleaseAfterSameIndexHeldTwice` shows that one right-click then
releases only one of the two pairs, chosen by set iteration. It also removes
the index from the held keys and turns the key white, while the other pair
stays held.

## Model

| member | source | states |
|---|---|---|
| `Frequencies.BaseFrequenciesSpanOneOctave` | main.py:23-25 | The table has 12 entries, all positive and strictly increasing, and any entry is less than twice any other. |
| `Frequencies.Scale2IsProduct` | main.py:33 | Doubling a value n times equals multiplying it by 2 ** n, the product the program computes. |
| `Frequencies.GetFrequency` | main.py:30-33 | get_frequency: the table entry of the class doubled `octave` times. Its value, base[class] * 2 ** octave, is stated by `Frequencies.NoteFrequencyFormula` together with `Frequencies.Scale2IsProduct`. |
| `Frequencies.GetNoteFrequency` | main.py:241-246 | get_note_frequency: the class `idx % 12` in the current octave, doubled `idx / 12` more times. Its value is stated by `Frequencies.NoteFrequencyFormula`. |
| `Frequencies.NoteFrequencyFormula` | main.py:241-246 | The frequency of index idx is the frequency of class idx % 12 in octave octave + idx / 12, which is base[idx % 12] * 2 ** (octave + idx / 12). |
| `Frequencies.NoteFrequencyPositive` | main.py:241-246 | Every key's frequency is at least its octave-0 table entry, and so is positive. |
| `Frequencies.NextOctaveKeyDoubles` | main.py:241-246 | The key 12 places to the right sounds at exactly twice the frequency. |
| `Frequencies.RaiseOctaveDoubles` | main.py:30-33 | Raising the selected octave by one doubles every key's frequency. |
| `Frequencies.NoteFrequencyIncreasing` | main.py:241-246 | A higher global index always gives a strictly higher frequency. |
| `Frequencies.MiddleC` | main.py:17 | In the initial octave 4, key 0 (C4) sounds at 261.6 Hz. |
| `Waves.TriangleSample` | main.py:35-39 | Every sample of the generator lies in [-1, 1]. |
| `Waves.TriangleSampleIsDistance` | main.py:38 | The sample is 4 times the phase's distance to the nearest integer, minus 1. This is the generator described independently of floor. |
| `Waves.TriangleSampleShift` | main.py:37-38 | Shifting the phase by any integer leaves the sample unchanged. |
| `Waves.TriangleSampleExtremes` | main.py:38 | The generator gives -1 at phase 0 and 1 at phase 0.5. |
| `Waves.TriangleWave` | main.py:35-39 | triangle_wave has one sample per time value, each in [-1, 1]. |
| `Waves.TriangleWaveStartsAtMinusOne` | main.py:35-39 | On a time axis starting at 0, the first sample is exactly -1, whatever the frequency. |
| `Waves.TriangleWavePeriodic` | main.py:35-39 | Moving every time value by n / f gives the same wave. |
| `Waves.SumWaves` | main.py:50-52 | The accumulated sum has the length of the time axis, and each sample's magnitude is at most the number of notes. |
| `Waves.MaxAbs` | main.py:54 | np.max(np.abs(s)) is an upper bound of every sample's magnitude and is attained at some sample. |
| `Waves.MaxAbsZero` | main.py:54 | The peak is 0 if and only if every sample is 0. |
| `Waves.ChordSpec` | main.py:45-57 | The chord has the length of the time axis. |
| `Waves.ChordOfNothingIsSilent` | main.py:47-48 | An empty frequency list gives all zeros of the time axis' length. |
| `Waves.ChordBounded` | main.py:45-57 | Every chord sample lies in [-1, 1]. |
| `Waves.ChordPeakIsOne` | main.py:54-55 | If the summed wave is non-zero somewhere, the chord's peak is exactly 1. |
| `Waves.NormalisedPeak` | main.py:54-55 | Dividing a wave by its positive peak gives a wave of peak exactly 1. |
| `Waves.SilentChordUnscaled` | main.py:54-57 | If the summed wave is identically zero, it is returned unscaled. |
| `Waves.SingleNoteChord` | main.py:45-57 | A single note whose wave reaches amplitude 1 is its own chord. |
| `Waves.SumAtTimeZero` | main.py:50-52 | On an axis starting at 0, the first summed sample is minus the number of notes. |
| `Waves.ChordFromTimeZero` | main.py:45-57 | On an axis starting at 0, every non-empty chord has peak exactly 1, and a one-note chord is that note's triangle wave. |
| `Waves.ChordWave` | main.py:45-57 | The accumulating loop returns exactly the chord specification. |
| `Keyboard.GlobalIndex` | main.py:178-182 | Each key plays a global index below 24. |
| `Keyboard.KeyAt` | main.py:170-224 | For each index in 0..23 there is a key of the layout playing it, and it is white exactly when the index's class is a white class. |
| `Keyboard.KeyAtGlobalIndex` | main.py:178-182 | The key found for a key's index is that key. |
| `Keyboard.LayoutIsBijection` | main.py:170-182 | The 24 keys play pairwise distinct indices, and every index 0..23 is played by a key of the layout. |
| `Keyboard.WhiteKeysAreWhiteClasses` | main.py:304 | A key is white exactly when its index's class is one of 0, 2, 4, 5, 7, 9, 11. |
| `Keyboard.NatToString` | main.py:181 | str(n) is a non-empty string of decimal digits with no leading zero unless n is 0. |
| `Keyboard.NatToStringRoundTrip` | main.py:181 | Reading back the digits of str(n) gives n. |
| `Keyboard.KeyLabel` | main.py:136-139 | The label of a key, as setup_piano builds it (main.py:179-181, main.py:218-220) and update_piano_labels rebuilds it (main.py:149-153): its pattern entry's name, then str(octave + position offset). `Keyboard.KeyLabelFormula` states it in terms of the global index. |
| `Keyboard.KeyLabelFormula` | main.py:136-139 | A key's label is note_names[idx % 12] followed by str(octave + idx / 12), where idx is the key's global index. |
| `Keyboard.FirstKeyLabels` | main.py:178-181 | The leftmost key is labelled C4 in octave 4 and C5 in octave 5, and the third white key E4 in octave 4. |
| `Keyboard.RestingColour` | main.py:185 | The colour a key is created with: 'white' for a white key and '#1a1a1a' for a black key (main.py:227). `Keyboard.HoldReleaseRestoresColour` proves that a hold and a release come back to it. |
| `Keyboard.HeldColour` | main.py:279-282 | Holding always leaves a key in one of the two shades, '#cccccc' or '#444444'. |
| `Keyboard.ReleasedColour` | main.py:300-307 | Releasing always leaves a key unshaded: a shaded key returns to a resting colour, and any other background is kept. |
| `Keyboard.HoldReleaseRestoresColour` | main.py:279-307 | For every key of the layout, shading it as a hold does (main.py:279-282) and then unshading it as release_note does (main.py:300-307) restores the colour it was created with (main.py:185, main.py:227). |
| `Display.JoinSplit` | main.py:90 | ", ".join splits at any name boundary into the joined prefix, the separator and the joined rest. |
| `Display.Title` | main.py:89-92 | The title rule: a list of more than one name gives "Chord: " and the names joined by ", ", a list of one name or a plain string gives "Note: " and the name. `Display.ChordTitleListsNames` and `Display.SingleNameTitle` state its cases. |
| `Display.ChordTitleListsNames` | main.py:89-90 | A chord title is "Chord: ", the first name, then ", " and the remaining names, in order. |
| `Display.SingleNameTitle` | main.py:89-92 | A one-name list and the plain string give the same title, "Note: " plus the name. |
| `Display.TwoNoteChordTitle` | main.py:90 | The list C4, E4 is titled "Chord: C4, E4". |
| `Piano.NextOctave` | main.py:119-129 | The octave becomes the entry exactly when the entry parses to an integer in [0, 8]; otherwise it is unchanged. |
| `Piano.OctaveAlwaysInRange` | main.py:17 | Starting from 4, the octave stays in [0, 8] after any sequence of entries. |
| `Piano.HeldFrequencies` | main.py:255-259 | One frequency per listed held pair. |
| `Piano.HeldNames` | main.py:255-260 | One name per listed held pair. |
| `Piano.HeldTitle` | main.py:250-263 | The title update_display_from_held_notes gives: "Note: No notes" when nothing is held, otherwise the title rule applied to the held names in iteration order. `Piano.HeldTitleCases` states its three cases. |
| `Piano.HeldTitleCases` | main.py:248-263 | Holding nothing gives a silent wave and "Note: No notes". One held pair gives "Note: " and its name. More give "Chord: " and the names joined by ", ". |
| `Piano.PianoState.constructor` | main.py:17-25 | The window starts in octave 4 with nothing held, every key in its resting colour ('white' as main.py:185 and '#1a1a1a' as main.py:227 create them), and the initial title 'Sound Wave Visualization' of main.py:75. |
| `Piano.PianoState.OnOctaveChange` | main.py:119-129 | The octave becomes the validated entry and nothing else changes. The class invariant is kept. |
| `Piano.PianoState.UpdateWaveDisplay` | main.py:84-95 | The plot shows the given wave under the title rule's title. |
| `Piano.PianoState.UpdateDisplayFromHeldNotes` | main.py:248-263 | In the iteration order returned, the plot shows the chord of the held notes' frequencies and the title of their names. |
| `Piano.PianoState.PlayNoteLeftClick` | main.py:265-269 | The plot shows the key's single triangle wave titled "Note: " and its name, and nothing is held or released. |
| `Piano.PianoState.ReleaseNote` | main.py:286-309 | A pair with the index is removed exactly when one is held, and it is one of the held pairs with that index. The index leaves the held keys, the key's colour becomes the released colour, and the plot shows what is left. |
| `Piano.PianoState.HoldNoteRightClick` | main.py:271-284 | A pair not yet held is added, mapped to the key, and the key is shaded. A pair already held is released as release_note does. No other entry changes. |
| `Piano.RightClickTwice` | main.py:271-309 | Right-clicking a resting key twice, with no pair of its index held, restores the held set, the held keys and every colour. |
| `Piano.HoldC4` | main.py:271-284 | Right-clicking the leftmost key of a new window holds (0, "C4") under it and shades it light grey. |
| `Piano.SameIndexHeldTwice` | main.py:271-284 | After C4 is held and the octave set to 5, right-clicking the same key holds (0, "C5") too, and the key turns dark grey. |
| `Piano.ReleaseAfterSameIndexHeldTwice` | main.py:286-298 | Releasing that key then leaves exactly one of the two pairs held, with index 0 gone from the held keys and the key white. |
| `Piano.HoldCAndE` | main.py:248-263 | Holding C4 and E4 on an axis starting at 0 plots a chord of peak 1, titled "Chord: C4, E4" or "Chord: E4, C4". |
| `Piano.CAndEDisplay` | main.py:248-263 | For either iteration order of {C4, E4}, the chord has peak 1 and one of the two titles. |
| `Piano.TwoNotesEnumerated` | main.py:257 | A two-element set is iterated in one of its two orders. |
| `Piano.TwoNoteDisplay` | main.py:248-263 | Two held notes on an axis starting at 0 give a chord of peak 1, titled "Chord: " with the two names in iteration order. |
| `Piano.ShadeTwice` | main.py:279-282 | Shading a white key gives '#cccccc'. Shading it again gives '#444444'. |

## Left out

- The Tk window, frames, entry widget, buttons, packing and event bindings are out of scope. A key is modelled by its position among the white or black keys, its label is `KeyLabel` of the current octave, and the name it passes to a click is an argument.
- The matplotlib figure, styling, `canvas.draw` and `line.set_data` are out of scope. The plot is reduced to the wave and its title.
- Black-key pixel placement and the rebuild on `<Configure>` are left out, because they are widget geometry. This includes the rebuilt keys taking their unshaded colour while the held notes remain.
- `np.linspace` and the `int(fs * duration)` length are left out, because they involve float rounding. The time axis is a parameter, required to be non-empty. Only lemmas about time 0 assume that it starts at 0.
- numpy's IEEE floating-point rounding is left out. Every formula is over exact reals, so no claim is bit-exact.
- `int(self.octave_var.get())` parsing is left out. The entry is an `Option<int>`, with `None` for text that does not parse.
- Resetting the entry's text after a rejected octave (`octave_var.set`) is left out, because it only touches a widget.
- Relabelling and rebinding the keys in `update_piano_labels` is left out, because it only touches widgets. The labels are the function `KeyLabel` of the current octave.
- `main` and `mainloop` are left out, because they are the event loop.
- `generate_wave` is `TriangleWave` applied to the class's time axis. It is not a member of its own.
- Waves.MaxAbs: requires a non-empty wave, because numpy raises an error for the maximum of an empty array. For the same reason, `Waves.ChordWave` and `Waves.ChordSpec` require a non-empty time axis when there are notes.
- Frequencies.GetFrequency: requires a class index below 12, because the program indexes its 12-entry list and otherwise raises. It is only called with `idx % 12`.
- Display.Title: requires a non-empty list, because the program indexes `note_names[0]` and would raise. The program never passes an empty list.
