/** The plot title chosen by update_wave_display (main.py), from either a
    list of note names or a single text. */
module Display {

  /** What the program passes as `note_names`: a Python list, or a plain string. */
  datatype NoteLabel = NoteList(names: seq<string>) | NoteText(text: string)

  /** Python's `sep.join(xs)`. */
  function Join(sep: string, xs: seq<string>): (s: string)
  {
    if |xs| == 0 then ""
    else if |xs| == 1 then xs[0]
    else Join(sep, xs[..|xs| - 1]) + sep + xs[|xs| - 1]
  }

  /** The title rule: a list of more than one name is a chord, a list of one
      name a single note (an empty list makes `note_names[0]` fail, hence
      the precondition), and a plain string a single note. */
  function Title(shown: NoteLabel): (title: string)
    requires shown.NoteList? ==> |shown.names| > 0
  {
    match shown
    case NoteList(names) => if |names| > 1 then "Chord: " + Join(", ", names) else "Note: " + names[0]
    case NoteText(text) => "Note: " + text
  }

  /** The joined names split at any name boundary: the first k names, the
      separator, and the rest. */
  lemma {:induction false} JoinSplit(sep: string, xs: seq<string>, k: nat)
    requires 0 < k < |xs|
    ensures Join(sep, xs) == Join(sep, xs[..k]) + sep + Join(sep, xs[k..])
  {
    var n := |xs|;
    if k < n - 1 {
      var init := xs[..n - 1];
      JoinSplit(sep, init, k);
      assert init[..k] == xs[..k];
      assert init[k..] == xs[k..][..n - 1 - k];
      assert xs[k..][n - 1 - k] == xs[n - 1];
    } else {
      assert xs[k..] == [xs[n - 1]];
    }
  }

  /** A chord title lists every name in order: it is "Chord: " followed by
      the first name, then ", " and each further name. */
  lemma ChordTitleListsNames(names: seq<string>)
    requires |names| > 1
    ensures Title(NoteList(names)) == "Chord: " + names[0] + ", " + Join(", ", names[1..])
  {
    JoinSplit(", ", names, 1);
    assert names[..1] == [names[0]];
  }

  /** A single-element list titles the same as the plain string. */
  lemma SingleNameTitle(name: string)
    ensures Title(NoteList([name])) == Title(NoteText(name)) == "Note: " + name
  {
  }

  /** Holding C4 and E4, in that order, titles the plot "Chord: C4, E4". */
  lemma TwoNoteChordTitle()
    ensures Title(NoteList(["C4", "E4"])) == "Chord: C4, E4"
  {
    assert ["C4", "E4"][..1] == ["C4"];
  }
}
