/** Note theory of the oldest version. Its pitch-name table starts at A,
    so every pitch class is counted from A. The chord-type table, the
    scales and the classifier are the same as the component version's and
    are taken from `Music`. */
module OldMusic {
  import opened Js
  import Music

  /** The pitch names; a name's position is its pitch class (A = 0). */
  const NOTES: seq<string> :=
    ["A", "B\U{266D}", "B", "C", "C\U{266F}", "D", "D\U{266F}", "E", "F", "F\U{266F}", "G", "G\U{266F}"]

  /** `noteToNumber`: the position of `note` in the A-rooted table, -1 for a
      name that is not in it. */
  function NoteToNumber(note: string): (r: int)
    ensures -1 <= r < 12
    ensures r != -1 ==> NOTES[r] == note
    ensures r == -1 ==> forall k :: 0 <= k < |NOTES| ==> NOTES[k] != note
  {
    IndexOf(NOTES, note)
  }

  /** `numberToNote`: `NOTES[n % 12]` with JavaScript's `%`. */
  function NumberToNote(n: int): (r: Option<string>)
    ensures n >= 0 ==> r == Some(NOTES[n % 12])
  {
    At(NOTES, Rem(n, 12))
  }

  lemma NotesDistinct()
    ensures |NOTES| == 12
    ensures forall i, j :: 0 <= i < j < |NOTES| ==> NOTES[i] != NOTES[j]
  {
  }

  lemma NumberToNoteOfPitchClass(k: int)
    requires 0 <= k < 12
    ensures NumberToNote(k) == Some(NOTES[k])
  {
  }

  /** `noteToNumber(numberToNote(n)) == n % 12` for every non-negative `n`. */
  lemma NumberToNoteToNumber(n: int)
    requires n >= 0
    ensures NumberToNote(n).Some? && NoteToNumber(NumberToNote(n).value) == n % 12
  {
    NotesDistinct();
    IndexOfDistinct(NOTES, n % 12);
  }

  /** `numberToNote(noteToNumber(name)) == name` for every name in the table. */
  lemma NoteToNumberToNote(name: string)
    requires name in NOTES
    ensures NumberToNote(NoteToNumber(name)) == Some(name)
  {
    NumberToNoteOfPitchClass(NoteToNumber(name));
  }

  /** The table is A-rooted: A is 0 and C is 3. */
  lemma ARooted()
    ensures NoteToNumber("A") == 0 && NoteToNumber("C") == 3
  {
    assert NOTES[0] == "A" && NOTES[3] == "C";
    NotesDistinct();
    IndexOfDistinct(NOTES, 0);
    IndexOfDistinct(NOTES, 3);
  }

  /** The two tables spell the same twelve names; a name's number in this
      table is its number in the C-rooted table plus 3, modulo 12. */
  lemma ShiftedFromCRooted(i: int)
    requires 0 <= i < 12
    ensures NoteToNumber(Music.NOTES[i]) == (i + 3) % 12
  {
    assert NOTES[(i + 3) % 12] == Music.NOTES[i] by {
      assert i == 0 || i == 1 || i == 2 || i == 3 || i == 4 || i == 5
          || i == 6 || i == 7 || i == 8 || i == 9 || i == 10 || i == 11;
    }
    NotesDistinct();
    IndexOfDistinct(NOTES, (i + 3) % 12);
  }
}
