/** Note theory of the component version: a C-rooted table of the twelve
    pitch names, the four triad shapes, three seven-note scales, and the
    classifier that names a triad from its offsets. */
module Music {
  import opened Js

  /** The pitch names; a name's position is its pitch class (C = 0). */
  const NOTES: seq<string> :=
    ["C", "C\U{266F}", "D", "D\U{266F}", "E", "F", "F\U{266F}", "G", "G\U{266F}", "A", "B\U{266D}", "B"]

  /** `noteToNumber`: the position of `note` in the table, -1 for a name
      that is not in it. */
  function NoteToNumber(note: string): (r: int)
    ensures -1 <= r < 12
    ensures r != -1 ==> NOTES[r] == note
    ensures r == -1 ==> forall k :: 0 <= k < |NOTES| ==> NOTES[k] != note
  {
    IndexOf(NOTES, note)
  }

  /** `numberToNote`: `NOTES[n % 12]` with JavaScript's `%`, so a negative
      number that is not a multiple of 12 gives `undefined`. */
  function NumberToNote(n: int): (r: Option<string>)
    ensures n >= 0 ==> r == Some(NOTES[n % 12])
  {
    At(NOTES, Rem(n, 12))
  }

  /** The keys of the chord-type table. */
  datatype ChordType = Major | Minor | Diminished | Augmented

  /** The table's keys in declaration order, which is the order in which a
      `for..in` loop visits them. */
  const KINDS: seq<ChordType> := [Major, Minor, Diminished, Augmented]

  /** `ChordTypes[t]`: the semitone offsets of a triad above its root. */
  function Intervals(t: ChordType): (r: seq<int>)
    ensures |r| == 3 && r[0] == 0 && r[0] < r[1] < r[2] < 12
  {
    match t
    case Major => [0, 4, 7]
    case Minor => [0, 3, 7]
    case Diminished => [0, 3, 6]
    case Augmented => [0, 4, 8]
  }

  /** The key under which a chord type is stored, which is also the value of
      a chord's `type` attribute. */
  function Name(t: ChordType): string
  {
    match t
    case Major => "major"
    case Minor => "minor"
    case Diminished => "diminished"
    case Augmented => "augmented"
  }

  /** Looking a `type` attribute up in the table: `None` where `ChordTypes[name]`
      is not one of the four entries. */
  function KindNamed(name: string): (r: Option<ChordType>)
    ensures r.Some? ==> Name(r.value) == name
    ensures r.None? ==> forall t :: Name(t) != name
  {
    if name == "major" then Some(Major)
    else if name == "minor" then Some(Minor)
    else if name == "diminished" then Some(Diminished)
    else if name == "augmented" then Some(Augmented)
    else None
  }

  const SCALE_MAJOR: seq<int> := [0, 2, 4, 5, 7, 9, 11]
  const SCALE_MINOR_NATURAL: seq<int> := [0, 2, 3, 5, 7, 8, 10]
  const SCALE_MINOR_HARMONIC: seq<int> := [0, 2, 3, 5, 7, 8, 11]

  /** The message `findChordType` throws. */
  const NO_MATCH: Error := Thrown("FIXME")

  /** `findChordType`: the first table key, in table order, whose offsets equal
      `numbers` element by element; it throws when there is none. The source
      compares the two lists joined with commas, which for integer lists is
      the same as comparing them element by element. */
  function FindChordType(numbers: seq<int>): (r: Result<ChordType>)
    ensures r.Ok? ==> Intervals(r.value) == numbers
    ensures r.Err? <==> forall t :: Intervals(t) != numbers
    ensures r.Err? ==> r.error == NO_MATCH
  {
    var r := SearchKinds(numbers, 0);
    assert KINDS[0] == Major && KINDS[1] == Minor && KINDS[2] == Diminished && KINDS[3] == Augmented;
    r
  }

  /** The loop of `findChordType` from the `i`-th key on. */
  function SearchKinds(numbers: seq<int>, i: nat): (r: Result<ChordType>)
    requires i <= |KINDS|
    ensures r.Ok? ==> Intervals(r.value) == numbers && r.value in KINDS[i..]
    ensures r.Err? <==> forall k :: i <= k < |KINDS| ==> Intervals(KINDS[k]) != numbers
    ensures r.Err? ==> r.error == NO_MATCH
    decreases |KINDS| - i
  {
    if i == |KINDS| then Err(NO_MATCH)
    else if Intervals(KINDS[i]) == numbers then Ok(KINDS[i])
    else SearchKinds(numbers, i + 1)
  }

  /** A scale: seven strictly ascending offsets within one octave, from 0. */
  ghost predicate IsScale(s: seq<int>)
  {
    |s| == 7 && s[0] == 0 && s[6] < 12 && forall i :: 0 < i < 7 ==> s[i - 1] < s[i]
  }

  // ---- properties of the tables ----

  /** No pitch name appears twice. */
  lemma NotesDistinct()
    ensures |NOTES| == 12
    ensures forall i, j :: 0 <= i < j < |NOTES| ==> NOTES[i] != NOTES[j]
  {
  }

  /** No pitch name is empty, so a root set from the table reads back. */
  lemma NotesNonEmpty()
    ensures forall k :: 0 <= k < |NOTES| ==> NOTES[k] != ""
  {
  }

  /** `noteToNumber(numberToNote(n)) == n % 12` for every non-negative `n`. */
  lemma NumberToNoteToNumber(n: int)
    requires n >= 0
    ensures NumberToNote(n).Some? && NoteToNumber(NumberToNote(n).value) == n % 12
  {
    NotesDistinct();
    IndexOfDistinct(NOTES, n % 12);
  }

  /** `numberToNote(noteToNumber(name)) == name` for every name in the table. */
  lemma NoteToNumberToNote(name: string)
    requires name in NOTES
    ensures NumberToNote(NoteToNumber(name)) == Some(name)
  {
    var k := NoteToNumber(name);
    NumberToNoteOfPitchClass(k);
  }

  lemma NumberToNoteOfPitchClass(k: int)
    requires 0 <= k < 12
    ensures NumberToNote(k) == Some(NOTES[k])
  {
  }

  /** Different chord types have different offsets, so the table is a
      one-to-one map. */
  lemma IntervalsInjective(s: ChordType, t: ChordType)
    requires Intervals(s) == Intervals(t)
    ensures s == t
  {
  }

  /** `findChordType(ChordTypes[t]) == t` for each key. */
  lemma FindChordTypeOfIntervals(t: ChordType)
    ensures FindChordType(Intervals(t)) == Ok(t)
  {
    var r := FindChordType(Intervals(t));
    IntervalsInjective(r.value, t);
  }

  /** A `type` attribute names the table entry it was written from. */
  lemma KindNamedOfName(t: ChordType)
    ensures KindNamed(Name(t)) == Some(t)
  {
  }

  /** The three scales are well-formed. */
  lemma ScalesWellFormed()
    ensures IsScale(SCALE_MAJOR) && IsScale(SCALE_MINOR_NATURAL) && IsScale(SCALE_MINOR_HARMONIC)
  {
  }
}
