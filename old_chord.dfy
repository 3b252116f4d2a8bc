/** The chord element of the oldest version (chord.ts): a root, an octave
    and a chord type kept as DOM attributes, the MIDI note numbers counted
    with the A-rooted pitch table, a press that plays and a release that
    stops with no guard between them, and a label naming all three fields. */
module OldChord {
  import opened Js
  import opened Element
  import Music
  import OldMusic
  import ChordModel

  const DEFAULT_ROOT: string := "C"
  const DEFAULT_TYPE: string := "major"
  const DEFAULT_OCTAVE: int := 4

  /** The element's three attributes; a missing attribute is `None`. */
  datatype Attrs = Attrs(root: Option<string>, octave: Option<string>, kind: Option<string>)

  /** A freshly created chord element. */
  const BLANK: Attrs := Attrs(None, None, None)

  // ---- getters and setters ----

  /** `get octave`: `Number(attribute) || 4`. */
  function Octave(a: Attrs): (r: int)
    ensures a.octave.None? ==> r == DEFAULT_OCTAVE
    ensures r != 0
  {
    NumberOr(a.octave, DEFAULT_OCTAVE)
  }

  /** `get root`: the attribute, or "C" when it is missing or empty. */
  function Root(a: Attrs): (r: string)
    ensures r != ""
    ensures a.root.None? ==> r == DEFAULT_ROOT
  {
    StringOr(a.root, DEFAULT_ROOT)
  }

  /** `get type`: the attribute, or "major" when it is missing or empty. */
  function Type(a: Attrs): (r: string)
    ensures r != ""
    ensures a.kind.None? ==> r == DEFAULT_TYPE
  {
    StringOr(a.kind, DEFAULT_TYPE)
  }

  /** `set octave`: the attribute becomes `String(octave)`. */
  function WithOctave(a: Attrs, octave: int): Attrs
  {
    a.(octave := Some(IntToString(octave)))
  }

  /** `set root`: `setAttribute` turns a root that is `undefined` (as
      `numberToNote` may return) into the text "undefined". */
  function WithRoot(a: Attrs, root: Option<string>): Attrs
  {
    a.(root := Some(Stringify(root)))
  }

  /** `set type`. */
  function WithType(a: Attrs, kind: string): Attrs
  {
    a.(kind := Some(kind))
  }

  /** A missing octave, and an octave attribute of "0", read as 4; a missing
      or empty root reads "C" and type "major". */
  lemma Defaults()
    ensures Octave(BLANK) == 4 && Root(BLANK) == "C" && Type(BLANK) == "major"
    ensures Octave(BLANK.(octave := Some("0"))) == 4
    ensures Root(BLANK.(root := Some(""))) == "C" && Type(BLANK.(kind := Some(""))) == "major"
  {
    assert DigitsValue("0") == 0 by { assert "0"[..0] == []; }
  }

  /** Setting a nonzero octave, a non-empty root or a non-empty type reads
      it back and changes no other field. */
  lemma ReadBack(a: Attrs, octave: int, root: string, kind: string)
    requires octave != 0 && root != "" && kind != ""
    ensures Octave(WithOctave(a, octave)) == octave
    ensures Root(WithOctave(a, octave)) == Root(a) && Type(WithOctave(a, octave)) == Type(a)
    ensures Root(WithRoot(a, Some(root))) == root && Type(WithType(a, kind)) == kind
    ensures Octave(WithRoot(a, Some(root))) == Octave(a) && Type(WithRoot(a, Some(root))) == Type(a)
    ensures Octave(WithType(a, kind)) == Octave(a) && Root(WithType(a, kind)) == Root(a)
  {
    NumberOrOfString(octave, DEFAULT_OCTAVE);
  }

  // ---- notes ----

  /** `(octave + 1) * 12 + noteToNumber(root)` with the A-rooted table; a
      root that is not a table name counts -1. */
  function Base(a: Attrs): int
  {
    (Octave(a) + 1) * 12 + OldMusic.NoteToNumber(Root(a))
  }

  /** `get notes`: the chord type's offsets above the base. A type that is
      not a table key makes `ChordTypes[type].map` throw. */
  function Notes(a: Attrs): (r: Result<seq<int>>)
    ensures r.Ok? <==> Music.KindNamed(Type(a)).Some?
    ensures r.Err? ==> r.error == TypeError
    ensures r.Ok? ==>
      var ns := r.value;
      |ns| == 3 && ns[0] == Base(a) && ns[0] < ns[1] < ns[2] < ns[0] + 12
      && ChordModel.Offsets(ns) == Music.Intervals(Music.KindNamed(Type(a)).value)
  {
    match Music.KindNamed(Type(a))
    case None => Err(TypeError)
    case Some(t) => Ok(ChordModel.Triad(t, Base(a)))
  }

  /** Read back through the same A-rooted table, the notes give the chord
      again: the offsets classify as its type, the lowest note names its
      root and lies in its octave. */
  lemma NotesDetermineChord(a: Attrs, i: int)
    requires 0 <= i < 12 && Root(a) == OldMusic.NOTES[i]
    requires Octave(a) >= -1 && Music.KindNamed(Type(a)).Some?
    ensures var ns := Notes(a).value;
      && Music.FindChordType(ChordModel.Offsets(ns)) == Ok(Music.KindNamed(Type(a)).value)
      && OldMusic.NumberToNote(ns[0]) == Some(Root(a))
      && ns[0] / 12 - 1 == Octave(a)
  {
    Music.FindChordTypeOfIntervals(Music.KindNamed(Type(a)).value);
    OldMusic.NotesDistinct();
    IndexOfDistinct(OldMusic.NOTES, i);
    var ns := Notes(a).value;
    assert ns[0] == (Octave(a) + 1) * 12 + i;
    assert ns[0] / 12 == Octave(a) + 1 && ns[0] % 12 == i;
    OldMusic.NumberToNoteOfPitchClass(i);
  }

  /** The major and minor triads on 63. */
  lemma TriadsOnSixtyThree()
    ensures ChordModel.Triad(Music.Major, 63) == [63, 67, 70]
    ensures ChordModel.Triad(Music.Minor, 63) == [63, 66, 70]
  {
  }

  /** The notes of a chord whose type and root are known. */
  lemma NotesOf(a: Attrs, t: Music.ChordType, pc: int)
    requires Music.KindNamed(Type(a)) == Some(t) && OldMusic.NoteToNumber(Root(a)) == pc
    ensures Notes(a) == Ok(ChordModel.Triad(t, (Octave(a) + 1) * 12 + pc))
  {
  }

  /** A C major chord in octave 4 starts at 63, not at 60 as MIDI
      numbering has it: C sits 3 above A in the table. */
  lemma MiddleCIsSixtyThree()
    ensures Notes(BLANK) == Ok([63, 67, 70])
  {
    assert Music.KindNamed(Type(BLANK)) == Some(Music.Major) by {
      Music.KindNamedOfName(Music.Major);
    }
    assert OldMusic.NoteToNumber(Root(BLANK)) == 3 by {
      OldMusic.ARooted();
    }
    NotesOf(BLANK, Music.Major, 3);
    TriadsOnSixtyThree();
  }

  /** The C minor chord in octave 4 likewise starts at 63. */
  lemma MiddleCMinorIsSixtyThree()
    ensures Notes(BLANK.(kind := Some("minor"))) == Ok([63, 66, 70])
  {
    var c := BLANK.(kind := Some("minor"));
    assert Music.KindNamed(Type(c)) == Some(Music.Minor) by {
      Music.KindNamedOfName(Music.Minor);
    }
    assert OldMusic.NoteToNumber(Root(c)) == 3 by {
      OldMusic.ARooted();
    }
    NotesOf(c, Music.Minor, 3);
    TriadsOnSixtyThree();
  }

  /** For a root spelled in both tables, the base is the one the C-rooted
      table gives with the pitch class moved 3 up, modulo 12: 3 higher for
      C to G♯ and 9 lower for A to B. */
  lemma BaseShifted(a: Attrs, i: int)
    requires 0 <= i < 12 && Root(a) == Music.NOTES[i]
    ensures Base(a) == (Octave(a) + 1) * 12 + (i + 3) % 12
    ensures Base(a) - ((Octave(a) + 1) * 12 + i) == if i < 9 then 3 else -9
  {
    OldMusic.ShiftedFromCRooted(i);
    if i < 9 {
      DivModTwelve(i + 3, 0, i + 3);
    } else {
      DivModTwelve(i + 3, 1, i - 9);
    }
  }

  // ---- pressing and releasing ----

  /** The constructor's listeners: every press plays, every `pointerup`
      stops, and nothing listens for `pointerleave`. */
  function OnPointer(calls: seq<AppCall>, e: Pointer): (r: seq<AppCall>)
  {
    match e
    case Down(_) => calls + [PlayChord]
    case Up => calls + [StopChord]
    case Leave => calls
  }

  /** The calls a run of pointer events makes. */
  function Replay(calls: seq<AppCall>, events: seq<Pointer>): seq<AppCall>
  {
    if events == [] then calls
    else OnPointer(Replay(calls, events[..|events| - 1]), events[|events| - 1])
  }

  /** How many of `events` are presses, and how many are `pointerup`. */
  function Presses(events: seq<Pointer>): nat
  {
    if events == [] then 0
    else Presses(events[..|events| - 1]) + (if events[|events| - 1].Down? then 1 else 0)
  }

  function Ups(events: seq<Pointer>): nat
  {
    if events == [] then 0
    else Ups(events[..|events| - 1]) + (if events[|events| - 1].Up? then 1 else 0)
  }

  /** With no guard, the chord plays once per press and stops once per
      `pointerup`, whatever their order: the two counts need not match. */
  lemma {:induction false} ReplayCounts(calls: seq<AppCall>, events: seq<Pointer>)
    ensures Occurrences(Replay(calls, events), PlayChord) == Occurrences(calls, PlayChord) + Presses(events)
    ensures Occurrences(Replay(calls, events), StopChord) == Occurrences(calls, StopChord) + Ups(events)
  {
    if events != [] {
      var init := events[..|events| - 1];
      var e := events[|events| - 1];
      ReplayCounts(calls, init);
      var before := Replay(calls, init);
      match e
      case Down(_) =>
        OccurrencesAppend(before, [PlayChord], PlayChord);
        OccurrencesAppend(before, [PlayChord], StopChord);
        assert [PlayChord][..0] == [];
      case Up =>
        OccurrencesAppend(before, [StopChord], PlayChord);
        OccurrencesAppend(before, [StopChord], StopChord);
        assert [StopChord][..0] == [];
      case Leave =>
    }
  }

  /** A press followed by the pointer leaving the chord plays it and never
      stops it; a second `pointerup` stops it a second time. */
  lemma NoOneShot(calls: seq<AppCall>)
    ensures Replay(calls, [Down(false), Leave]) == calls + [PlayChord]
    ensures Replay(calls, [Down(false), Up, Up]) == calls + [PlayChord, StopChord, StopChord]
  {
    var pressed := [Down(false)];
    assert Replay(calls, pressed) == calls + [PlayChord] by {
      assert pressed[..0] == [];
    }
    assert [Down(false), Leave][..1] == pressed;
    assert [Down(false), Up][..1] == pressed;
    assert Replay(calls, [Down(false), Up]) == calls + [PlayChord, StopChord];
    assert [Down(false), Up, Up][..2] == [Down(false), Up];
  }

  // ---- the label ----

  /** `updateLabel`: `(octave) root type`. */
  function Label(a: Attrs): (r: string)
    ensures |r| >= |Type(a)| + 6 && r[0] == '('
    ensures r[|r| - |Type(a)| - 1] == ' ' && r[|r| - |Type(a)|..] == Type(a)
  {
    "(" + IntToString(Octave(a)) + ") " + Root(a) + " " + Type(a)
  }

  /** Reading a label back: the number between the parentheses, then the
      root up to the next space, then the rest as the type. */
  function ParseLabel(text: string): Option<(Num, string, string)>
  {
    if |text| == 0 || text[0] != '(' then None
    else
      var close := IndexOf(text, ')');
      if close < 1 || |text| < close + 2 || text[close + 1] != ' ' then None
      else
        var rest := text[close + 2..];
        var space := IndexOf(rest, ' ');
        if space == -1 then None
        else Some((ToNumber(text[1..close]), rest[..space], rest[space + 1..]))
  }

  /** The text of `String(i)` holds no parenthesis. */
  lemma NoParenIn(i: int)
    ensures ')' !in IntToString(i)
  {
    var s := IntToString(i);
    assert forall k :: 1 <= k < |s| ==> s[1..][k - 1] == s[k];
  }

  /** A root without a space splits off at the first space. */
  lemma SplitAtSpace(root: string, kind: string)
    requires ' ' !in root
    ensures var rest := root + " " + kind;
      IndexOf(rest, ' ') == |root| && rest[..|root|] == root && rest[|root| + 1..] == kind
  {
    var rest := root + " " + kind;
    assert rest[..|root|] == root;
    IndexOfFirst(rest, |root|);
  }

  /** The parenthesised number splits off at the first closing
      parenthesis. */
  lemma SplitAtParen(d: string, tail: string)
    requires ')' !in d
    ensures var text := "(" + d + ") " + tail;
      && IndexOf(text, ')') == |d| + 1 && |text| >= |d| + 3 && text[|d| + 2] == ' '
      && text[1..|d| + 1] == d && text[|d| + 3..] == tail
  {
    var text := "(" + d + ") " + tail;
    assert text[..|d| + 1] == "(" + d;
    IndexOfFirst(text, |d| + 1);
    assert text[1..|d| + 1] == d;
    assert text[|d| + 3..] == tail;
  }

  /** A label text reads back as its three parts when the root has no
      space and the number no parenthesis. */
  lemma ParseLabelOf(d: string, root: string, kind: string)
    requires ')' !in d && ' ' !in root
    ensures ParseLabel("(" + d + ") " + root + " " + kind) == Some((ToNumber(d), root, kind))
  {
    var tail := root + " " + kind;
    var text := "(" + d + ") " + tail;
    assert "(" + d + ") " + root + " " + kind == text;
    SplitAtParen(d, tail);
    SplitAtSpace(root, kind);
    assert text[|d| + 3..] == tail;
  }

  /** The label of a chord whose root has no space reads back as its
      octave, root and type. */
  lemma LabelRoundTrip(a: Attrs)
    requires ' ' !in Root(a)
    ensures ParseLabel(Label(a)) == Some((Finite(Octave(a)), Root(a), Type(a)))
  {
    NoParenIn(Octave(a));
    NumberOfString(Octave(a));
    ParseLabelOf(IntToString(Octave(a)), Root(a), Type(a));
  }

  /** Two chords whose roots have no space show the same label only when
      they read the same. */
  lemma LabelInjective(a: Attrs, b: Attrs)
    requires ' ' !in Root(a) && ' ' !in Root(b)
    requires Label(a) == Label(b)
    ensures Octave(a) == Octave(b) && Root(a) == Root(b) && Type(a) == Type(b)
  {
    LabelRoundTrip(a);
    LabelRoundTrip(b);
  }

  /** The chord element's state: its attributes, its text and the app
      calls its listeners have made. */
  class Chord {
    var attrs: Attrs
    var text: string
    var calls: seq<AppCall>

    constructor()
      ensures attrs == BLANK && text == "" && calls == []
    {
      attrs := BLANK;
      text := "";
      calls := [];
    }

    /** `connectedCallback`. */
    method Connect()
      modifies this
      ensures text == Label(attrs) && attrs == old(attrs) && calls == old(calls)
    {
      text := Label(attrs);
    }

    /** `set octave`, which `attributeChangedCallback` follows with
        `updateLabel`. */
    method SetOctave(octave: int)
      modifies this
      ensures attrs == WithOctave(old(attrs), octave) && text == Label(attrs) && calls == old(calls)
    {
      attrs := WithOctave(attrs, octave);
      text := Label(attrs);
    }

    method SetRoot(root: Option<string>)
      modifies this
      ensures attrs == WithRoot(old(attrs), root) && text == Label(attrs) && calls == old(calls)
    {
      attrs := WithRoot(attrs, root);
      text := Label(attrs);
    }

    method SetType(kind: string)
      modifies this
      ensures attrs == WithType(old(attrs), kind) && text == Label(attrs) && calls == old(calls)
    {
      attrs := WithType(attrs, kind);
      text := Label(attrs);
    }

    /** A pointer event reaching the element. */
    method Pointer(e: Pointer)
      modifies this
      ensures calls == OnPointer(old(calls), e) && attrs == old(attrs) && text == old(text)
    {
      match e
      case Down(_) => calls := calls + [PlayChord];
      case Up => calls := calls + [StopChord];
      case Leave =>
    }
  }
}
