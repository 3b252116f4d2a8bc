/** The chord element of the component version (components/chord.ts): a
    root, an octave and a chord type kept as DOM attributes, read through
    getters with defaults; the MIDI note numbers the chord stands for; the
    press-and-release handling that plays and stops it exactly once; and the
    label it shows. */
module ChordModel {
  import opened Js
  import opened Music
  import opened Element

  const DEFAULT_ROOT: string := "C"
  const DEFAULT_TYPE: string := "major"
  const DEFAULT_OCTAVE: int := 4

  /** The element's attributes (a missing attribute is `None`) and its
      `--index` style property, which a layout sets. */
  datatype Attrs = Attrs(root: Option<string>, octave: Option<string>, kind: Option<string>,
                         index: Option<string>)

  /** A freshly created chord element. */
  const BLANK: Attrs := Attrs(None, None, None, None)

  // ---- getters and setters ----

  /** `get octave`: `Number(attribute) || 4`. */
  function Octave(a: Attrs): (r: int)
    ensures a.octave.None? ==> r == DEFAULT_OCTAVE
    ensures r != 0
  {
    NumberOr(a.octave, DEFAULT_OCTAVE)
  }

  /** `get root`: the attribute, or "C" when it is missing or empty. */
  function Root(a: Attrs): (r: string)
    ensures r != ""
    ensures a.root.None? ==> r == DEFAULT_ROOT
  {
    StringOr(a.root, DEFAULT_ROOT)
  }

  /** `get type`: the attribute, or "major" when it is missing or empty. */
  function Type(a: Attrs): (r: string)
    ensures r != ""
    ensures a.kind.None? ==> r == DEFAULT_TYPE
  {
    StringOr(a.kind, DEFAULT_TYPE)
  }

  /** `set octave`: the attribute becomes `String(octave)`. */
  function WithOctave(a: Attrs, octave: int): Attrs
  {
    a.(octave := Some(IntToString(octave)))
  }

  /** `set root`: `setAttribute` turns a root that is `undefined` (as
      `numberToNote` may return) into the text "undefined". */
  function WithRoot(a: Attrs, root: Option<string>): Attrs
  {
    a.(root := Some(Stringify(root)))
  }

  /** `set type`. */
  function WithType(a: Attrs, kind: string): Attrs
  {
    a.(kind := Some(kind))
  }

  /** `style.setProperty("--index", String(index))`. */
  function WithIndex(a: Attrs, index: int): Attrs
  {
    a.(index := Some(IntToString(index)))
  }

  /** A missing octave, and an octave attribute of "0" or of text that is
      not a number, read as 4; the other getters default likewise. */
  lemma Defaults()
    ensures Octave(BLANK) == 4 && Root(BLANK) == "C" && Type(BLANK) == "major"
    ensures Octave(BLANK.(octave := Some("0"))) == 4
    ensures Octave(BLANK.(octave := Some("x"))) == 4
    ensures Root(BLANK.(root := Some(""))) == "C" && Type(BLANK.(kind := Some(""))) == "major"
  {
    assert !AllDigits("x") by { assert !IsDigit("x"[0]); }
    assert DigitsValue("0") == 0 by { assert "0"[..0] == []; }
  }

  /** Setting a nonzero octave reads it back and changes no other field. */
  lemma OctaveReadBack(a: Attrs, octave: int)
    requires octave != 0
    ensures Octave(WithOctave(a, octave)) == octave
    ensures Root(WithOctave(a, octave)) == Root(a) && Type(WithOctave(a, octave)) == Type(a)
  {
    NumberOrOfString(octave, DEFAULT_OCTAVE);
  }

  /** Setting a non-empty root or type reads it back and changes no other
      field. */
  lemma RootAndTypeReadBack(a: Attrs, root: string, kind: string)
    requires root != "" && kind != ""
    ensures Root(WithRoot(a, Some(root))) == root && Type(WithType(a, kind)) == kind
    ensures Octave(WithRoot(a, Some(root))) == Octave(a) && Type(WithRoot(a, Some(root))) == Type(a)
    ensures Octave(WithType(a, kind)) == Octave(a) && Root(WithType(a, kind)) == Root(a)
  {
  }

  // ---- notes ----

  /** `(octave + 1) * 12 + noteToNumber(root)`: the note number of the root
      (60 for C in octave 4); a root that is not a table name counts -1. */
  function Base(a: Attrs): int
  {
    (Octave(a) + 1) * 12 + NoteToNumber(Root(a))
  }

  /** Each of `s` raised by `d`. */
  function Shift(s: seq<int>, d: int): (r: seq<int>)
    ensures |r| == |s| && forall i :: 0 <= i < |s| ==> r[i] == s[i] + d
  {
    seq(|s|, i requires 0 <= i < |s| => s[i] + d)
  }

  /** Each of `s` less its first entry. */
  function Offsets(s: seq<int>): (r: seq<int>)
    requires s != []
    ensures |r| == |s| && forall i :: 0 <= i < |s| ==> r[i] == s[i] - s[0]
  {
    seq(|s|, i requires 0 <= i < |s| => s[i] - s[0])
  }

  /** `get notes`: the chord type's offsets above the base. A type that is
      not a table key makes `ChordTypes[type].map` throw. */
  function Notes(a: Attrs): (r: Result<seq<int>>)
    ensures r.Ok? <==> KindNamed(Type(a)).Some?
    ensures r.Err? ==> r.error == TypeError
    ensures r.Ok? ==>
      var ns := r.value;
      |ns| == 3 && ns[0] == Base(a) && ns[0] < ns[1] < ns[2] < ns[0] + 12
      && Offsets(ns) == Intervals(KindNamed(Type(a)).value)
  {
    match KindNamed(Type(a))
    case None => Err(TypeError)
    case Some(t) => Ok(Triad(t, Base(a)))
  }

  /** The triad of type `t` on `base`. */
  function Triad(t: ChordType, base: int): (ns: seq<int>)
    ensures |ns| == 3 && ns[0] == base && ns[0] < ns[1] < ns[2] < ns[0] + 12
    ensures Offsets(ns) == Intervals(t)
  {
    var ns := Shift(Intervals(t), base);
    assert Offsets(ns) == Intervals(t);
    ns
  }

  /** The notes give the chord back: their offsets classify as its type,
      the lowest names its root and lies in its octave. */
  lemma NotesDetermineChord(a: Attrs)
    requires Root(a) in NOTES && Octave(a) >= -1 && KindNamed(Type(a)).Some?
    ensures var ns := Notes(a).value;
      && FindChordType(Offsets(ns)) == Ok(KindNamed(Type(a)).value)
      && Name(FindChordType(Offsets(ns)).value) == Type(a)
      && NumberToNote(ns[0]) == Some(Root(a))
      && ns[0] / 12 - 1 == Octave(a)
  {
    var t := KindNamed(Type(a)).value;
    var ns := Notes(a).value;
    FindChordTypeOfIntervals(t);
    var pc, o := NoteToNumber(Root(a)), Octave(a);
    assert ns[0] == (o + 1) * 12 + pc;
    assert ns[0] / 12 == o + 1 && ns[0] % 12 == pc;
    NumberToNoteOfPitchClass(pc);
  }

  /** Two chords with table roots, octaves from -1 up and table types have
      the same notes only when they read the same. */
  lemma NotesInjective(a: Attrs, b: Attrs)
    requires Root(a) in NOTES && Octave(a) >= -1 && KindNamed(Type(a)).Some?
    requires Root(b) in NOTES && Octave(b) >= -1 && KindNamed(Type(b)).Some?
    requires Notes(a) == Notes(b)
    ensures Root(a) == Root(b) && Octave(a) == Octave(b) && Type(a) == Type(b)
  {
    NotesDetermineChord(a);
    NotesDetermineChord(b);
  }

  /** C in octave 4: major is [60, 64, 67], minor [60, 63, 67]. */
  lemma MiddleC()
    ensures Notes(BLANK) == Ok([60, 64, 67])
    ensures Notes(BLANK.(kind := Some("minor"))) == Ok([60, 63, 67])
  {
    assert NoteToNumber("C") == 0;
    assert Base(BLANK) == 60;
    assert Base(BLANK.(kind := Some("minor"))) == 60;
    assert Triad(Major, 60) == [60, 64, 67];
    assert Triad(Minor, 60) == [60, 63, 67];
  }

  // ---- pressing and releasing ----

  /** The press state: how many release listeners are armed (one pair of
      `pointerup`/`pointerleave` listeners per press, removed together by
      their abort controller) and the app calls made so far. */
  datatype Arming = Arming(armed: nat, calls: seq<AppCall>)

  /** The calls one release makes: every armed listener fires once,
      aborts its controller and stops the chord. */
  function Release(s: Arming): Arming
  {
    Arming(0, s.calls + Repeat(StopChord, s.armed))
  }

  /** `onPointerDown` and the armed listeners. A press on the configuration
      button is swallowed; any other press arms a release and plays. Either
      release event fires the armed listeners; with none armed it does
      nothing. */
  function OnPointer(s: Arming, e: Pointer): Arming
  {
    match e
    case Down(onConfig) => if onConfig then s else Arming(s.armed + 1, s.calls + [PlayChord])
    case Up => Release(s)
    case Leave => Release(s)
  }

  /** Every play is matched by a stop made or still armed. */
  ghost predicate Balanced(s: Arming)
  {
    Occurrences(s.calls, PlayChord) == Occurrences(s.calls, StopChord) + s.armed
  }

  /** Pointer events keep the chord balanced. */
  lemma OnPointerKeepsBalance(s: Arming, e: Pointer)
    requires Balanced(s)
    ensures Balanced(OnPointer(s, e))
  {
    match e
    case Down(onConfig) =>
      if !onConfig {
        OccurrencesAppend(s.calls, [PlayChord], PlayChord);
        OccurrencesAppend(s.calls, [PlayChord], StopChord);
        assert [PlayChord][..0] == [];
      }
    case _ =>
      OccurrencesAppend(s.calls, Repeat(StopChord, s.armed), PlayChord);
      OccurrencesAppend(s.calls, Repeat(StopChord, s.armed), StopChord);
      OccurrencesRepeat(StopChord, s.armed, PlayChord);
      OccurrencesRepeat(StopChord, s.armed, StopChord);
  }

  /** A press then a release plays once and stops once, whichever release
      event comes first; the other one, arriving later, does nothing. */
  lemma OneShot(calls: seq<AppCall>, first: Pointer, second: Pointer)
    requires !first.Down? && !second.Down?
    ensures var pressed := OnPointer(Arming(0, calls), Down(false));
      && OnPointer(pressed, first) == Arming(0, calls + [PlayChord, StopChord])
      && OnPointer(OnPointer(pressed, first), second) == Arming(0, calls + [PlayChord, StopChord])
  {
    assert Repeat(StopChord, 1) == [StopChord];
    assert calls + [PlayChord] + [StopChord] == calls + [PlayChord, StopChord];
    assert calls + [PlayChord, StopChord] + Repeat(StopChord, 0) == calls + [PlayChord, StopChord];
  }

  /** A press on the configuration button neither plays nor arms. */
  lemma ConfigPressIgnored(s: Arming)
    ensures OnPointer(s, Down(true)) == s
  {
  }

  // ---- the label ----

  /** `TYPE_SUFFIX[type]`: `undefined` for a name that is not a key. */
  function TypeSuffix(kind: string): (r: Option<string>)
    ensures r.Some? <==> KindNamed(kind).Some?
  {
    match KindNamed(kind)
    case None => None
    case Some(t) => Some(Suffix(t))
  }

  function Suffix(t: ChordType): string
  {
    match t
    case Major => ""
    case Minor => "m"
    case Augmented => "+"
    case Diminished => "<sup>o</sup>"
  }

  /** `formatLabel`: the root followed by the type's suffix, in a template
      literal, so an unknown type shows as "undefined". */
  function FormatLabel(a: Attrs): (r: string)
    ensures |r| >= |Root(a)| && r[..|Root(a)|] == Root(a)
    ensures KindNamed(Type(a)).Some? ==> r == Root(a) + Suffix(KindNamed(Type(a)).value)
    ensures KindNamed(Type(a)).None? ==> r == Root(a) + "undefined"
  {
    Root(a) + Stringify(TypeSuffix(Type(a)))
  }

  /** A text that does not start with a sharp or a flat. */
  predicate NoAccidental(s: string)
  {
    s == [] || (s[0] != '\U{266F}' && s[0] != '\U{266D}')
  }

  /** The table name at the head of `s`: two characters when they make a
      name, one otherwise. */
  function SplitRoot(s: string): Option<(string, string)>
  {
    if |s| >= 2 && s[..2] in NOTES then Some((s[..2], s[2..]))
    else if |s| >= 1 && s[..1] in NOTES then Some((s[..1], s[1..]))
    else None
  }

  /** The chord type whose suffix starts `s`, major when none does. */
  function SplitSuffix(s: string): (ChordType, string)
  {
    if |s| >= 12 && s[..12] == "<sup>o</sup>" then (Diminished, s[12..])
    else if |s| >= 1 && s[0] == 'm' then (Minor, s[1..])
    else if |s| >= 1 && s[0] == '+' then (Augmented, s[1..])
    else (Major, s)
  }

  /** Reading a label back. */
  function ParseLabel(text: string): Option<(string, ChordType)>
  {
    match SplitRoot(text)
    case None => None
    case Some((root, rest)) =>
      var (t, tail) := SplitSuffix(rest);
      if tail == [] then Some((root, t)) else None
  }

  lemma RootNames()
    ensures forall i :: 0 <= i < 12 ==> 1 <= |NOTES[i]| <= 2
    ensures forall i :: 0 <= i < 12 && |NOTES[i]| == 2 ==> !NoAccidental(NOTES[i][1..])
  {
  }

  /** A table name followed by text without an accidental splits there. */
  lemma SplitRootOf(i: int, rest: string)
    requires 0 <= i < 12 && NoAccidental(rest)
    ensures SplitRoot(NOTES[i] + rest) == Some((NOTES[i], rest))
  {
    RootNames();
    var s := NOTES[i] + rest;
    assert s[..|NOTES[i]|] == NOTES[i] && s[|NOTES[i]|..] == rest;
    if |NOTES[i]| == 1 && |s| >= 2 {
      assert s[..2] == NOTES[i] + [rest[0]];
      assert s[..2] !in NOTES;
    }
  }

  /** Text that starts with none of the suffixes. */
  predicate NoSuffix(s: string)
  {
    s == [] || (s[0] != 'm' && s[0] != '+' && s[0] != '<')
  }

  /** A suffix followed by text that starts with no suffix splits there. */
  lemma SplitSuffixOf(t: ChordType, rest: string)
    requires NoSuffix(rest)
    ensures SplitSuffix(Suffix(t) + rest) == (t, rest)
  {
    var s := Suffix(t) + rest;
    assert |s| >= 12 ==> s[..12][0] == s[0];
    match t
    case Major => assert s == rest;
    case Minor => assert s[0] == 'm' && s[1..] == rest;
    case Augmented => assert s[0] == '+' && s[1..] == rest;
    case Diminished => assert s[..12] == Suffix(t) && s[12..] == rest;
  }

  /** The label of a chord with a table root and a table type reads back
      as that root and type. */
  lemma LabelRoundTrip(a: Attrs)
    requires Root(a) in NOTES && KindNamed(Type(a)).Some?
    ensures ParseLabel(FormatLabel(a)) == Some((Root(a), KindNamed(Type(a)).value))
  {
    var t := KindNamed(Type(a)).value;
    var i := NoteToNumber(Root(a));
    SplitSuffixOf(t, []);
    assert Suffix(t) + [] == Suffix(t);
    assert Suffix(t) == [] || Suffix(t)[0] in {'m', '+', '<'};
    SplitRootOf(i, Suffix(t));
  }

  /** The chord element's state. */
  class Chord {
    var attrs: Attrs
    var press: Arming

    ghost predicate Valid()
      reads this
    {
      Balanced(press)
    }

    constructor()
      ensures Valid()
      ensures attrs == BLANK && press == Arming(0, [])
    {
      attrs := BLANK;
      press := Arming(0, []);
    }

    method SetOctave(octave: int)
      modifies this
      ensures attrs == WithOctave(old(attrs), octave) && press == old(press)
    {
      attrs := WithOctave(attrs, octave);
    }

    method SetRoot(root: Option<string>)
      modifies this
      ensures attrs == WithRoot(old(attrs), root) && press == old(press)
    {
      attrs := WithRoot(attrs, root);
    }

    method SetType(kind: string)
      modifies this
      ensures attrs == WithType(old(attrs), kind) && press == old(press)
    {
      attrs := WithType(attrs, kind);
    }

    /** `onPointerDown`. */
    method PointerDown(onConfig: bool)
      requires Valid()
      modifies this
      ensures Valid()
      ensures press == OnPointer(old(press), Down(onConfig)) && attrs == old(attrs)
    {
      OnPointerKeepsBalance(press, Down(onConfig));
      if onConfig {
        return;
      }
      press := Arming(press.armed + 1, press.calls + [PlayChord]);
    }

    /** A `pointerup` or `pointerleave`: each armed listener in turn aborts
        its controller, which removes its partner, and stops the chord. */
    method PointerRelease(e: Pointer)
      requires Valid() && !e.Down?
      modifies this
      ensures Valid()
      ensures press == OnPointer(old(press), e) && attrs == old(attrs)
    {
      OnPointerKeepsBalance(press, e);
      var armed, fired := press.armed, 0;
      while fired < armed
        invariant 0 <= fired <= old(press.armed)
        invariant press == Arming(old(press.armed) - fired, old(press.calls) + Repeat(StopChord, fired))
        invariant attrs == old(attrs)
      {
        press := Arming(press.armed - 1, press.calls + [StopChord]);
        fired := fired + 1;
      }
    }
  }
}
