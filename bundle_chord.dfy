/** The chord element of the bundled version (index.js): the component
    chord with an optional seventh on top, a JSON form it is saved and
    restored through, a clone that forgets its place in a layout, and a
    label that names the seventh too. */
module BundleChord {
  import opened Js
  import opened Music
  import ChordModel

  /** The element's attributes: root, octave, type and `--index` as in the
      component chord, then the `seventh` attribute and the `data-circle`
      entry a fifths layout sets. */
  datatype Attrs = Attrs(base: ChordModel.Attrs, seventh: Option<string>, circle: Option<string>)

  /** A freshly created chord element. */
  const BLANK: Attrs := Attrs(ChordModel.BLANK, None, None)

  /** A value JavaScript treats as true in a condition: a string that is
      present and not empty. */
  predicate Truthy(s: Option<string>)
  {
    s.Some? && s.value != ""
  }

  // ---- getters and setters ----

  function Octave(a: Attrs): int { ChordModel.Octave(a.base) }
  function Root(a: Attrs): string { ChordModel.Root(a.base) }
  function Type(a: Attrs): string { ChordModel.Type(a.base) }

  function WithOctave(a: Attrs, octave: int): Attrs { a.(base := ChordModel.WithOctave(a.base, octave)) }
  function WithRoot(a: Attrs, root: Option<string>): Attrs { a.(base := ChordModel.WithRoot(a.base, root)) }
  function WithType(a: Attrs, kind: string): Attrs { a.(base := ChordModel.WithType(a.base, kind)) }

  /** `set seventh`: a truthy value is set, anything else (`null`,
      `undefined`, the empty string) removes the attribute. */
  function WithSeventh(a: Attrs, seventh: Option<string>): (r: Attrs)
    ensures r.base == a.base && r.circle == a.circle
    ensures Truthy(r.seventh) <==> Truthy(seventh)
    ensures r.seventh == seventh || r.seventh.None?
  {
    a.(seventh := if Truthy(seventh) then seventh else None)
  }

  /** The seventh setter keeps a truthy value and removes a falsy one; the
      other getters read as before. */
  lemma SeventhReadBack(a: Attrs, seventh: Option<string>)
    ensures Truthy(seventh) ==> WithSeventh(a, seventh).seventh == seventh
    ensures !Truthy(seventh) ==> WithSeventh(a, seventh).seventh == None
    ensures var b := WithSeventh(a, seventh);
      Octave(b) == Octave(a) && Root(b) == Root(a) && Type(b) == Type(a)
  {
  }

  // ---- the sevenths ----

  datatype Seventh = DiminishedSeventh | MinorSeventh | MajorSeventh

  /** The key of `Sevenths` and `SEVENTH_SUFFIX` a seventh is stored under. */
  function SeventhName(s: Seventh): string
  {
    match s
    case DiminishedSeventh => "diminished"
    case MinorSeventh => "minor"
    case MajorSeventh => "major"
  }

  /** The seventh a key names, if any. */
  function SeventhNamed(name: string): (r: Option<Seventh>)
    ensures r.Some? ==> SeventhName(r.value) == name
  {
    if name == "diminished" then Some(DiminishedSeventh)
    else if name == "minor" then Some(MinorSeventh)
    else if name == "major" then Some(MajorSeventh)
    else None
  }

  lemma SeventhNamedOfName(s: Seventh)
    ensures SeventhNamed(SeventhName(s)) == Some(s)
  {
  }

  /** `Sevenths[seventh]`: the seventh's distance above the root. */
  function Interval(s: Seventh): (r: int)
    ensures 9 <= r <= 11
  {
    match s
    case DiminishedSeventh => 9
    case MinorSeventh => 10
    case MajorSeventh => 11
  }

  /** Every seventh lies above every triad's fifth, and the three lie apart. */
  lemma IntervalsAboveTriads(s: Seventh, t: ChordType)
    ensures Intervals(t)[2] < Interval(s)
    ensures forall u: Seventh :: Interval(u) == Interval(s) ==> u == s
  {
  }

  /** The seventh the chord is played with: none when the attribute is
      falsy, `None` also for a truthy name that is not a key. */
  function SeventhOf(a: Attrs): Option<Seventh>
  {
    if Truthy(a.seventh) then SeventhNamed(a.seventh.value) else None
  }

  // ---- notes ----

  /** A chord whose `notes` getter returns a list of numbers: a table type,
      and no seventh or a seventh that is a table key. */
  predicate Playable(a: Attrs)
  {
    KindNamed(Type(a)).Some? && (Truthy(a.seventh) ==> SeventhOf(a).Some?)
  }

  /** `get notes`: the triad, with the seventh above the base appended when
      the attribute is truthy. An unknown type throws a TypeError; an
      unknown seventh yields NaN for the fourth note, reported here as
      `NotANumber`. */
  function Notes(a: Attrs): (r: Result<seq<int>>)
    ensures r.Ok? <==> Playable(a)
    ensures r.Err? ==> (r.error == TypeError <==> KindNamed(Type(a)).None?)
    ensures r.Err? ==> r.error == TypeError || r.error == NotANumber
    ensures r.Ok? ==>
      var t := KindNamed(Type(a)).value;
      var ns := r.value;
      && |ns| == (if Truthy(a.seventh) then 4 else 3)
      && ns[0] == ChordModel.Base(a.base)
      && (forall i, j :: 0 <= i < j < |ns| ==> ns[i] < ns[j])
      && ns[|ns| - 1] < ns[0] + 12
      && Offsets(ns) == Intervals(t) + (if Truthy(a.seventh) then [Interval(SeventhOf(a).value)] else [])
  {
    match ChordModel.Notes(a.base)
    case Err(e) => Err(e)
    case Ok(triad) =>
      if !Truthy(a.seventh) then Ok(triad)
      else match SeventhNamed(a.seventh.value)
        case None => Err(NotANumber)
        case Some(s) => Ok(WithSeventhNote(triad, s))
  }

  /** The triad `triad` with the seventh `s` above its root appended. */
  function WithSeventhNote(triad: seq<int>, s: Seventh): (ns: seq<int>)
    requires |triad| == 3 && triad[0] < triad[1] < triad[2]
    requires triad[2] - triad[0] < Interval(s)
    ensures |ns| == 4 && ns[..3] == triad && ns[3] == triad[0] + Interval(s)
    ensures forall i, j :: 0 <= i < j < 4 ==> ns[i] < ns[j]
    ensures Offsets(ns) == Offsets(triad) + [Interval(s)]
  {
    var ns := triad + [triad[0] + Interval(s)];
    assert ns[..3] == triad;
    ns
  }

  /** Each of `s` less its first entry. */
  function Offsets(s: seq<int>): (r: seq<int>)
    requires s != []
    ensures |r| == |s| && forall i :: 0 <= i < |s| ==> r[i] == s[i] - s[0]
  {
    ChordModel.Offsets(s)
  }

  /** The notes give the chord back: the first three classify as its type,
      the fourth, if any, names its seventh, and the lowest names its root
      and lies in its octave. */
  lemma NotesDetermineChord(a: Attrs)
    requires Playable(a) && Root(a) in NOTES && Octave(a) >= -1
    ensures var ns := Notes(a).value;
      && FindChordType(Offsets(ns[..3])) == Ok(KindNamed(Type(a)).value)
      && (|ns| == 4 <==> SeventhOf(a).Some?)
      && (|ns| == 4 ==> ns[3] - ns[0] == Interval(SeventhOf(a).value))
      && NumberToNote(ns[0]) == Some(Root(a))
      && ns[0] / 12 - 1 == Octave(a)
  {
    var ns := Notes(a).value;
    ChordModel.NotesDetermineChord(a.base);
    assert ns[..3] == ChordModel.Notes(a.base).value;
  }

  /** Two playable chords with table roots and octaves from -1 up have the
      same notes only when they read the same and carry the same seventh. */
  lemma NotesInjective(a: Attrs, b: Attrs)
    requires Playable(a) && Root(a) in NOTES && Octave(a) >= -1
    requires Playable(b) && Root(b) in NOTES && Octave(b) >= -1
    requires Notes(a) == Notes(b)
    ensures Root(a) == Root(b) && Octave(a) == Octave(b) && Type(a) == Type(b)
    ensures SeventhOf(a) == SeventhOf(b)
  {
    NotesDetermineChord(a);
    NotesDetermineChord(b);
    var ns := Notes(a).value;
    KindNamedOfName(KindNamed(Type(a)).value);
    KindNamedOfName(KindNamed(Type(b)).value);
    if |ns| == 4 {
      IntervalsAboveTriads(SeventhOf(a).value, Major);
    }
  }

  /** C in octave 4: major is [60, 64, 67], and so it is with an empty
      seventh, which adds nothing; a seventh that is no key gives no list
      of numbers. */
  lemma MiddleC()
    ensures Notes(BLANK) == Ok([60, 64, 67])
    ensures Notes(BLANK.(seventh := Some(""))) == Ok([60, 64, 67])
    ensures Notes(BLANK.(seventh := Some("ninth"))) == Err(NotANumber)
  {
    ChordModel.MiddleC();
    assert SeventhNamed("ninth").None?;
  }

  /** C minor in octave 4 with a minor seventh is [60, 63, 67, 70]. */
  lemma MiddleCMinorSeventh()
    ensures Notes(WithSeventh(WithType(BLANK, "minor"), Some("minor"))) == Ok([60, 63, 67, 70])
  {
    ChordModel.MiddleC();
    var m := WithSeventh(WithType(BLANK, "minor"), Some("minor"));
    assert m.base == ChordModel.BLANK.(kind := Some("minor"));
    assert SeventhOf(m) == Some(MinorSeventh);
    assert WithSeventhNote([60, 63, 67], MinorSeventh) == [60, 63, 67, 70];
  }

  // ---- saving and restoring ----

  /** What `toJSON` returns; `seventh` is `null` when the attribute is
      missing. */
  datatype Json = Json(kind: string, octave: int, root: string, seventh: Option<string>)

  /** `toJSON`: the four getters. */
  function ToJson(a: Attrs): (r: Json)
    ensures r.kind != "" && r.octave != 0 && r.root != ""
    ensures r.seventh == a.seventh
  {
    Json(Type(a), Octave(a), Root(a), a.seventh)
  }

  /** `Chord.fromJSON`: `Object.assign` on a new chord runs the setters for
      type, octave, root and seventh, in that order. */
  function FromJson(d: Json): (r: Attrs)
    ensures Type(r) == (if d.kind != "" then d.kind else ChordModel.DEFAULT_TYPE)
    ensures Octave(r) == (if d.octave != 0 then d.octave else ChordModel.DEFAULT_OCTAVE)
    ensures Root(r) == (if d.root != "" then d.root else ChordModel.DEFAULT_ROOT)
    ensures r.seventh == (if Truthy(d.seventh) then d.seventh else None)
    ensures r.base.index.None? && r.circle.None?
  {
    NumberOfString(d.octave);
    FromJsonSetters(d)
  }

  /** The setters `Object.assign` runs for `fromJSON`, in their order. */
  function FromJsonSetters(d: Json): Attrs
  {
    WithSeventh(WithRoot(WithOctave(WithType(BLANK, d.kind), d.octave), Some(d.root)), d.seventh)
  }

  /** A JSON value that `toJSON` can produce reads back unchanged from the
      chord restored from it. */
  lemma FromJsonRoundTrip(d: Json)
    requires d.kind != "" && d.octave != 0 && d.root != "" && d.seventh != Some("")
    ensures ToJson(FromJson(d)) == d
  {
    NumberOrOfString(d.octave, ChordModel.DEFAULT_OCTAVE);
  }

  /** A chord saved and restored plays the same notes and shows the same
      label, and saves the same again unless its seventh attribute was the
      empty string, which restoring removes. */
  lemma ToJsonRoundTrip(a: Attrs)
    ensures var b := FromJson(ToJson(a));
      Notes(b) == Notes(a) && FormatLabel(b) == FormatLabel(a)
    ensures a.seventh != Some("") ==> ToJson(FromJson(ToJson(a))) == ToJson(a)
    ensures a.seventh == Some("") ==> ToJson(FromJson(ToJson(a))) == ToJson(a).(seventh := None)
  {
    var b := FromJson(ToJson(a));
    NumberOrOfString(Octave(a), ChordModel.DEFAULT_OCTAVE);
    assert Octave(b) == Octave(a) && Root(b) == Root(a) && Type(b) == Type(a);
    assert ChordModel.Base(b.base) == ChordModel.Base(a.base);
    assert SeventhOf(b) == SeventhOf(a) && Truthy(b.seventh) == Truthy(a.seventh);
  }

  // ---- cloning ----

  /** `cloneNode`: a copy without its `--index` and its `data-circle`. */
  function CloneNode(a: Attrs): (r: Attrs)
    ensures r.base.index.None? && r.circle.None?
  {
    Attrs(a.base.(index := None), a.seventh, None)
  }

  /** A clone saves, plays and shows like its original. */
  lemma CloneSame(a: Attrs)
    ensures ToJson(CloneNode(a)) == ToJson(a)
    ensures Notes(CloneNode(a)) == Notes(a)
    ensures FormatLabel(CloneNode(a)) == FormatLabel(a)
  {
    var c := CloneNode(a);
    assert Root(c) == Root(a) && Octave(c) == Octave(a) && Type(c) == Type(a) && c.seventh == a.seventh by {
      assert c.base.root == a.base.root && c.base.octave == a.base.octave && c.base.kind == a.base.kind;
    }
    assert Notes(c) == Notes(a) by {
      assert ChordModel.Notes(c.base) == ChordModel.Notes(a.base) by {
        assert ChordModel.Base(c.base) == ChordModel.Base(a.base);
      }
    }
  }

  // ---- the label ----

  /** `SEVENTH_SUFFIX[seventh]`. */
  function SeventhSuffix(s: Seventh): string
  {
    match s
    case DiminishedSeventh => "6"
    case MinorSeventh => "7"
    case MajorSeventh => "M7"
  }

  /** `formatLabel`: root, type suffix and, for a truthy seventh, its
      suffix, joined with `join("")`, which writes `undefined` as nothing. */
  function FormatLabel(a: Attrs): (r: string)
    ensures KindNamed(Type(a)).Some? && SeventhOf(a).None? ==> r == ChordModel.FormatLabel(a.base)
    ensures KindNamed(Type(a)).Some? && SeventhOf(a).Some? ==>
      r == ChordModel.FormatLabel(a.base) + SeventhSuffix(SeventhOf(a).value)
    ensures KindNamed(Type(a)).None? && SeventhOf(a).None? ==> r == Root(a)
    ensures KindNamed(Type(a)).None? && SeventhOf(a).Some? ==> r == Root(a) + SeventhSuffix(SeventhOf(a).value)
  {
    Root(a) + JoinText(ChordModel.TypeSuffix(Type(a)))
      + (if Truthy(a.seventh) then JoinText(OptionSuffix(SeventhNamed(a.seventh.value))) else "")
  }

  function OptionSuffix(s: Option<Seventh>): Option<string>
  {
    match s
    case None => None
    case Some(v) => Some(SeventhSuffix(v))
  }

  /** A seventh that is not a key leaves no trace in the label. */
  lemma UnknownSeventhHidden(a: Attrs)
    requires Truthy(a.seventh) && SeventhOf(a).None?
    ensures FormatLabel(a) == FormatLabel(a.(seventh := None))
  {
  }

  /** The seventh whose suffix is the whole of `s`; `Some(None)` for the
      empty text. */
  function SplitSeventh(s: string): Option<Option<Seventh>>
  {
    if s == "" then Some(None)
    else if s == "6" then Some(Some(DiminishedSeventh))
    else if s == "7" then Some(Some(MinorSeventh))
    else if s == "M7" then Some(Some(MajorSeventh))
    else None
  }

  /** Reading a label back: root, chord type and seventh. */
  function ParseLabel(text: string): Option<(string, ChordType, Option<Seventh>)>
  {
    match ChordModel.SplitRoot(text)
    case None => None
    case Some((root, rest)) =>
      var (t, tail) := ChordModel.SplitSuffix(rest);
      match SplitSeventh(tail)
      case None => None
      case Some(s) => Some((root, t, s))
  }

  /** The label text after the type suffix. */
  function SeventhTail(s: Option<Seventh>): string
  {
    match s
    case None => ""
    case Some(v) => SeventhSuffix(v)
  }

  /** The seventh suffixes start with none of the type suffixes, and
      neither they nor the type suffixes start with an accidental. */
  lemma SuffixHeads(t: ChordType, s: Option<Seventh>)
    ensures ChordModel.NoSuffix(SeventhTail(s))
    ensures ChordModel.NoAccidental(ChordModel.Suffix(t) + SeventhTail(s))
  {
    var rest := ChordModel.Suffix(t) + SeventhTail(s);
    assert rest == [] || rest[0] in {'m', '+', '<', '6', '7', 'M'};
  }

  /** Each seventh's suffix reads back as that seventh. */
  lemma SplitSeventhOf(s: Option<Seventh>)
    ensures SplitSeventh(SeventhTail(s)) == Some(s)
  {
  }

  /** A table name, a type suffix and a seventh suffix read back as what
      they name. */
  lemma ParseLabelOf(i: int, t: ChordType, s: Option<Seventh>)
    requires 0 <= i < 12
    ensures ParseLabel(NOTES[i] + (ChordModel.Suffix(t) + SeventhTail(s))) == Some((NOTES[i], t, s))
  {
    var rest := ChordModel.Suffix(t) + SeventhTail(s);
    SuffixHeads(t, s);
    ChordModel.SplitSuffixOf(t, SeventhTail(s));
    ChordModel.SplitRootOf(i, rest);
    SplitSeventhOf(s);
  }

  /** The label of a playable chord with a table root reads back as its
      root, its type and its seventh. */
  lemma LabelRoundTrip(a: Attrs)
    requires Playable(a) && Root(a) in NOTES
    ensures ParseLabel(FormatLabel(a)) == Some((Root(a), KindNamed(Type(a)).value, SeventhOf(a)))
  {
    var t := KindNamed(Type(a)).value;
    var i := NoteToNumber(Root(a));
    assert NOTES[i] == Root(a);
    assert FormatLabel(a) == Root(a) + (ChordModel.Suffix(t) + SeventhTail(SeventhOf(a)));
    ParseLabelOf(i, t, SeventhOf(a));
  }

  /** Two playable chords with table roots show the same label only when
      they have the same root, type and seventh. */
  lemma LabelInjective(a: Attrs, b: Attrs)
    requires Playable(a) && Root(a) in NOTES && Playable(b) && Root(b) in NOTES
    requires FormatLabel(a) == FormatLabel(b)
    ensures Root(a) == Root(b) && Type(a) == Type(b) && SeventhOf(a) == SeventhOf(b)
  {
    LabelRoundTrip(a);
    LabelRoundTrip(b);
    KindNamedOfName(KindNamed(Type(a)).value);
    KindNamedOfName(KindNamed(Type(b)).value);
  }

  // ---- the element ----

  /** The chord element's attributes. Pressing and releasing work as in the
      component chord. */
  class Chord {
    var attrs: Attrs

    constructor()
      ensures attrs == BLANK
    {
      attrs := BLANK;
    }

    /** `Chord.fromJSON(data)`. */
    constructor Restore(d: Json)
      ensures attrs == FromJson(d)
    {
      attrs := BLANK;
      new;
      attrs := WithType(attrs, d.kind);
      attrs := WithOctave(attrs, d.octave);
      attrs := WithRoot(attrs, Some(d.root));
      attrs := WithSeventh(attrs, d.seventh);
    }

    method SetOctave(octave: int)
      modifies this
      ensures attrs == WithOctave(old(attrs), octave)
    {
      attrs := WithOctave(attrs, octave);
    }

    method SetRoot(root: Option<string>)
      modifies this
      ensures attrs == WithRoot(old(attrs), root)
    {
      attrs := WithRoot(attrs, root);
    }

    method SetType(kind: string)
      modifies this
      ensures attrs == WithType(old(attrs), kind)
    {
      attrs := WithType(attrs, kind);
    }

    method SetSeventh(seventh: Option<string>)
      modifies this
      ensures attrs == WithSeventh(old(attrs), seventh)
    {
      attrs := WithSeventh(attrs, seventh);
    }

    /** `cloneNode`: a new element; this one is unchanged. */
    method Clone() returns (c: Chord)
      ensures fresh(c) && c.attrs == CloneNode(attrs)
    {
      c := new Chord();
      c.attrs := CloneNode(attrs);
    }
  }
}
