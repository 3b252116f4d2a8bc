/** The layout element of the component version (components/layout.ts): it
    fills itself with chord elements, either the circle of fifths (twelve
    major chords a fifth apart, then their twelve relative minors) or the
    seven triads of a scale. The scale-degree triad computation defined here
    is the same in every version and is used by the other layouts too. */
module Layout {
  import opened Js
  import opened Music
  import ChordModel

  const DEFAULT_ROOT: string := "C"
  const DEFAULT_OCTAVE: int := 4

  /** The layout element's attributes. */
  datatype LayoutAttrs = LayoutAttrs(root: Option<string>, octave: Option<string>, kind: Option<string>)

  function Octave(a: LayoutAttrs): (r: int)
    ensures a.octave.None? ==> r == DEFAULT_OCTAVE
    ensures r != 0
  {
    NumberOr(a.octave, DEFAULT_OCTAVE)
  }

  function Root(a: LayoutAttrs): (r: string)
    ensures r != ""
    ensures a.root.None? || a.root == Some("") ==> r == DEFAULT_ROOT
    ensures a.root.Some? && a.root.value != "" ==> r == a.root.value
  {
    StringOr(a.root, DEFAULT_ROOT)
  }

  // ---- the circle of fifths ----

  /** Pitch class arithmetic behind the circle: five steps of a fourth are
      undone by multiplying by five, because 5 * 5 = 25 is 1 more than 24. */
  lemma FifthsInverse(b: int, i: int)
    requires 0 <= b < 12 && 0 <= i < 12
    ensures (5 * ((b + 5 * i) % 12 - b)) % 12 == i
  {
    var p, k := (b + 5 * i) % 12, (b + 5 * i) / 12;
    DivModTwelve(b + 5 * i, k, p);
    assert 5 * (p - b) == 12 * (2 * i - 5 * k) + i;
    DivModTwelve(5 * (p - b), 2 * i - 5 * k, i);
  }

  /** ... and every pitch class `t` is reached, at step `5 * (t - b) % 12`. */
  lemma FifthsReach(b: int, t: int)
    requires 0 <= b < 12 && 0 <= t < 12
    ensures var i := (5 * (t - b)) % 12; 0 <= i < 12 && (b + 5 * i) % 12 == t
  {
    var i, k := (5 * (t - b)) % 12, (5 * (t - b)) / 12;
    DivModTwelve(5 * (t - b), k, i);
    assert b + 5 * i == 12 * (2 * (t - b) - 5 * k) + t;
    DivModTwelve(b + 5 * i, 2 * (t - b) - 5 * k, t);
  }

  /** Chord `index` of `generateFifths` on the pitch class `base`: octave,
      type, then the root `numberToNote(base + 5 * index)`, and `--index`. */
  function FifthsChord(octave: int, base: int, kind: string, index: int): ChordModel.Attrs
  {
    var c := ChordModel.WithOctave(ChordModel.BLANK, octave);
    var c := ChordModel.WithType(c, kind);
    var c := ChordModel.WithRoot(c, NumberToNote(base + 5 * index));
    ChordModel.WithIndex(c, index)
  }

  /** The `map` of `generateFifths`: twelve chords a fourth (five
      semitones) apart, from `base`. */
  function Ring(octave: int, base: int, kind: string): (r: seq<ChordModel.Attrs>)
    ensures |r| == 12 && forall i :: 0 <= i < 12 ==> r[i] == FifthsChord(octave, base, kind, i)
  {
    seq(12, i requires 0 <= i < 12 => FifthsChord(octave, base, kind, i))
  }

  /** `generateFifths`: the ring on the number of `root`: twelve chords
      numbered 0 to 11 by `--index`, with twelve different roots when the
      root is in the table. */
  function GenerateFifths(octave: int, root: string, kind: string): (r: seq<ChordModel.Attrs>)
    ensures |r| == 12 && forall i :: 0 <= i < 12 ==> r[i].index == Some(IntToString(i))
    ensures NoteToNumber(root) >= 0 ==>
      forall i, j :: 0 <= i < j < 12 ==> ChordModel.Root(r[i]) != ChordModel.Root(r[j])
  {
    if NoteToNumber(root) >= 0 then
      RingPermutation(octave, NoteToNumber(root), kind);
      Ring(octave, NoteToNumber(root), kind)
    else
      Ring(octave, NoteToNumber(root), kind)
  }

  /** Chord `i` of the ring on a pitch class has the root `5 * i`
      semitones up. */
  lemma RingRoot(octave: int, b: int, kind: string, i: int)
    requires 0 <= b < 12 && 0 <= i < 12
    ensures ChordModel.Root(Ring(octave, b, kind)[i]) == NOTES[(b + 5 * i) % 12]
  {
    assert NumberToNote(b + 5 * i) == Some(NOTES[(b + 5 * i) % 12]);
    NotesNonEmpty();
  }

  /** Chord `i` of the ring on a pitch class reads as the root `5 * i`
      semitones up, in the given octave and of the given type, with index
      `i`. */
  lemma RingChordReads(octave: int, b: int, kind: string, i: int)
    requires 0 <= b < 12 && octave != 0 && kind != "" && 0 <= i < 12
    ensures var c := Ring(octave, b, kind)[i];
      && ChordModel.Root(c) == NOTES[(b + 5 * i) % 12]
      && ChordModel.Octave(c) == octave
      && ChordModel.Type(c) == kind
      && c.index == Some(IntToString(i))
  {
    RingRoot(octave, b, kind, i);
    ChordModel.OctaveReadBack(ChordModel.BLANK, octave);
  }

  /** Chord `i` of `generateFifths` on a table root reads as the root
      `5 * i` semitones up, in the given octave and of the given type,
      with index `i`. */
  lemma FifthsChordReads(octave: int, root: string, kind: string, i: int)
    requires NoteToNumber(root) >= 0 && octave != 0 && kind != "" && 0 <= i < 12
    ensures var c := GenerateFifths(octave, root, kind)[i];
      && ChordModel.Root(c) == NOTES[(NoteToNumber(root) + 5 * i) % 12]
      && ChordModel.Octave(c) == octave
      && ChordModel.Type(c) == kind
      && c.index == Some(IntToString(i))
  {
    RingChordReads(octave, NoteToNumber(root), kind, i);
  }

  /** Different steps of the circle land on different pitch classes. */
  lemma FifthsStepsDiffer(b: int, i: int, j: int)
    requires 0 <= b < 12 && 0 <= i < j < 12
    ensures (b + 5 * i) % 12 != (b + 5 * j) % 12
  {
    FifthsInverse(b, i);
    FifthsInverse(b, j);
  }

  /** Different pitch classes have different names. */
  lemma NamesDiffer(p: int, q: int)
    requires 0 <= p < 12 && 0 <= q < 12 && p != q
    ensures NOTES[p] != NOTES[q]
  {
    NotesDistinct();
    if p > q {
      assert NOTES[q] != NOTES[p];
    }
  }

  /** Two different chords of the ring have different roots. */
  lemma RingRootsDiffer(octave: int, b: int, kind: string, i: int, j: int)
    requires 0 <= b < 12 && 0 <= i < j < 12
    ensures ChordModel.Root(Ring(octave, b, kind)[i]) != ChordModel.Root(Ring(octave, b, kind)[j])
  {
    RingRoot(octave, b, kind, i);
    RingRoot(octave, b, kind, j);
    FifthsStepsDiffer(b, i, j);
    NamesDiffer((b + 5 * i) % 12, (b + 5 * j) % 12);
  }

  /** On a pitch class the twelve roots of the ring are the twelve pitch
      names, each once. */
  lemma RingPermutation(octave: int, b: int, kind: string)
    requires 0 <= b < 12
    ensures forall i, j :: 0 <= i < j < 12 ==>
      ChordModel.Root(Ring(octave, b, kind)[i]) != ChordModel.Root(Ring(octave, b, kind)[j])
    ensures forall t :: 0 <= t < 12 ==>
      0 <= (5 * (t - b)) % 12 < 12 && ChordModel.Root(Ring(octave, b, kind)[(5 * (t - b)) % 12]) == NOTES[t]
  {
    forall i, j | 0 <= i < j < 12
      ensures ChordModel.Root(Ring(octave, b, kind)[i]) != ChordModel.Root(Ring(octave, b, kind)[j])
    {
      RingRootsDiffer(octave, b, kind, i, j);
    }
    forall t | 0 <= t < 12
      ensures ChordModel.Root(Ring(octave, b, kind)[(5 * (t - b)) % 12]) == NOTES[t]
    {
      RingCovers(octave, b, kind, t);
    }
  }

  /** Pitch name `t` is the root of chord `5 * (t - b) % 12` of the ring. */
  lemma RingCovers(octave: int, b: int, kind: string, t: int)
    requires 0 <= b < 12 && 0 <= t < 12
    ensures ChordModel.Root(Ring(octave, b, kind)[(5 * (t - b)) % 12]) == NOTES[t]
  {
    FifthsReach(b, t);
    RingRoot(octave, b, kind, (5 * (t - b)) % 12);
  }

  /** On a table root the twelve roots of `generateFifths` are the twelve
      pitch names, each once. */
  lemma FifthsPermutation(octave: int, root: string, kind: string)
    requires NoteToNumber(root) >= 0
    ensures var r := GenerateFifths(octave, root, kind);
      && (forall i, j :: 0 <= i < j < 12 ==> ChordModel.Root(r[i]) != ChordModel.Root(r[j]))
      && (forall t :: 0 <= t < 12 ==> exists i :: 0 <= i < 12 && ChordModel.Root(r[i]) == NOTES[t])
  {
    var b := NoteToNumber(root);
    RingPermutation(octave, b, kind);
    forall t | 0 <= t < 12
      ensures exists i :: 0 <= i < 12 && ChordModel.Root(GenerateFifths(octave, root, kind)[i]) == NOTES[t]
    {
      var i := (5 * (t - b)) % 12;
      assert ChordModel.Root(GenerateFifths(octave, root, kind)[i]) == NOTES[t];
    }
  }

  /** The root of the minor ring: `numberToNote(noteToNumber(root) + 9)`. */
  function RelativeMinor(root: string): (r: string)
    ensures NoteToNumber(r) == (NoteToNumber(root) + 9) % 12
  {
    var k := NoteToNumber(root) + 9;
    NumberToNoteToNumber(k);
    Stringify(NumberToNote(k))
  }

  /** The "fifths" layout: the major ring on the root, then the minor ring
      on its relative minor, 9 semitones up. */
  function Fifths(octave: int, root: string): (r: seq<ChordModel.Attrs>)
    ensures var b := NoteToNumber(root);
      r == Ring(octave, b, "major") + Ring(octave, (b + 9) % 12, "minor")
  {
    GenerateFifths(octave, root, "major") + GenerateFifths(octave, RelativeMinor(root), "minor")
  }

  // ---- scale-degree triads ----

  /** The offsets, above degree `i`, of degrees `i`, `i + 2` and `i + 4`
      (wrapping around the scale), reduced into one octave. */
  function DegreeTriad(scale: seq<int>, i: int): (r: seq<int>)
    requires 0 <= i < |scale|
    ensures |r| == 3 && r[0] == 0
  {
    var n := |scale|;
    SmallMod(i, n);
    [Rem(scale[i % n] + 12 - scale[i], 12),
     Rem(scale[(i + 2) % n] + 12 - scale[i], 12),
     Rem(scale[(i + 4) % n] + 12 - scale[i], 12)]
  }

  lemma SmallMod(i: int, n: int)
    requires 0 <= i < n
    ensures i % n == i
  {
  }

  /** The chord type of degree `i`; it throws when the triad is not a
      table entry. */
  function DegreeType(scale: seq<int>, i: int): Result<ChordType>
    requires 0 <= i < |scale|
  {
    FindChordType(DegreeTriad(scale, i))
  }

  /** The chord types of the degrees of the harmonic minor scale. */
  const HARMONIC_QUALITIES: seq<ChordType> :=
    [Minor, Diminished, Augmented, Minor, Major, Major, Diminished]

  lemma HarmonicMinorQualities()
    ensures forall i :: 0 <= i < 7 ==> DegreeType(SCALE_MINOR_HARMONIC, i) == Ok(HARMONIC_QUALITIES[i])
  {
    forall i | 0 <= i < 7
      ensures DegreeType(SCALE_MINOR_HARMONIC, i) == Ok(HARMONIC_QUALITIES[i])
    {
      var t := HARMONIC_QUALITIES[i];
      assert DegreeTriad(SCALE_MINOR_HARMONIC, i) == Intervals(t);
      FindChordTypeOfIntervals(t);
    }
  }

  /** Chord `i` of `generateTriads` on `base`, once its type `t` is found:
      the root, the octave, then the type. */
  function TriadChord(scale: seq<int>, octave: int, base: int, i: int, t: ChordType): ChordModel.Attrs
    requires 0 <= i < |scale|
  {
    var c := ChordModel.WithRoot(ChordModel.BLANK, NumberToNote(Rem(scale[i] + base, 12)));
    var c := ChordModel.WithOctave(c, octave);
    ChordModel.WithType(c, Name(t))
  }

  /** The `map` of `generateTriads` over the degrees of `scale`: it throws
      as soon as one degree's type is not found, and every such exception
      is the same one, so the result is the chords when all types are
      found and that exception otherwise. */
  function TriadsOf(scale: seq<int>, octave: int, base: int): Result<seq<ChordModel.Attrs>>
  {
    if forall k :: 0 <= k < |scale| ==> DegreeType(scale, k).Ok? then
      Ok(seq(|scale|, k requires 0 <= k < |scale| => TriadChord(scale, octave, base, k, DegreeType(scale, k).value)))
    else
      Err(NO_MATCH)
  }

  /** `generateTriads`: whatever `type` it is given, the harmonic minor
      scale on `root`. It never throws, whatever the root: seven chords of
      the harmonic-minor types. */
  function GenerateTriads(octave: int, root: string, kind: string): (r: Result<seq<ChordModel.Attrs>>)
    ensures r.Ok? && |r.value| == 7
    ensures forall i :: 0 <= i < 7 ==> ChordModel.Type(r.value[i]) == Name(HARMONIC_QUALITIES[i])
  {
    HarmonicMinorQualities();
    TriadsOfTypes(SCALE_MINOR_HARMONIC, octave, NoteToNumber(root), HARMONIC_QUALITIES);
    TriadsOf(SCALE_MINOR_HARMONIC, octave, NoteToNumber(root))
  }

  /** Whether the triads throw depends on the scale alone: when every
      degree's type is found they are one chord per degree, of that type,
      whatever the base and the octave. */
  lemma TriadsOfTypes(scale: seq<int>, octave: int, base: int, types: seq<ChordType>)
    requires |types| == |scale|
    requires forall k :: 0 <= k < |scale| ==> DegreeType(scale, k) == Ok(types[k])
    ensures var r := TriadsOf(scale, octave, base);
      && r.Ok? && |r.value| == |scale|
      && forall k :: 0 <= k < |scale| ==> ChordModel.Type(r.value[k]) == Name(types[k])
  {
    var r := TriadsOf(scale, octave, base);
    forall k | 0 <= k < |scale|
      ensures ChordModel.Type(r.value[k]) == Name(types[k])
    {
      assert r.value[k] == TriadChord(scale, octave, base, k, types[k]);
    }
  }

  /** A chord built on a non-negative degree of a scale reads back its
      type, the root that many semitones above `base`, and the octave. */
  lemma TriadChordReads(scale: seq<int>, octave: int, base: int, i: int, t: ChordType)
    requires 0 <= i < |scale| && scale[i] >= 0 && base >= 0 && octave != 0
    ensures var c := TriadChord(scale, octave, base, i, t);
      && ChordModel.Type(c) == Name(t)
      && ChordModel.Root(c) == NOTES[(scale[i] + base) % 12]
      && ChordModel.Octave(c) == octave
  {
    var n := scale[i] + base;
    assert NumberToNote(Rem(n, 12)) == Some(NOTES[n % 12]);
    NotesNonEmpty();
    var c := ChordModel.WithRoot(ChordModel.BLANK, NumberToNote(Rem(n, 12)));
    ChordModel.OctaveReadBack(c, octave);
  }

  /** When every degree's type is found, `TriadsOf` is one chord per
      degree, reading back the found type, the root that degree's offset
      above `base`, and the octave. */
  lemma TriadsOfFound(scale: seq<int>, octave: int, base: int, types: seq<ChordType>)
    requires |types| == |scale| && base >= 0 && octave != 0
    requires forall k :: 0 <= k < |scale| ==> scale[k] >= 0 && DegreeType(scale, k) == Ok(types[k])
    ensures var r := TriadsOf(scale, octave, base);
      && r.Ok? && |r.value| == |scale|
      && forall k :: 0 <= k < |scale| ==>
        && ChordModel.Type(r.value[k]) == Name(types[k])
        && ChordModel.Root(r.value[k]) == NOTES[(scale[k] + base) % 12]
        && ChordModel.Octave(r.value[k]) == octave
  {
    var r := TriadsOf(scale, octave, base);
    forall k | 0 <= k < |scale|
      ensures ChordModel.Type(r.value[k]) == Name(types[k])
      ensures ChordModel.Root(r.value[k]) == NOTES[(scale[k] + base) % 12]
      ensures ChordModel.Octave(r.value[k]) == octave
    {
      assert r.value[k] == TriadChord(scale, octave, base, k, types[k]);
      TriadChordReads(scale, octave, base, k, types[k]);
    }
  }

  /** The triads never throw: seven chords, with the harmonic-minor types,
      roots on the scale degrees and the given octave. */
  lemma TriadsRead(octave: int, root: string, kind: string)
    requires NoteToNumber(root) >= 0 && octave != 0
    ensures var r := GenerateTriads(octave, root, kind);
      && r.Ok? && |r.value| == 7
      && forall i :: 0 <= i < 7 ==>
        && ChordModel.Type(r.value[i]) == Name(HARMONIC_QUALITIES[i])
        && ChordModel.Root(r.value[i]) == NOTES[(SCALE_MINOR_HARMONIC[i] + NoteToNumber(root)) % 12]
        && ChordModel.Octave(r.value[i]) == octave
  {
    HarmonicMinorQualities();
    ScalesWellFormed();
    TriadsOfFound(SCALE_MINOR_HARMONIC, octave, NoteToNumber(root), HARMONIC_QUALITIES);
  }

  /** "triads-major" and "triads-minor" give the same chords. */
  lemma TriadsIgnoreKind(octave: int, root: string)
    ensures GenerateTriads(octave, root, "major") == GenerateTriads(octave, root, "minor")
  {
  }

  // ---- the element ----

  /** What `generate` puts in the element, by the `type` attribute, which
      has no default: nothing for a missing or unknown type. It never
      throws, and both triads types show the same chords. */
  function Generated(a: LayoutAttrs): (r: Result<seq<ChordModel.Attrs>>)
    ensures r.Ok?
    ensures a.kind == Some("triads-major") || a.kind == Some("triads-minor") ==>
      r == GenerateTriads(Octave(a), Root(a), "major")
  {
    match a.kind
    case Some("fifths") => Ok(Fifths(Octave(a), Root(a)))
    case Some("triads-major") => GenerateTriads(Octave(a), Root(a), "major")
    case Some("triads-minor") => GenerateTriads(Octave(a), Root(a), "minor")
    case _ => Ok([])
  }

  /** Whatever the root, the known types give 24, 7 and 7 chords, every
      other type none. */
  lemma GeneratedSizes(a: LayoutAttrs)
    ensures a.kind == Some("fifths") ==> |Generated(a).value| == 24
    ensures a.kind == Some("triads-major") || a.kind == Some("triads-minor") ==> |Generated(a).value| == 7
    ensures a.kind != Some("fifths") && a.kind != Some("triads-major") && a.kind != Some("triads-minor")
      ==> Generated(a).value == []
  {
  }

  class Layout {
    var attrs: LayoutAttrs
    var children: seq<ChordModel.Attrs>

    constructor()
      ensures attrs == LayoutAttrs(None, None, None) && children == []
    {
      attrs := LayoutAttrs(None, None, None);
      children := [];
    }

    /** `generate`: replaces the children with what the type generates;
        building them never throws (see `Generated`). */
    method Generate()
      modifies this
      ensures attrs == old(attrs)
      ensures children == Generated(attrs).value
    {
      children := Generated(attrs).value;
    }

    /** Setting the `type` attribute regenerates the layout. */
    method SetType(kind: string)
      modifies this
      ensures attrs == old(attrs).(kind := Some(kind))
      ensures children == Generated(attrs).value
    {
      attrs := attrs.(kind := Some(kind));
      Generate();
    }

    /** Setting the `root` attribute regenerates the layout. */
    method SetRoot(root: string)
      modifies this
      ensures attrs == old(attrs).(root := Some(root))
      ensures children == Generated(attrs).value
    {
      attrs := attrs.(root := Some(root));
      Generate();
    }

    /** Setting the `octave` attribute regenerates the layout. */
    method SetOctave(octave: int)
      modifies this
      ensures attrs == old(attrs).(octave := Some(IntToString(octave)))
      ensures children == Generated(attrs).value
    {
      attrs := attrs.(octave := Some(IntToString(octave)));
      Generate();
    }
  }
}
