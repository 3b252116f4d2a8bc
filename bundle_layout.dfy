/** The layout element of the bundled version (index.js): the circle of
    fifths, whose chords now also say whether they sit on the large (major)
    or the small (minor) circle, and the triads of three scales, major,
    natural minor and harmonic minor, each chosen by its own layout type. */
module BundleLayout {
  import opened Js
  import opened Music
  import ChordModel
  import BundleChord
  import LaterLayout = Layout

  // ---- the circle of fifths ----

  /** `data-circle`: "large" for the major ring, "small" for any other. */
  function Circle(kind: string): string
  {
    if kind == "major" then "large" else "small"
  }

  /** Chord `index` of `generateFifths` on the pitch class `base`: the
      component chord with its circle. */
  function FifthsChord(octave: int, base: int, kind: string, index: int): BundleChord.Attrs
  {
    BundleChord.Attrs(LaterLayout.FifthsChord(octave, base, kind, index), None, Some(Circle(kind)))
  }

  /** The `map` of `generateFifths`: twelve chords a fourth apart. */
  function Ring(octave: int, base: int, kind: string): (r: seq<BundleChord.Attrs>)
    ensures |r| == 12 && forall i :: 0 <= i < 12 ==> r[i] == FifthsChord(octave, base, kind, i)
  {
    seq(12, i requires 0 <= i < 12 => FifthsChord(octave, base, kind, i))
  }

  /** The bundled ring is the component ring with a circle on every chord. */
  lemma RingExtends(octave: int, base: int, kind: string)
    ensures forall i :: 0 <= i < 12 ==>
      Ring(octave, base, kind)[i].base == LaterLayout.Ring(octave, base, kind)[i]
      && Ring(octave, base, kind)[i].circle == Some(Circle(kind))
      && Ring(octave, base, kind)[i].seventh == None
  {
  }

  /** The major ring on the pitch class `b`, then the minor ring on its
      relative minor, nine semitones up. */
  function FifthsOn(octave: int, b: int): (r: seq<BundleChord.Attrs>)
    ensures |r| == 24
  {
    Ring(octave, b, "major") + Ring(octave, (b + 9) % 12, "minor")
  }

  /** The "fifths" layout: the rings on the root's pitch class and its
      relative minor. */
  function Fifths(octave: int, root: string): (r: seq<BundleChord.Attrs>)
    ensures r == FifthsOn(octave, NoteToNumber(root))
  {
    Ring(octave, NoteToNumber(root), "major") + Ring(octave, NoteToNumber(LaterLayout.RelativeMinor(root)), "minor")
  }

  /** Chord `i` of the ring on a pitch class reads as the root `5 * i`
      semitones up, in the given octave, of the given type, on the type's
      circle, without a seventh, with index `i`. */
  lemma RingReads(octave: int, b: int, kind: string, i: int)
    requires 0 <= b < 12 && octave != 0 && kind != "" && 0 <= i < 12
    ensures var c := Ring(octave, b, kind)[i];
      && BundleChord.Root(c) == NOTES[(b + 5 * i) % 12]
      && BundleChord.Octave(c) == octave
      && BundleChord.Type(c) == kind
      && BundleChord.SeventhOf(c) == None
      && c.base.index == Some(IntToString(i))
      && c.circle == Some(Circle(kind))
  {
    LaterLayout.RingChordReads(octave, b, kind, i);
  }

  /** On a pitch class the fifths layout is 24 chords: chord `k` is major,
      on the large circle, `5 * k` semitones above the pitch class; chord
      `12 + k` is minor, on the small circle, `5 * k` semitones above the
      relative minor; both are in the given octave, without a seventh,
      with index `k`. */
  lemma FifthsRead(octave: int, b: int, k: int)
    requires 0 <= b < 12 && octave != 0 && 0 <= k < 12
    ensures var r := FifthsOn(octave, b);
      && BundleChord.Octave(r[k]) == octave && BundleChord.Octave(r[12 + k]) == octave
      && BundleChord.SeventhOf(r[k]) == None && BundleChord.SeventhOf(r[12 + k]) == None
      && r[k].base.index == Some(IntToString(k)) && r[12 + k].base.index == Some(IntToString(k))
    ensures var r := FifthsOn(octave, b);
      && BundleChord.Type(r[k]) == "major" && r[k].circle == Some("large")
      && BundleChord.Type(r[12 + k]) == "minor" && r[12 + k].circle == Some("small")
    ensures BundleChord.Root(FifthsOn(octave, b)[k]) == NOTES[(b + 5 * k) % 12]
    ensures BundleChord.Root(FifthsOn(octave, b)[12 + k]) == NOTES[(b + 9 + 5 * k) % 12]
  {
    var m := (b + 9) % 12;
    var major, minor := Ring(octave, b, "major"), Ring(octave, m, "minor");
    ConcatIndex(major, minor, k);
    ConcatIndex(major, minor, 12 + k);
    RingReads(octave, b, "major", k);
    RingReads(octave, m, "minor", k);
    var p := (m + 5 * k) % 12;
    assert p == (b + 9 + 5 * k) % 12 by {
      DivModTwelve(b + 9, (b + 9) / 12, m);
      DivModTwelve(m + 5 * k, (m + 5 * k) / 12, p);
      DivModTwelve(b + 9 + 5 * k, (b + 9) / 12 + (m + 5 * k) / 12, p);
    }
  }

  lemma ConcatIndex<T>(a: seq<T>, b: seq<T>, j: int)
    requires 0 <= j < |a| + |b|
    ensures (a + b)[j] == if j < |a| then a[j] else b[j - |a|]
  {
  }

  /** Some chord of `cs` has the pitch name `t` as its root. */
  ghost predicate HasName(cs: seq<BundleChord.Attrs>, t: int)
    requires 0 <= t < 12
  {
    exists i :: 0 <= i < |cs| && BundleChord.Root(cs[i]) == NOTES[t]
  }

  /** Twelve chords whose roots are the twelve pitch names, each once. */
  ghost predicate AllNamesOnce(cs: seq<BundleChord.Attrs>)
  {
    && |cs| == 12
    && (forall i, j :: 0 <= i < j < 12 ==> BundleChord.Root(cs[i]) != BundleChord.Root(cs[j]))
    && (forall t :: 0 <= t < 12 ==> HasName(cs, t))
  }

  /** Each chord of the bundled ring has the root of the component ring's
      chord at the same place. */
  lemma RingRootsAgree(octave: int, b: int, kind: string, i: int)
    requires 0 <= i < 12
    ensures BundleChord.Root(Ring(octave, b, kind)[i]) == ChordModel.Root(LaterLayout.Ring(octave, b, kind)[i])
  {
    assert Ring(octave, b, kind)[i].base == LaterLayout.Ring(octave, b, kind)[i];
  }

  /** On a pitch class the ring holds every pitch name once. */
  lemma RingAllNames(octave: int, b: int, kind: string)
    requires 0 <= b < 12
    ensures AllNamesOnce(Ring(octave, b, kind))
  {
    var r := Ring(octave, b, kind);
    forall i, j | 0 <= i < j < 12
      ensures BundleChord.Root(r[i]) != BundleChord.Root(r[j])
    {
      RingRootsAgree(octave, b, kind, i);
      RingRootsAgree(octave, b, kind, j);
      LaterLayout.RingRootsDiffer(octave, b, kind, i, j);
    }
    forall t | 0 <= t < 12
      ensures HasName(r, t)
    {
      var i := (5 * (t - b)) % 12;
      RingRootsAgree(octave, b, kind, i);
      LaterLayout.RingCovers(octave, b, kind, t);
      assert BundleChord.Root(r[i]) == NOTES[t];
    }
  }

  /** On a pitch class each circle holds the twelve pitch names, each once. */
  lemma FifthsPermutation(octave: int, b: int)
    requires 0 <= b < 12
    ensures AllNamesOnce(FifthsOn(octave, b)[..12]) && AllNamesOnce(FifthsOn(octave, b)[12..])
  {
    var r := FifthsOn(octave, b);
    assert r[..12] == Ring(octave, b, "major");
    assert r[12..] == Ring(octave, (b + 9) % 12, "minor");
    RingAllNames(octave, b, "major");
    RingAllNames(octave, (b + 9) % 12, "minor");
  }

  // ---- scale-degree triads ----

  /** The three scales `generateTriads` knows. */
  datatype ScaleKind = MajorScale | NaturalMinorScale | HarmonicMinorScale

  /** The `type` of `generateTriads` that picks each scale. */
  function ScaleName(k: ScaleKind): string
  {
    match k
    case MajorScale => "major"
    case NaturalMinorScale => "minor-natural"
    case HarmonicMinorScale => "minor-harmonic"
  }

  /** The scale a `type` picks; any other type leaves it `undefined`. */
  function ScaleNamed(kind: string): (r: Option<ScaleKind>)
    ensures r.Some? ==> ScaleName(r.value) == kind
    ensures r.None? ==> kind != "major" && kind != "minor-natural" && kind != "minor-harmonic"
  {
    if kind == "major" then Some(MajorScale)
    else if kind == "minor-natural" then Some(NaturalMinorScale)
    else if kind == "minor-harmonic" then Some(HarmonicMinorScale)
    else None
  }

  function Scale(k: ScaleKind): (r: seq<int>)
    ensures |r| == 7
  {
    match k
    case MajorScale => SCALE_MAJOR
    case NaturalMinorScale => SCALE_MINOR_NATURAL
    case HarmonicMinorScale => SCALE_MINOR_HARMONIC
  }

  /** The component chords, without a seventh or a circle. */
  function Plain(cs: seq<ChordModel.Attrs>): (r: seq<BundleChord.Attrs>)
    ensures |r| == |cs| && forall i :: 0 <= i < |cs| ==> r[i] == BundleChord.Attrs(cs[i], None, None)
  {
    seq(|cs|, i requires 0 <= i < |cs| => BundleChord.Attrs(cs[i], None, None))
  }

  /** The `map` of `generateTriads` over `scale`, as bundled chords. */
  function TriadsOn(scale: seq<int>, octave: int, base: int): Result<seq<BundleChord.Attrs>>
  {
    match LaterLayout.TriadsOf(scale, octave, base)
    case Err(e) => Err(e)
    case Ok(cs) => Ok(Plain(cs))
  }

  /** `generateTriads`: the triads of the scale its type picks, each chord
      getting root, octave and type in that order. A type that picks no
      scale makes `scale.map` throw a TypeError. */
  function GenerateTriads(octave: int, root: string, kind: string): (r: Result<seq<BundleChord.Attrs>>)
    ensures ScaleNamed(kind).None? ==> r == Err(TypeError)
    ensures ScaleNamed(kind).Some? ==> r == TriadsOn(Scale(ScaleNamed(kind).value), octave, NoteToNumber(root))
    ensures ScaleNamed(kind).Some? ==>
      && r.Ok? && |r.value| == 7
      && forall i :: 0 <= i < 7 ==> BundleChord.Type(r.value[i]) == Name(Qualities(ScaleNamed(kind).value)[i])
  {
    match ScaleNamed(kind)
    case None => Err(TypeError)
    case Some(k) =>
      ScaleTypesFound(k);
      TriadsOnTypes(Scale(k), octave, NoteToNumber(root), Qualities(k));
      TriadsOn(Scale(k), octave, NoteToNumber(root))
  }

  /** For a scale whose every degree type is found the bundled triads never
      throw, whatever the base: one chord per degree, of that type. */
  lemma TriadsOnTypes(scale: seq<int>, octave: int, base: int, types: seq<ChordType>)
    requires TypesFound(scale, types)
    ensures var r := TriadsOn(scale, octave, base);
      && r.Ok? && |r.value| == |scale|
      && forall i :: 0 <= i < |scale| ==> BundleChord.Type(r.value[i]) == Name(types[i])
  {
    LaterLayout.TriadsOfTypes(scale, octave, base, types);
    var cs := LaterLayout.TriadsOf(scale, octave, base).value;
    forall i | 0 <= i < |scale|
      ensures BundleChord.Type(Plain(cs)[i]) == Name(types[i])
    {
      assert Plain(cs)[i].base == cs[i];
    }
  }

  /** The chord types of the degrees of the major scale. */
  const MAJOR_QUALITIES: seq<ChordType> :=
    [Major, Minor, Minor, Major, Major, Minor, Diminished]

  /** The chord types of the degrees of the natural minor scale. */
  const NATURAL_MINOR_QUALITIES: seq<ChordType> :=
    [Minor, Diminished, Major, Minor, Minor, Major, Major]

  lemma MajorQualities()
    ensures forall i :: 0 <= i < 7 ==> LaterLayout.DegreeType(SCALE_MAJOR, i) == Ok(MAJOR_QUALITIES[i])
  {
    forall i | 0 <= i < 7
      ensures LaterLayout.DegreeType(SCALE_MAJOR, i) == Ok(MAJOR_QUALITIES[i])
    {
      var t := MAJOR_QUALITIES[i];
      assert LaterLayout.DegreeTriad(SCALE_MAJOR, i) == Intervals(t);
      FindChordTypeOfIntervals(t);
    }
  }

  lemma NaturalMinorQualities()
    ensures forall i :: 0 <= i < 7 ==> LaterLayout.DegreeType(SCALE_MINOR_NATURAL, i) == Ok(NATURAL_MINOR_QUALITIES[i])
  {
    forall i | 0 <= i < 7
      ensures LaterLayout.DegreeType(SCALE_MINOR_NATURAL, i) == Ok(NATURAL_MINOR_QUALITIES[i])
    {
      var t := NATURAL_MINOR_QUALITIES[i];
      assert LaterLayout.DegreeTriad(SCALE_MINOR_NATURAL, i) == Intervals(t);
      FindChordTypeOfIntervals(t);
    }
  }

  /** The chord types of the degrees of each scale. */
  function Qualities(k: ScaleKind): (r: seq<ChordType>)
    ensures |r| == 7
  {
    match k
    case MajorScale => MAJOR_QUALITIES
    case NaturalMinorScale => NATURAL_MINOR_QUALITIES
    case HarmonicMinorScale => LaterLayout.HARMONIC_QUALITIES
  }

  /** Every degree of each scale has its type from the table. */
  lemma ScaleQuality(k: ScaleKind, i: int)
    requires 0 <= i < 7
    ensures Scale(k)[i] >= 0 && LaterLayout.DegreeType(Scale(k), i) == Ok(Qualities(k)[i])
  {
    match k
    case MajorScale => MajorQualities();
    case NaturalMinorScale => NaturalMinorQualities();
    case HarmonicMinorScale => LaterLayout.HarmonicMinorQualities();
  }

  /** Every degree of `scale` is a non-negative offset whose triad has the
      type `types` gives it. */
  ghost predicate TypesFound(scale: seq<int>, types: seq<ChordType>)
  {
    |types| == |scale|
    && forall k :: 0 <= k < |scale| ==> scale[k] >= 0 && LaterLayout.DegreeType(scale, k) == Ok(types[k])
  }

  lemma ScaleTypesFound(k: ScaleKind)
    ensures TypesFound(Scale(k), Qualities(k))
  {
    forall i | 0 <= i < 7
      ensures Scale(k)[i] >= 0 && LaterLayout.DegreeType(Scale(k), i) == Ok(Qualities(k)[i])
    {
      ScaleQuality(k, i);
    }
  }

  /** For each of the three scales the triads on a non-negative base never
      throw: seven chords with the scale's types, roots on the scale degrees
      above the base, the given octave, and neither seventh nor circle. */
  lemma TriadsRead(octave: int, base: int, k: ScaleKind)
    requires base >= 0 && octave != 0
    ensures var r := TriadsOn(Scale(k), octave, base);
      && r.Ok? && |r.value| == 7
      && forall i :: 0 <= i < 7 ==>
        && BundleChord.Type(r.value[i]) == Name(Qualities(k)[i])
        && BundleChord.Root(r.value[i]) == NOTES[(Scale(k)[i] + base) % 12]
        && BundleChord.Octave(r.value[i]) == octave
        && r.value[i].seventh == None && r.value[i].circle == None
  {
    ScaleTypesFound(k);
    TriadsFound(Scale(k), octave, base, Qualities(k));
  }

  /** `TriadsOf`'s reading, carried over to the bundled chords. */
  lemma TriadsFound(scale: seq<int>, octave: int, base: int, types: seq<ChordType>)
    requires TypesFound(scale, types) && base >= 0 && octave != 0
    ensures var r := TriadsOn(scale, octave, base);
      && r.Ok? && |r.value| == |scale|
      && forall i :: 0 <= i < |scale| ==>
        && BundleChord.Type(r.value[i]) == Name(types[i])
        && BundleChord.Root(r.value[i]) == NOTES[(scale[i] + base) % 12]
        && BundleChord.Octave(r.value[i]) == octave
        && r.value[i].seventh == None && r.value[i].circle == None
  {
    LaterLayout.TriadsOfFound(scale, octave, base, types);
    var cs := LaterLayout.TriadsOf(scale, octave, base).value;
    var r := Plain(cs);
    assert TriadsOn(scale, octave, base) == Ok(r);
    forall i | 0 <= i < |scale|
      ensures BundleChord.Type(r[i]) == Name(types[i])
      ensures BundleChord.Root(r[i]) == NOTES[(scale[i] + base) % 12]
      ensures BundleChord.Octave(r[i]) == octave
      ensures r[i].seventh == None && r[i].circle == None
    {
      assert r[i].base == cs[i];
    }
  }

  // ---- the element ----

  /** What `generate` puts in the element, by the `type` attribute, which
      has no default: nothing for a missing or unknown type. It never
      throws: each triads type picks a scale `generateTriads` knows. */
  function Generated(a: LaterLayout.LayoutAttrs): (r: Result<seq<BundleChord.Attrs>>)
    ensures r.Ok?
  {
    match a.kind
    case Some("fifths") => Ok(Fifths(LaterLayout.Octave(a), LaterLayout.Root(a)))
    case Some("triads-major") => GenerateTriads(LaterLayout.Octave(a), LaterLayout.Root(a), "major")
    case Some("triads-minor-natural") => GenerateTriads(LaterLayout.Octave(a), LaterLayout.Root(a), "minor-natural")
    case Some("triads-minor-harmonic") => GenerateTriads(LaterLayout.Octave(a), LaterLayout.Root(a), "minor-harmonic")
    case _ => Ok([])
  }

  /** The layout type a scale is chosen by. */
  predicate IsTriads(kind: Option<string>)
  {
    kind == Some("triads-major") || kind == Some("triads-minor-natural") || kind == Some("triads-minor-harmonic")
  }

  /** Whatever the root, "fifths" gives 24 chords, each triads type 7,
      every other type none. */
  lemma GeneratedSizes(a: LaterLayout.LayoutAttrs)
    ensures a.kind == Some("fifths") ==> |Generated(a).value| == 24
    ensures IsTriads(a.kind) ==> |Generated(a).value| == 7
    ensures a.kind != Some("fifths") && !IsTriads(a.kind) ==> Generated(a).value == []
  {
  }

  class Layout {
    var attrs: LaterLayout.LayoutAttrs
    var children: seq<BundleChord.Attrs>

    constructor()
      ensures attrs == LaterLayout.LayoutAttrs(None, None, None) && children == []
    {
      attrs := LaterLayout.LayoutAttrs(None, None, None);
      children := [];
    }

    /** `generate`: replaces the children with what the type generates;
        building them never throws (see `Generated`). */
    method Generate()
      modifies this
      ensures attrs == old(attrs)
      ensures children == Generated(attrs).value
    {
      children := Generated(attrs).value;
    }

    /** Setting the `type` attribute regenerates the layout. */
    method SetType(kind: string)
      modifies this
      ensures attrs == old(attrs).(kind := Some(kind))
      ensures children == Generated(attrs).value
    {
      attrs := attrs.(kind := Some(kind));
      Generate();
    }

    /** Setting the `root` attribute regenerates the layout. */
    method SetRoot(root: string)
      modifies this
      ensures attrs == old(attrs).(root := Some(root))
      ensures children == Generated(attrs).value
    {
      attrs := attrs.(root := Some(root));
      Generate();
    }

    /** Setting the `octave` attribute regenerates the layout. */
    method SetOctave(octave: int)
      modifies this
      ensures attrs == old(attrs).(octave := Some(IntToString(octave)))
      ensures children == Generated(attrs).value
    {
      attrs := attrs.(octave := Some(IntToString(octave)));
      Generate();
    }
  }
}
