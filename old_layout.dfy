/** The layout element of the oldest version (layout.ts): a root, an
    octave and a layout type with defaults, and the two generators, which
    build chords of the oldest chord element. The circle of fifths sets no
    chord type and the triads set no octave, so those read as the chord's
    own defaults; an unknown layout type throws. */
module OldLayout {
  import opened Js
  import Music
  import OldMusic
  import OldChord
  import LaterLayout = Layout

  const DEFAULT_ROOT: string := "C"
  const DEFAULT_TYPE: string := "major-triads"
  const DEFAULT_OCTAVE: int := 5

  /** The element's three attributes; a missing attribute is `None`. */
  datatype LayoutAttrs = LayoutAttrs(root: Option<string>, octave: Option<string>, kind: Option<string>)

  const BLANK: LayoutAttrs := LayoutAttrs(None, None, None)

  /** `get octave`: `Number(attribute) || 5`. */
  function Octave(a: LayoutAttrs): (r: int)
    ensures a.octave.None? ==> r == DEFAULT_OCTAVE
    ensures r != 0
  {
    NumberOr(a.octave, DEFAULT_OCTAVE)
  }

  /** `get root`: the attribute, or "C" when it is missing or empty. */
  function Root(a: LayoutAttrs): (r: string)
    ensures r != ""
    ensures a.root.None? ==> r == DEFAULT_ROOT
  {
    StringOr(a.root, DEFAULT_ROOT)
  }

  /** `get type`: the attribute, or "major-triads" when it is missing or
      empty. */
  function Type(a: LayoutAttrs): (r: string)
    ensures r != ""
    ensures a.kind.None? ==> r == DEFAULT_TYPE
  {
    StringOr(a.kind, DEFAULT_TYPE)
  }

  // ---- the circle of fifths ----

  /** Chord `index` of `generateFifths` on the pitch class `base`: the
      octave, then the root `numberToNote(base + 5 * index)`. */
  function FifthsChord(octave: int, base: int, index: int): OldChord.Attrs
  {
    var c := OldChord.WithOctave(OldChord.BLANK, octave);
    OldChord.WithRoot(c, OldMusic.NumberToNote(base + 5 * index))
  }

  /** The twelve chords of the circle on the pitch class `base`. */
  function Ring(octave: int, base: int): (r: seq<OldChord.Attrs>)
    ensures |r| == 12
    ensures forall i :: 0 <= i < 12 ==> r[i] == FifthsChord(octave, base, i)
  {
    seq(12, i requires 0 <= i < 12 => FifthsChord(octave, base, i))
  }

  /** `generateFifths`: the ring on the number of `root` in the A-rooted
      table: twelve chords whose type is never set, so all read as major,
      with twelve different roots when the root is in the table. */
  function GenerateFifths(octave: int, root: string): (r: seq<OldChord.Attrs>)
    ensures |r| == 12 && forall i :: 0 <= i < 12 ==> OldChord.Type(r[i]) == "major"
    ensures OldMusic.NoteToNumber(root) >= 0 ==>
      forall i, j :: 0 <= i < j < 12 ==> OldChord.Root(r[i]) != OldChord.Root(r[j])
  {
    if OldMusic.NoteToNumber(root) >= 0 then
      RingPermutation(octave, OldMusic.NoteToNumber(root));
      Ring(octave, OldMusic.NoteToNumber(root))
    else
      Ring(octave, OldMusic.NoteToNumber(root))
  }

  /** Chord `i` of the ring on a pitch class reads as the root `5 * i`
      semitones up, in the given octave, and, its type never set, as a
      major chord. */
  lemma RingChordReads(octave: int, b: int, i: int)
    requires 0 <= b < 12 && octave != 0 && 0 <= i < 12
    ensures var c := Ring(octave, b)[i];
      && OldChord.Root(c) == OldMusic.NOTES[(b + 5 * i) % 12]
      && OldChord.Octave(c) == octave
      && OldChord.Type(c) == "major"
  {
    assert OldMusic.NumberToNote(b + 5 * i) == Some(OldMusic.NOTES[(b + 5 * i) % 12]);
    OldChord.ReadBack(OldChord.BLANK, octave, "C", "major");
  }

  /** Different pitch classes have different names in the A-rooted table. */
  lemma NamesDiffer(p: int, q: int)
    requires 0 <= p < 12 && 0 <= q < 12 && p != q
    ensures OldMusic.NOTES[p] != OldMusic.NOTES[q]
  {
    OldMusic.NotesDistinct();
    if p > q {
      assert OldMusic.NOTES[q] != OldMusic.NOTES[p];
    }
  }

  lemma RingRootsDiffer(octave: int, b: int, i: int, j: int)
    requires 0 <= b < 12 && 0 <= i < j < 12
    ensures OldChord.Root(Ring(octave, b)[i]) != OldChord.Root(Ring(octave, b)[j])
  {
    RingRoot(octave, b, i);
    RingRoot(octave, b, j);
    LaterLayout.FifthsStepsDiffer(b, i, j);
    NamesDiffer((b + 5 * i) % 12, (b + 5 * j) % 12);
  }

  lemma RingRoot(octave: int, b: int, i: int)
    requires 0 <= b < 12 && 0 <= i < 12
    ensures OldChord.Root(Ring(octave, b)[i]) == OldMusic.NOTES[(b + 5 * i) % 12]
  {
    assert OldMusic.NumberToNote(b + 5 * i) == Some(OldMusic.NOTES[(b + 5 * i) % 12]);
  }

  lemma RingCovers(octave: int, b: int, t: int)
    requires 0 <= b < 12 && 0 <= t < 12
    ensures 0 <= (5 * (t - b)) % 12 < 12
    ensures OldChord.Root(Ring(octave, b)[(5 * (t - b)) % 12]) == OldMusic.NOTES[t]
  {
    LaterLayout.FifthsReach(b, t);
    RingRoot(octave, b, (5 * (t - b)) % 12);
  }

  /** The twelve roots of the ring are the twelve pitch names, each once:
      pitch class `t` sits at position `5 * (t - b) mod 12`. */
  lemma RingPermutation(octave: int, b: int)
    requires 0 <= b < 12
    ensures forall i, j :: 0 <= i < j < 12 ==> OldChord.Root(Ring(octave, b)[i]) != OldChord.Root(Ring(octave, b)[j])
    ensures forall t :: 0 <= t < 12 ==>
      0 <= (5 * (t - b)) % 12 < 12 && OldChord.Root(Ring(octave, b)[(5 * (t - b)) % 12]) == OldMusic.NOTES[t]
  {
    forall i, j | 0 <= i < j < 12
      ensures OldChord.Root(Ring(octave, b)[i]) != OldChord.Root(Ring(octave, b)[j])
    {
      RingRootsDiffer(octave, b, i, j);
    }
    forall t | 0 <= t < 12
      ensures 0 <= (5 * (t - b)) % 12 < 12
      ensures OldChord.Root(Ring(octave, b)[(5 * (t - b)) % 12]) == OldMusic.NOTES[t]
    {
      RingCovers(octave, b, t);
    }
  }

  /** On a table root the twelve roots of `generateFifths` are the twelve
      pitch names, each once, and each chord is a major chord in the given
      octave. */
  lemma FifthsPermutation(octave: int, root: string)
    requires OldMusic.NoteToNumber(root) >= 0 && octave != 0
    ensures var r := GenerateFifths(octave, root);
      && (forall i, j :: 0 <= i < j < 12 ==> OldChord.Root(r[i]) != OldChord.Root(r[j]))
      && (forall t :: 0 <= t < 12 ==> exists i :: 0 <= i < 12 && OldChord.Root(r[i]) == OldMusic.NOTES[t])
      && (forall i :: 0 <= i < 12 ==> OldChord.Octave(r[i]) == octave && OldChord.Type(r[i]) == "major")
  {
    var b := OldMusic.NoteToNumber(root);
    RingPermutation(octave, b);
    forall t | 0 <= t < 12
      ensures exists i :: 0 <= i < 12 && OldChord.Root(GenerateFifths(octave, root)[i]) == OldMusic.NOTES[t]
    {
      var i := (5 * (t - b)) % 12;
      assert OldChord.Root(GenerateFifths(octave, root)[i]) == OldMusic.NOTES[t];
    }
    forall i | 0 <= i < 12
      ensures OldChord.Octave(GenerateFifths(octave, root)[i]) == octave
      ensures OldChord.Type(GenerateFifths(octave, root)[i]) == "major"
    {
      RingChordReads(octave, b, i);
    }
  }

  // ---- scale-degree triads ----

  /** Chord `i` of `generateTriads` on `base`, once its type `t` is found:
      the root, then the type; the octave is never set. */
  function TriadChord(scale: seq<int>, base: int, i: int, t: Music.ChordType): OldChord.Attrs
    requires 0 <= i < |scale|
  {
    var c := OldChord.WithRoot(OldChord.BLANK, OldMusic.NumberToNote(Rem(scale[i] + base, 12)));
    OldChord.WithType(c, Music.Name(t))
  }

  /** The `map` of `generateTriads` over the degrees of `scale`: the chords
      when every degree's type is found, the one exception `findChordType`
      throws otherwise. */
  function TriadsOf(scale: seq<int>, base: int): Result<seq<OldChord.Attrs>>
  {
    if forall k :: 0 <= k < |scale| ==> LaterLayout.DegreeType(scale, k).Ok? then
      Ok(seq(|scale|, k requires 0 <= k < |scale| => TriadChord(scale, base, k, LaterLayout.DegreeType(scale, k).value)))
    else
      Err(Music.NO_MATCH)
  }

  /** `generateTriads`: the harmonic minor scale on `root`, whatever `type`
      it is given; its `octave` argument is never used. It never throws,
      whatever the root: seven chords of the harmonic-minor types. */
  function GenerateTriads(octave: int, root: string, kind: string): (r: Result<seq<OldChord.Attrs>>)
    ensures r.Ok? && |r.value| == 7
    ensures forall i :: 0 <= i < 7 ==> OldChord.Type(r.value[i]) == Music.Name(LaterLayout.HARMONIC_QUALITIES[i])
  {
    LaterLayout.HarmonicMinorQualities();
    TriadsOfTypes(Music.SCALE_MINOR_HARMONIC, OldMusic.NoteToNumber(root), LaterLayout.HARMONIC_QUALITIES);
    TriadsOf(Music.SCALE_MINOR_HARMONIC, OldMusic.NoteToNumber(root))
  }

  /** Whether the triads throw depends on the scale alone: when every
      degree's type is found they are one chord per degree, of that type,
      whatever the base. */
  lemma TriadsOfTypes(scale: seq<int>, base: int, types: seq<Music.ChordType>)
    requires |types| == |scale|
    requires forall k :: 0 <= k < |scale| ==> LaterLayout.DegreeType(scale, k) == Ok(types[k])
    ensures var r := TriadsOf(scale, base);
      && r.Ok? && |r.value| == |scale|
      && forall k :: 0 <= k < |scale| ==> OldChord.Type(r.value[k]) == Music.Name(types[k])
  {
    var r := TriadsOf(scale, base);
    forall k | 0 <= k < |scale|
      ensures OldChord.Type(r.value[k]) == Music.Name(types[k])
    {
      assert r.value[k] == TriadChord(scale, base, k, types[k]);
    }
  }

  /** A chord built on a non-negative degree of a scale reads back its
      type, the root that many semitones above `base`, and the chord's
      default octave 4. */
  lemma TriadChordReads(scale: seq<int>, base: int, i: int, t: Music.ChordType)
    requires 0 <= i < |scale| && scale[i] >= 0 && base >= 0
    ensures var c := TriadChord(scale, base, i, t);
      && OldChord.Type(c) == Music.Name(t)
      && OldChord.Root(c) == OldMusic.NOTES[(scale[i] + base) % 12]
      && OldChord.Octave(c) == OldChord.DEFAULT_OCTAVE
  {
    var n := scale[i] + base;
    assert OldMusic.NumberToNote(Rem(n, 12)) == Some(OldMusic.NOTES[n % 12]);
  }

  /** When every degree's type is found, `TriadsOf` is one chord per
      degree, reading back the found type, the root that degree's offset
      above `base`, and octave 4. */
  lemma TriadsOfFound(scale: seq<int>, base: int, types: seq<Music.ChordType>)
    requires |types| == |scale| && base >= 0
    requires forall k :: 0 <= k < |scale| ==> scale[k] >= 0 && LaterLayout.DegreeType(scale, k) == Ok(types[k])
    ensures var r := TriadsOf(scale, base);
      && r.Ok? && |r.value| == |scale|
      && forall k :: 0 <= k < |scale| ==>
        && OldChord.Type(r.value[k]) == Music.Name(types[k])
        && OldChord.Root(r.value[k]) == OldMusic.NOTES[(scale[k] + base) % 12]
        && OldChord.Octave(r.value[k]) == OldChord.DEFAULT_OCTAVE
  {
    var r := TriadsOf(scale, base);
    forall k | 0 <= k < |scale|
      ensures OldChord.Type(r.value[k]) == Music.Name(types[k])
      ensures OldChord.Root(r.value[k]) == OldMusic.NOTES[(scale[k] + base) % 12]
      ensures OldChord.Octave(r.value[k]) == OldChord.DEFAULT_OCTAVE
    {
      assert r.value[k] == TriadChord(scale, base, k, types[k]);
      TriadChordReads(scale, base, k, types[k]);
    }
  }

  /** The triads never throw: seven chords with the harmonic-minor types
      and roots on the scale degrees, all in octave 4 whatever the
      layout's octave. */
  lemma TriadsRead(octave: int, root: string)
    requires OldMusic.NoteToNumber(root) >= 0
    ensures var r := GenerateTriads(octave, root, "major");
      && r.Ok? && |r.value| == 7
      && forall i :: 0 <= i < 7 ==>
        && OldChord.Type(r.value[i]) == Music.Name(LaterLayout.HARMONIC_QUALITIES[i])
        && OldChord.Root(r.value[i]) == OldMusic.NOTES[(Music.SCALE_MINOR_HARMONIC[i] + OldMusic.NoteToNumber(root)) % 12]
        && OldChord.Octave(r.value[i]) == 4
  {
    LaterLayout.HarmonicMinorQualities();
    Music.ScalesWellFormed();
    TriadsOfFound(Music.SCALE_MINOR_HARMONIC, OldMusic.NoteToNumber(root), LaterLayout.HARMONIC_QUALITIES);
  }

  // ---- the element ----

  /** What `generate` builds: the circle for "fifths", the triads for
      "major-triads"; for any other type `chords` stays `undefined` and
      spreading it into `replaceChildren` throws a TypeError. */
  function Generated(a: LayoutAttrs): (r: Result<seq<OldChord.Attrs>>)
    ensures r.Err? <==> Type(a) != "fifths" && Type(a) != "major-triads"
    ensures r.Err? ==> r.error == TypeError
  {
    match Type(a)
    case "fifths" => Ok(GenerateFifths(Octave(a), Root(a)))
    case "major-triads" => GenerateTriads(Octave(a), Root(a), "major")
    case _ => Err(TypeError)
  }

  /** Whatever the root, the two known types give 12 and 7 chords; every
      other type throws a TypeError. */
  lemma GeneratedSizes(a: LayoutAttrs)
    ensures Type(a) == "fifths" ==> Generated(a) == Ok(GenerateFifths(Octave(a), Root(a))) && |Generated(a).value| == 12
    ensures Type(a) == "major-triads" ==> Generated(a).Ok? && |Generated(a).value| == 7
    ensures Type(a) != "fifths" && Type(a) != "major-triads" ==> Generated(a) == Err(TypeError)
  {
  }

  /** A layout with no attributes shows the triads on C. */
  lemma DefaultLayout()
    ensures Type(BLANK) == "major-triads" && Root(BLANK) == "C" && Octave(BLANK) == 5
    ensures Generated(BLANK) == GenerateTriads(5, "C", "major")
  {
  }

  class Layout {
    var attrs: LayoutAttrs
    var children: seq<OldChord.Attrs>

    constructor()
      ensures attrs == BLANK && children == []
    {
      attrs := BLANK;
      children := [];
    }

    /** `generate`: replaces the children; when it throws the children
        stay as they were. */
    method Generate() returns (error: Option<Error>)
      modifies this
      ensures attrs == old(attrs)
      ensures Generated(attrs).Ok? ==> error == None && children == Generated(attrs).value
      ensures Generated(attrs).Err? ==> error == Some(Generated(attrs).error) && children == old(children)
    {
      var r := Generated(attrs);
      if r.Err? {
        return Some(r.error);
      }
      children := r.value;
      return None;
    }

    /** `set type`, which `attributeChangedCallback` follows with
        `generate`. */
    method SetType(kind: string) returns (error: Option<Error>)
      modifies this
      ensures attrs == old(attrs).(kind := Some(kind))
      ensures Generated(attrs).Ok? ==> error == None && children == Generated(attrs).value
      ensures Generated(attrs).Err? ==> error == Some(Generated(attrs).error) && children == old(children)
    {
      attrs := attrs.(kind := Some(kind));
      error := Generate();
    }

    method SetRoot(root: string) returns (error: Option<Error>)
      modifies this
      ensures attrs == old(attrs).(root := Some(root))
      ensures Generated(attrs).Ok? ==> error == None && children == Generated(attrs).value
      ensures Generated(attrs).Err? ==> error == Some(Generated(attrs).error) && children == old(children)
    {
      attrs := attrs.(root := Some(root));
      error := Generate();
    }

    method SetOctave(octave: int) returns (error: Option<Error>)
      modifies this
      ensures attrs == old(attrs).(octave := Some(IntToString(octave)))
      ensures Generated(attrs).Ok? ==> error == None && children == Generated(attrs).value
      ensures Generated(attrs).Err? ==> error == Some(Generated(attrs).error) && children == old(children)
    {
      attrs := attrs.(octave := Some(IntToString(octave)));
      error := Generate();
    }
  }
}
