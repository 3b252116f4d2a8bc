# Chord pad: a verified model

The chord pad is a web page of chord buttons. Pressing a chord plays its
notes on a MIDI output or on a built-in sample player; releasing it stops
them. Layouts fill the page with chords: the circle of fifths, or the
seven triads of a scale. The repository holds three versions of the same
logic, and each is modelled as its own set of modules.

- **Oldest version** (`music.ts`, `chord.ts`, `layout.ts`, `app.ts`):
  `OldMusic`, `OldChord`, `OldLayout`, `OldApp`.
  - The pitch table is A-rooted, so C in octave 4 is note 63.
  - Every press plays and every `pointerup` stops, with no guard.
  - The triads never get an octave.
  - An unknown layout type throws.
  - The app sends one message per note with no counting.
- **Component version** (`components/*.ts`): `Music`, `ChordModel`,
  `Layout`, `Player`, `Sampler`.
  - The pitch table is C-rooted (C4 is 60).
  - A press arms a one-shot release.
  - The triads always use the harmonic minor scale.
  - The player keeps a reference-counted ledger of sounding notes.
  - The sample player dispatches messages, guards double starts of a note
    whose start has completed, and caches downloads per note.
- **Bundled version** (`index.js`): `BundleChord`, `BundleLayout`.
  - Chords gain an optional seventh, a JSON form and a clone.
  - Fifths chords say which circle they sit on.
  - The triads come from three scales, chosen by type.
  - Code the bundle shares unchanged with the component version is modelled
    once, in the component modules:
    - the note tables and `findChordType` (index.js:209-286);
    - the chord getters, setters and press handling;
    - `App.play`/`stop`/`playNote`/`stopNote` (index.js:141-180);
    - `Synth` and `getSampleName` (index.js:10-101).

Shared modules:

- `Js` holds the JavaScript behaviour the code relies on:
  - `Number(attr) || d` and `attr || d`;
  - `String(int)`;
  - the truncating `%`;
  - out-of-range reads giving `undefined`;
  - `indexOf`;
  - `join` versus template literals.
- `Midi` holds the Note On (0x90) and Note Off (0x80) status values of the
  MIDI 1.0 Detailed Specification.
- `Element` holds the app calls a chord makes and the pointer events it gets.

Chord and layout elements keep their state in DOM attributes. Each is
modelled by:

- a datatype of optional strings;
- getter functions that apply the defaults;
- a class whose methods set attributes and regenerate children.

The app, the sample player and the sample cache are classes:

- the app's ledger is a `map`, with a log of what every output received;
- the sample player keeps its `playing` set and the buffer-source calls
  it made;
- the sample cache keeps its `samples` map and the notes it fetched.

An exception is an `Err` value; a method returns it as an optional error.

## Model

| member | source | states |
|---|---|---|
| Js.Rem | components/music.ts:9 | JavaScript `%`: equal to the mathematical remainder for a non-negative dividend, and zero or negative for a negative one |
| Js.At | components/music.ts:9 | an array read is defined exactly for an index inside the array, and then it is that element |
| Js.Stringify | components/chord.ts:18 | `String(v)` as `setAttribute` applies it: a string stays as it is, `undefined` becomes the nine letters "undefined" |
| Js.JoinText | index.js:466 | `join` writes a string as it is, as `String` would, and `undefined` as nothing |
| Js.IndexOf | components/music.ts:4-6 | -1 exactly when the element is absent; otherwise a position holding it, with no earlier occurrence |
| Js.IntToString | components/chord.ts:15 | `String(i)` is a non-empty sign-and-digits text |
| Js.ToNumber | components/chord.ts:14 | the empty text reads 0; a text reads as a finite number exactly when it is digits, or a minus sign then digits, and then its value is those digits' value with that sign |
| Js.NumberOr | components/chord.ts:14 | `Number(attr) \|\| d` is `d` for a missing attribute, and never 0 unless `d` is 0 |
| Js.StringOr | components/chord.ts:17 | `attr \|\| d` keeps a non-empty attribute and gives `d` for a missing or empty one |
| Js.NumberOfString | components/chord.ts:14-15 | `Number(String(i)) == i` for every integer the model writes (see Left out for the range) |
| Js.NumberOrOfString | components/chord.ts:14-15 | an octave written by the setter reads back through the getter whenever it is nonzero |
| Js.IntToStringInjective | chord.ts:48 | different integers print differently |
| Music.NoteToNumber | components/music.ts:4-6 | the result is a pitch class whose table name is the argument, or -1 exactly when no table entry is the argument |
| Music.NumberToNote | components/music.ts:8-10 | for a non-negative number, the table name at that number modulo 12 |
| Music.Intervals | components/music.ts:13-18 | each chord type's offsets are a strictly ascending triple starting at 0 and staying below 12 |
| Music.KindNamed | components/music.ts:13-20 | a found type is stored under exactly that name; `None` means no type has that name |
| Music.FindChordType | components/music.ts:27-33 | a returned type has exactly the given offsets; it throws "FIXME" if and only if no type has them |
| Music.SearchKinds | components/music.ts:29-31 | the loop from key `i` returns a later key with matching offsets, or throws iff none of the remaining keys matches |
| Music.NotesDistinct | components/music.ts:1 | the table has 12 pairwise different names |
| Music.NotesNonEmpty | components/music.ts:1 | no table name is empty, so a root set from the table is not replaced by the default |
| Music.NumberToNoteToNumber | components/music.ts:4-10 | `noteToNumber(numberToNote(n)) == n % 12` for every `n >= 0` |
| Music.NoteToNumberToNote | components/music.ts:4-10 | `numberToNote(noteToNumber(name)) == name` for every table name |
| Music.NumberToNoteOfPitchClass | components/music.ts:8-10 | a pitch class names its own table entry |
| Music.IntervalsInjective | components/music.ts:13-18 | the four types have pairwise different offsets |
| Music.FindChordTypeOfIntervals | components/music.ts:27-33 | `findChordType(ChordTypes[t]) == t` for every type |
| Music.KindNamedOfName | components/music.ts:13-18 | looking up a type's key gives that type back |
| Music.ScalesWellFormed | components/music.ts:23-25 | each of the three scales is 7 strictly ascending offsets from 0 below 12 |
| OldMusic.NoteToNumber | music.ts:14-16 | the position in the A-rooted table, or -1 exactly when the name is in no position |
| OldMusic.NumberToNote | music.ts:18-20 | for a non-negative number, the A-rooted name at that number modulo 12 |
| OldMusic.NotesDistinct | music.ts:10 | the A-rooted table has 12 pairwise different names |
| OldMusic.NumberToNoteOfPitchClass | music.ts:18-20 | a pitch class names its own table entry |
| OldMusic.NumberToNoteToNumber | music.ts:14-20 | `noteToNumber(numberToNote(n)) == n % 12` for every `n >= 0` |
| OldMusic.NoteToNumberToNote | music.ts:14-20 | `numberToNote(noteToNumber(name)) == name` for every table name |
| OldMusic.ARooted | music.ts:10-16 | A is 0 and C is 3 |
| OldMusic.ShiftedFromCRooted | music.ts:10 | a name's A-rooted number is its C-rooted number plus 3, modulo 12 |
| ChordModel.Octave | components/chord.ts:14 | a missing octave reads 4, and the octave never reads 0 |
| ChordModel.Root | components/chord.ts:17 | the root is never empty, and a missing root reads "C" |
| ChordModel.Type | components/chord.ts:20 | the type is never empty, and a missing type reads "major" |
| ChordModel.Defaults | components/chord.ts:5-21 | a blank chord is C major in octave 4; octave "0" or text that is not a number reads 4; an empty root or type reads as the default |
| ChordModel.OctaveReadBack | components/chord.ts:14-15 | setting a nonzero octave reads it back and leaves root and type alone |
| ChordModel.RootAndTypeReadBack | components/chord.ts:17-21 | setting a non-empty root or type reads it back and leaves the other fields alone |
| ChordModel.Notes | components/chord.ts:58-62 | throws a TypeError iff the type is no table key; otherwise 3 strictly ascending notes within an octave, starting at `(octave+1)*12 + noteToNumber(root)`, whose offsets are the type's |
| ChordModel.Triad | components/chord.ts:61 | a triad on a base is 3 ascending notes within an octave, from the base, with the type's offsets |
| ChordModel.NotesDetermineChord | components/chord.ts:58-62 | from the notes of a table chord, `findChordType` recovers its type, `numberToNote` its root, and `floor(n/12) - 1` its octave |
| ChordModel.NotesInjective | components/chord.ts:58-62 | two table chords with equal notes have equal root, octave and type |
| ChordModel.MiddleC | components/chord.ts:58-62 | C4 major is [60, 64, 67] and C4 minor is [60, 63, 67] |
| ChordModel.OnPointerKeepsBalance | components/chord.ts:68-85 | every pointer event keeps the number of plays equal to the stops made plus the releases still armed |
| ChordModel.OneShot | components/chord.ts:76-84 | a press then `pointerup` or `pointerleave` plays once and stops once; the second release event adds nothing |
| ChordModel.ConfigPressIgnored | components/chord.ts:71-74 | a press on the configuration button neither plays nor arms |
| ChordModel.TypeSuffix | components/chord.ts:97-102 | a suffix exists exactly for the four type keys |
| ChordModel.FormatLabel | components/chord.ts:104-105 | the label starts with the root; a table type adds its suffix, any other type the text "undefined" |
| ChordModel.LabelRoundTrip | components/chord.ts:104-105 | the label of a chord with a table root and type parses back to that root and type |
| ChordModel.Chord.constructor | components/chord.ts:26-30 | a new chord has no attributes and no armed release |
| ChordModel.Chord.SetOctave | components/chord.ts:15 | the octave attribute becomes `String(octave)`; nothing else changes |
| ChordModel.Chord.SetRoot | components/chord.ts:18 | the root attribute becomes the value, `undefined` written as text; nothing else changes |
| ChordModel.Chord.SetType | components/chord.ts:21 | the type attribute becomes the value; nothing else changes |
| ChordModel.Chord.PointerDown | components/chord.ts:68-85 | a press off the configuration button arms a release and plays; on it, nothing happens; the balance invariant holds |
| ChordModel.Chord.PointerRelease | components/chord.ts:78-83 | a release fires every armed listener, each stopping once, and disarms them; the balance invariant holds |
| OldChord.Octave | chord.ts:17 | a missing octave reads 4, and the octave never reads 0 |
| OldChord.Root | chord.ts:20 | the root is never empty, and a missing root reads "C" |
| OldChord.Type | chord.ts:23 | the type is never empty, and a missing type reads "major" |
| OldChord.Defaults | chord.ts:8-24 | a blank chord is C major in octave 4; octave "0" reads 4; an empty root or type reads as the default |
| OldChord.ReadBack | chord.ts:17-24 | each setter's value (nonzero octave, non-empty root or type) reads back, and the other getters are unchanged |
| OldChord.Notes | chord.ts:41-45 | throws a TypeError iff the type is no table key; otherwise 3 ascending notes within an octave from `(octave+1)*12 + ` the A-rooted number of the root, with the type's offsets |
| OldChord.NotesDetermineChord | chord.ts:41-45 | read back through the A-rooted table, the notes give the type, the root and the octave |
| OldChord.MiddleCIsSixtyThree | chord.ts:41-45 | C4 major is [63, 67, 70], not the MIDI [60, 64, 67] |
| OldChord.MiddleCMinorIsSixtyThree | chord.ts:41-45 | C4 minor is [63, 66, 70] |
| OldChord.BaseShifted | chord.ts:42-43 | a root's base is 3 above the C-rooted one for C to G♯ and 9 below for A to B |
| OldChord.Label | chord.ts:47-49 | the label opens with a parenthesis and ends with a space then the type |
| OldChord.ReplayCounts | chord.ts:27-31 | any run of events plays once per press and stops once per `pointerup`, whatever their order |
| OldChord.NoOneShot | chord.ts:29-30 | a press then `pointerleave` never stops; a press then two `pointerup`s stops twice |
| OldChord.LabelRoundTrip | chord.ts:47-49 | the label `(octave) root type` parses back to octave, root and type when the root has no space |
| OldChord.LabelInjective | chord.ts:47-49 | chords whose roots have no space show equal labels only when octave, root and type are equal |
| OldChord.Chord.constructor | chord.ts:27-31 | a new chord has no attributes, no text and no app calls |
| OldChord.Chord.Connect | chord.ts:33-35 | connecting renders the label of the current attributes |
| OldChord.Chord.SetOctave | chord.ts:18-39 | the octave attribute becomes `String(octave)` and the label is rendered again |
| OldChord.Chord.SetRoot | chord.ts:21-39 | the root attribute is set and the label is rendered again |
| OldChord.Chord.SetType | chord.ts:24-39 | the type attribute is set and the label is rendered again |
| OldChord.Chord.Pointer | chord.ts:29-30 | a press calls play, a `pointerup` calls stop, a `pointerleave` does nothing |
| OldApp.Sends | app.ts:14-17 | one `[status, note, 100]` per chord note, in the chord's order |
| OldApp.SharedNoteNotCounted | app.ts:11-27 | two chords sharing a note send Note On for it at least twice, and stopping one sends Note Off while the other still holds it |
| OldApp.PlayStopBalanced | app.ts:11-27 | play then stop sends, for every note, as many Note Offs as Note Ons, namely how often the chord holds it |
| OldApp.App.constructor | app.ts:9 | the output has received nothing |
| OldApp.App.SendAll | app.ts:14-17 | the output receives one message per note, in order |
| OldApp.App.Play | app.ts:11-18 | an unknown type throws before anything is sent; otherwise one Note On per note, in order |
| OldApp.App.Stop | app.ts:20-27 | an unknown type throws before anything is sent; otherwise one Note Off per note, in order |
| Layout.Octave | components/layout.ts:18 | a missing octave reads 4, and the octave never reads 0 |
| Layout.Root | components/layout.ts:21 | the root is never empty: a missing or empty attribute reads "C", any other is kept |
| Layout.Ring | components/layout.ts:63-74 | 12 chords, chord `i` having octave, type, root `numberToNote(base + 5i)` and index `i` |
| Layout.GenerateFifths | components/layout.ts:63-74 | 12 chords numbered 0 to 11 by `--index`; on a table root their roots are pairwise different |
| Layout.RingRoot | components/layout.ts:70 | chord `i` of the ring on pitch class `b` has root `NOTES[(b + 5i) % 12]` |
| Layout.RingChordReads | components/layout.ts:66-72 | chord `i` reads back the root `5i` semitones up, the given octave and type, and index `i` |
| Layout.FifthsChordReads | components/layout.ts:63-74 | the same for `generateFifths` on a table root |
| Layout.RingRootsDiffer | components/layout.ts:70 | two different chords of the ring have different roots |
| Layout.RingPermutation | components/layout.ts:63-74 | the ring's roots are pairwise different and pitch class `t` is the root of chord `5(t - b) mod 12` |
| Layout.RingCovers | components/layout.ts:70 | every pitch name is the root of some chord of the ring |
| Layout.FifthsPermutation | components/layout.ts:63-74 | on a table root the 12 roots are the 12 pitch names, each once |
| Layout.RelativeMinor | components/layout.ts:44 | the secondary root is 9 semitones above the root, modulo 12 |
| Layout.Fifths | components/layout.ts:43-48 | "fifths" is the major ring on the root followed by the minor ring on its relative minor |
| Layout.DegreeTriad | components/layout.ts:85-89 | a degree's triad has 3 offsets, the first 0 |
| Layout.HarmonicMinorQualities | components/layout.ts:80-90 | the harmonic minor degrees classify as minor, diminished, augmented, minor, major, major, diminished |
| Layout.TriadChordReads | components/layout.ts:81-90 | a degree's chord reads back its type, the root that degree's offset above the base, and the octave |
| Layout.TriadsOfFound | components/layout.ts:80-93 | when every degree's type is found, the map gives one such chord per degree and does not throw |
| Layout.TriadsOfTypes | components/layout.ts:80-93 | whether the map throws depends on the scale alone: when every degree's type is found it gives one chord of that type per degree, whatever the base |
| Layout.GenerateTriads | components/layout.ts:76-94 | never throws, whatever the root: 7 chords with the harmonic minor types |
| Layout.TriadsRead | components/layout.ts:76-94 | on a table root the triads never throw: 7 chords with the harmonic minor types, roots on the scale degrees and the given octave |
| Layout.TriadsIgnoreKind | components/layout.ts:76-80 | "triads-major" and "triads-minor" give the same chords |
| Layout.Generated | components/layout.ts:39-60 | `generate` never throws, and "triads-major" and "triads-minor" show the same chords |
| Layout.GeneratedSizes | components/layout.ts:39-60 | whatever the root, "fifths" gives 24 chords, each triads type 7, any other or missing type none |
| Layout.Layout.constructor | components/layout.ts:27-29 | a new layout has no attributes and no children |
| Layout.Layout.Generate | components/layout.ts:39-60 | the children become what the type generates, which never throws |
| Layout.Layout.SetType | components/layout.ts:25-37 | the type attribute is set and the children regenerated |
| Layout.Layout.SetRoot | components/layout.ts:22-37 | the root attribute is set and the children regenerated |
| Layout.Layout.SetOctave | components/layout.ts:19-37 | the octave attribute is set and the children regenerated |
| OldLayout.Octave | layout.ts:19 | a missing octave reads 5, and the octave never reads 0 |
| OldLayout.Root | layout.ts:22 | the root is never empty, and a missing root reads "C" |
| OldLayout.Type | layout.ts:25 | the type is never empty, and a missing type reads "major-triads" |
| OldLayout.Ring | layout.ts:55-64 | 12 chords, chord `i` having the octave and the root `numberToNote(base + 5i)` |
| OldLayout.GenerateFifths | layout.ts:55-64 | 12 chords, all reading as major since their type is never set; on a table root their roots are pairwise different |
| OldLayout.RingChordReads | layout.ts:55-64 | chord `i` reads the root `5i` semitones up, the given octave, and, its type never set, "major" |
| OldLayout.RingRootsDiffer | layout.ts:61 | two different chords of the ring have different roots |
| OldLayout.RingRoot | layout.ts:61 | chord `i` of the ring on pitch class `b` has the A-rooted name of `(b + 5i) % 12` |
| OldLayout.RingCovers | layout.ts:61 | pitch name `t` is the root of chord `5(t - b) mod 12` |
| OldLayout.RingPermutation | layout.ts:55-64 | the ring's roots are pairwise different and cover all 12 names |
| OldLayout.FifthsPermutation | layout.ts:55-64 | on a table root the 12 roots are the 12 names, each once, and every chord is major in the given octave |
| OldLayout.TriadChordReads | layout.ts:71-84 | a degree's chord reads back its type and root, and octave 4 whatever the layout's octave |
| OldLayout.TriadsOfFound | layout.ts:71-87 | when every degree's type is found, the map gives one such chord per degree |
| OldLayout.TriadsOfTypes | layout.ts:71-87 | whether the map throws depends on the scale alone: when every degree's type is found it gives one chord of that type per degree, whatever the base |
| OldLayout.GenerateTriads | layout.ts:67-88 | never throws, whatever the root: 7 chords with the harmonic minor types |
| OldLayout.Generated | layout.ts:40-52 | `generate` throws exactly when the type is neither "fifths" nor "major-triads", and then a TypeError |
| OldLayout.TriadsRead | layout.ts:67-88 | on a table root the triads never throw: 7 harmonic minor chords, all in octave 4 |
| OldLayout.GeneratedSizes | layout.ts:40-52 | whatever the root, "fifths" gives 12 chords, "major-triads" 7, and any other type throws a TypeError |
| OldLayout.DefaultLayout | layout.ts:10-25 | a blank layout is "major-triads" on C in octave 5 |
| OldLayout.Layout.constructor | layout.ts:28-30 | a new layout has no attributes and no children |
| OldLayout.Layout.Generate | layout.ts:40-52 | the children become what the type generates; a throw leaves them and is reported |
| OldLayout.Layout.SetType | layout.ts:26-38 | the type attribute is set and the children regenerated |
| OldLayout.Layout.SetRoot | layout.ts:23-38 | the root attribute is set and the children regenerated |
| OldLayout.Layout.SetOctave | layout.ts:20-38 | the octave attribute is set and the children regenerated |
| Player.Broadcast | components/app.ts:61 | one copy of the message per output, in list order |
| Player.AfterPlayNote | components/app.ts:57-65 | `playNote` raises the note's count by exactly one and leaves every other count alone |
| Player.PlayNoteLog | components/app.ts:57-62 | `playNote` sends Note On to every output exactly when the prior count is 0, and nothing otherwise |
| Player.AfterStopNote | components/app.ts:70-74 | `stopNote` at count 0 changes nothing; otherwise it lowers the count by one; other counts are untouched |
| Player.StopNoteLog | components/app.ts:70-79 | `stopNote` sends Note Off to every output exactly when the count goes from 1 to 0 |
| Player.HeardPlayNote | components/app.ts:55-66 | from a `playNote`, one output hears one Note On about the note iff it was silent, nothing about other notes |
| Player.HeardStopNote | components/app.ts:68-80 | from a `stopNote`, one output hears one Note Off iff the count was 1 |
| Player.InvStep | components/app.ts:55-80 | one step keeps each output's per-note messages alternating On/Off from On, with the note held iff the last one was On |
| Player.PlayNoteKeepsInv | components/app.ts:55-66 | `playNote` keeps the ledger invariant |
| Player.StopNoteKeepsInv | components/app.ts:68-80 | `stopNote` keeps the ledger invariant |
| Player.PlayedCount | components/app.ts:43-66 | `play` raises each note's count by how often the chord holds it |
| Player.StoppedCount | components/app.ts:47-80 | `stop` lowers each note's count by how often the chord holds it, never below zero |
| Player.PlayThenStopRestores | components/app.ts:43-80 | `play(c)` then `stop(c)` restores every count |
| Player.HeardPlay | components/app.ts:43-66 | from `play`, one output hears a single Note On for a note iff the note was silent and is in the chord |
| Player.HeardStop | components/app.ts:47-80 | from `stop`, one output hears a single Note Off for a note iff it was held and the chord releases all holders |
| Player.SharedNote | components/app.ts:43-80 | after play A, play B, stop A a shared note is still counted, and each output heard one Note On and no Note Off for it |
| Player.SharedNoteReleased | components/app.ts:43-80 | after stop B as well the note is silent, and each output heard On then Off |
| Player.App.constructor | components/app.ts:13-14 | the ledger is empty and nothing has been sent |
| Player.App.SendToAll | components/app.ts:61 | every output receives the message, in list order; the ledger is unchanged |
| Player.App.PlayNote | components/app.ts:55-66 | the ledger and the log change as the `playNote` specification says, and the invariant holds |
| Player.App.StopNote | components/app.ts:68-80 | the ledger and the log change as the `stopNote` specification says, and the invariant holds |
| Player.App.Play | components/app.ts:43-45 | `playNote` for each note in order: ledger and log as the chord specification says |
| Player.App.Stop | components/app.ts:47-49 | `stopNote` for each note in order: ledger and log as the chord specification says |
| Sampler.SampleName | components/sampler.ts:88-93 | for a non-negative note, the flat name of its pitch class followed by `floor(n/12) - 1` |
| Sampler.NamesShape | components/sampler.ts:86 | 12 pairwise different names of one or two letters, the second letter always 'b' |
| Sampler.SampleNameOf | components/sampler.ts:88-93 | note `(o+1)*12 + pc` is named by pitch class `pc` and octave `o` |
| Sampler.SampleNameRoundTrip | components/sampler.ts:88-93 | every non-negative note can be read back from its sample name |
| Sampler.SampleNameInjective | components/sampler.ts:88-93 | different non-negative notes have different sample names |
| Sampler.SampleNameExamples | components/sampler.ts:89 | note 24 is "C1" and note 60 is "C4" |
| Sampler.StatusKind | components/sampler.ts:38 | `status & 0xF0` is a multiple of 16 between 0 and 0xF0 |
| Sampler.Dispatch | components/sampler.ts:36-42 | Note On with a nonzero velocity starts the note; Note On with velocity 0 or Note Off ends it; anything else is ignored |
| Sampler.ChannelIgnored | components/sampler.ts:38 | the channel nibble does not change the dispatch |
| Sampler.PlayerMessages | components/sampler.ts:38-40 | the app's Note On starts the note and its Note Off ends it, on every channel |
| Sampler.SampleCache.constructor | components/sampler.ts:7 | the cache is empty and nothing has been fetched |
| Sampler.SampleCache.Get | components/sampler.ts:69-84 | a cached note gets its stored promise and nothing changes; an uncached note gets a new promise, stored, and exactly one fetch |
| Sampler.SampleUrlInjective | components/sampler.ts:75-76 | different non-negative notes are fetched from different addresses |
| Sampler.ActionKeepsOneSource | components/sampler.ts:44-66 | every dispatched action, run to completion, keeps exactly one sounding source per playing note and none for other notes |
| Sampler.NoteOnResumed | components/sampler.ts:50-55 | after the wait, `noteOn` records the note as playing and adds one sounding source for it |
| Sampler.InterleavedNoteOnStartsTwice | components/sampler.ts:44-66 | Note On, Note Off, Note On during the download: both calls pass the `has` check, the Note Off stops nothing, and two sources sound for a note recorded once |
| Sampler.Synth.constructor | components/sampler.ts:26-34 | nothing is playing and nothing has sounded |
| Sampler.Synth.NoteOn | components/sampler.ts:44-56 | a playing note is left alone; otherwise its sample is taken from the cache as `getSampleBuffer` says (the stored promise, or a new one and exactly one fetch) and one source is started |
| Sampler.Synth.NoteOff | components/sampler.ts:58-66 | a note that is not playing is left alone; otherwise its source is stopped and its entry removed |
| Sampler.Synth.Send | components/sampler.ts:36-42 | the message is dispatched as `Dispatch` says, keeping one source per playing note; the cache changes only for a start of a note not playing, as `getSampleBuffer` says |
| BundleChord.SeventhReadBack | index.js:352-354 | a truthy seventh is stored, a falsy one removes the attribute, and the other getters are unchanged |
| BundleChord.WithSeventh | index.js:352-354 | only the seventh attribute changes: it is kept when truthy and removed otherwise |
| BundleChord.SeventhNamed | index.js:287-291 | a found seventh is stored under exactly that key |
| BundleChord.SeventhNamedOfName | index.js:287-291 | each seventh's key finds it again |
| BundleChord.Interval | index.js:287-291 | a seventh lies 9 to 11 semitones above the root |
| BundleChord.IntervalsAboveTriads | index.js:229-291 | every seventh lies above every triad's top note, and the three sevenths have different intervals |
| BundleChord.Notes | index.js:402-411 | a list iff the type is a key and the seventh is falsy or a key; an unknown type throws a TypeError and an unknown seventh gives NaN; otherwise 3 notes, or 4 with a truthy seventh, strictly ascending within an octave from the base, with the type's offsets then the seventh's |
| BundleChord.WithSeventhNote | index.js:407-409 | appending the seventh keeps the triad, adds a note above it at the seventh's interval, and stays ascending |
| BundleChord.NotesDetermineChord | index.js:402-411 | from the notes, the first three give the type, a fourth gives the seventh, and the lowest gives root and octave |
| BundleChord.NotesInjective | index.js:402-411 | two playable table chords with equal notes have equal root, octave, type and seventh |
| BundleChord.MiddleC | index.js:402-411 | C4 major is [60, 64, 67], also with an empty seventh; an unknown seventh yields NaN |
| BundleChord.MiddleCMinorSeventh | index.js:402-411 | C4 minor with a minor seventh is [60, 63, 67, 70] |
| BundleChord.ToJson | index.js:367-374 | the saved type and root are non-empty, the octave nonzero, and the seventh is the attribute |
| BundleChord.FromJson | index.js:362-366 | the restored chord reads the saved type, octave and root (the defaults where they are empty or 0), keeps a truthy seventh only, and has neither `--index` nor `data-circle` |
| BundleChord.FromJsonRoundTrip | index.js:352-374 | every JSON value `toJSON` can produce without an empty seventh is saved again unchanged after `fromJSON` |
| BundleChord.ToJsonRoundTrip | index.js:352-374 | a saved and restored chord plays and shows the same and saves the same, except that an empty seventh attribute becomes null |
| BundleChord.CloneNode | index.js:396-401 | a clone has neither `--index` nor `data-circle` |
| BundleChord.CloneSame | index.js:396-401 | a clone saves, plays and shows like its original |
| BundleChord.UnknownSeventhHidden | index.js:458-467 | a seventh that is no key leaves no trace in the label |
| BundleChord.FormatLabel | index.js:458-467 | without a known seventh the label is the component one for a table type and the bare root for any other; a known seventh appends its suffix |
| BundleChord.LabelRoundTrip | index.js:447-467 | the label of a playable chord with a table root parses back to its root, type and seventh |
| BundleChord.LabelInjective | index.js:447-467 | playable table chords show equal labels only with equal root, type and seventh |
| BundleChord.Chord.constructor | index.js:357-361 | a new chord has no attributes |
| BundleChord.Chord.Restore | index.js:362-366 | `fromJSON` runs the type, octave, root and seventh setters in that order |
| BundleChord.Chord.SetOctave | index.js:334-336 | the octave attribute becomes `String(octave)` |
| BundleChord.Chord.SetRoot | index.js:340-342 | the root attribute becomes the value |
| BundleChord.Chord.SetType | index.js:346-348 | the type attribute becomes the value |
| BundleChord.Chord.SetSeventh | index.js:352-354 | a truthy seventh is set, a falsy one removed |
| BundleChord.Chord.Clone | index.js:396-401 | a new element with the attributes minus `--index` and `data-circle`; the original is unchanged |
| BundleLayout.Ring | index.js:533-545 | 12 chords, chord `i` with octave, type, root `numberToNote(base + 5i)`, index `i` and the type's circle |
| BundleLayout.RingExtends | index.js:533-545 | the bundled ring is the component ring with a circle and no seventh on every chord |
| BundleLayout.RingRootsAgree | index.js:533-545 | each chord of the bundled ring has the root of the component ring's chord at the same place |
| BundleLayout.FifthsOn | index.js:514-518 | the fifths layout on a pitch class has 24 chords |
| BundleLayout.Fifths | index.js:513-519 | "fifths" is the major ring on the root then the minor ring on its relative minor |
| BundleLayout.RingReads | index.js:533-545 | chord `i` reads the root `5i` up, the octave, the type, no seventh, index `i`, and its circle |
| BundleLayout.FifthsRead | index.js:513-545 | chord `k` is major on the large circle `5k` above the root; chord `12 + k` is minor on the small circle `5k` above the relative minor; same octave, index `k`, no seventh |
| BundleLayout.RingAllNames | index.js:533-545 | on a pitch class the ring holds every pitch name once |
| BundleLayout.FifthsPermutation | index.js:513-545 | each circle of the fifths layout holds the 12 pitch names, each once |
| BundleLayout.ScaleNamed | index.js:554-564 | "major", "minor-natural" and "minor-harmonic" pick their scales; no other type picks one |
| BundleLayout.Scale | index.js:554-564 | every scale has 7 degrees |
| BundleLayout.GenerateTriads | index.js:546-577 | a type that picks no scale throws a TypeError; otherwise the triads of the picked scale on the root, which never throw, whatever the root: 7 chords with the scale's types |
| BundleLayout.TriadsOnTypes | index.js:565-576 | whether the map throws depends on the scale alone: when every degree's type is found it gives one chord of that type per degree, whatever the base |
| BundleLayout.MajorQualities | index.js:565-575 | the major degrees classify as major, minor, minor, major, major, minor, diminished |
| BundleLayout.NaturalMinorQualities | index.js:565-575 | the natural minor degrees classify as minor, diminished, major, minor, minor, major, major |
| BundleLayout.ScaleQuality | index.js:565-575 | for each scale and degree, `findChordType` does not throw |
| BundleLayout.ScaleTypesFound | index.js:565-575 | every degree of each scale has a table type |
| BundleLayout.TriadsRead | index.js:546-577 | for each scale, on a non-negative base, 7 chords with the scale's types, roots on its degrees, the octave, and no seventh or circle |
| BundleLayout.TriadsFound | index.js:565-576 | when every degree's type is found, the map gives one such chord per degree |
| BundleLayout.Generated | index.js:510-531 | `generate` never throws: each triads type picks a scale `generateTriads` knows |
| BundleLayout.GeneratedSizes | index.js:510-531 | whatever the root, "fifths" gives 24 chords, each of the three triads types 7, any other type none |
| BundleLayout.Layout.constructor | index.js:501-503 | a new layout has no attributes and no children |
| BundleLayout.Layout.Generate | index.js:510-531 | the children become what the type generates, which never throws |
| BundleLayout.Layout.SetType | index.js:498-509 | the type attribute is set and the children regenerated |
| BundleLayout.Layout.SetRoot | index.js:492-509 | the root attribute is set and the children regenerated |
| BundleLayout.Layout.SetOctave | index.js:486-509 | the octave attribute is set and the children regenerated |

## Left out

- **Sound and I/O.**
  - The Web Audio graph is not modelled: `AudioContext`, the compressor, buffer sources, `decodeAudioData`.
  - Neither is `fetch`.
  - A started or stopped source is recorded as a `Sound`.
  - A cache entry is a numbered promise.
- **The wait inside `noteOn`.**
  - Sampler.Synth.NoteOn runs to completion in one step. In the source it checks `playing`, awaits the sample, and only then starts a source and sets `playing` (components/sampler.ts:46-55), so other messages can be handled during the wait.
  - Sampler.Synth.Send and Sampler.ActionKeepsOneSource therefore keep one source per playing note only when each `noteOn` finishes before the next message for the same note.
  - Sampler.InterleavedNoteOnStartsTwice shows the cost. Take Note On, Note Off, Note On for one note while its sample is still downloading, as a chord pressed, released and pressed again on first use sends. Two sources start and `playing` keeps one, so the first is never stopped.
- **App set-up.**
  - Web MIDI access (`requestAccess`) is not modelled.
  - Neither are `App.connectedCallback` and its `outputs` assignment: it is browser I/O, so the outputs are a constructor argument.
  - Hash routing and `loadState` are left out, and so are `toggleMenu` and the menu.
- **UI and persistence.**
  - The menu, the chord list, the song and favourites panels and `localStorage` persistence are DOM and browser storage. The JSON text layer (`JSON.stringify`/`parse`) goes with them; only the `toJSON`/`fromJSON` values are modelled.
  - So are `innerHTML` rendering, the `<select>` builders, custom-element registration and the `change` event dispatch.
- **Floating point.**
  - `noteNumberToFrequency`, `ATTACK`/`RELEASE` and the `--hue` angle of `updateHue` are floating point.
  - The `--octave` style property is only display.
- **Logging.** The `console.log` calls in layout.ts:81-82 print only.
- **Code shared by the bundle.** The bundle's copies of the app, the sampler, the note tables and the chord press handling are not modelled a second time (see above). `BundleChord.Chord` therefore holds attributes only; its press handling is that of `ChordModel.Chord`.
- **Value contracts.**
  - ChordModel.TypeSuffix, ChordModel.FormatLabel, BundleChord.FormatLabel, BundleChord.UnknownSeventhHidden and BundleChord.Notes read `TYPE_SUFFIX[type]`, `SEVENTH_SUFFIX[seventh]` and `Sevenths[seventh]` as one of the listed keys or `undefined`.
    - The source's tables are object literals, so a name inherited from `Object.prototype` (such as "constructor" or "toString") finds a function, and the model reads it as unknown.
    - So the label of type "constructor" shows the function's text after the root, where the model shows "undefined" (components/chord.ts:105) or nothing (index.js:466).
    - A seventh "toString" appends the function's text to the bundled label, and `notes` pushes a string for it, where the model gives `Err(NotANumber)`.
  - Js.IntToString and Js.NumberOfString are stated for every integer. JavaScript prints integers of 1e21 and more in exponent form and holds integers exactly only up to 2^53. The program writes only octaves and indices, which are far below both.
  - ChordModel.Octave, OldChord.Octave, Layout.Octave, OldLayout.Octave and BundleChord.Octave read an octave attribute through `Js.ToNumber`, which accepts only an optional minus sign followed by decimal digits. `Number` also reads some other spellings as finite numbers: surrounding white space, a leading `+`, a decimal point, an exponent, a hexadecimal, binary or octal prefix, and "Infinity". The model reads those as NaN, and so as the default octave. The program itself only writes `String` of an integer into these attributes.
  - BundleChord.Notes: for a truthy seventh that is no key, the source pushes `NaN` as a fourth note; the model returns `Err(NotANumber)` instead of a list holding NaN.
  - Music.NumberToNote: the contract speaks only of non-negative numbers. A negative number gives `undefined` unless it is a multiple of 12; the function computes that, but no lemma is stated about it.
  - OldMusic.NumberToNote: likewise.
  - Sampler.SampleName: the contract speaks only of non-negative notes. For a negative note that is not a multiple of 12 the source prints "undefined" followed by the octave.
- **Chords by their notes.**
  - Player.App.Play and Player.App.Stop take the chord's note list rather than the chord. Reading `notes` of an unknown type, which throws before anything is sent, is modelled for the oldest app in OldApp.App.Play.
  - ChordModel.Chord.PointerDown: the calls are recorded as `PlayChord`/`StopChord` events rather than carried out on the app.
- **Unknown inputs.**
  - Layout.TriadsRead, OldLayout.TriadsRead and BundleLayout.TriadsRead are stated for table roots, or a non-negative base. For a root outside the table, `noteToNumber` gives -1, and the degree-0 root is `numberToNote(-1)`, which is `undefined`.
  - The model computes that case but states no lemma about it.
