/** The built-in sample player of the component version (`Synth` in
    components/sampler.ts): how an incoming three-byte message is dispatched,
    the `playing` map that guards against starting a note twice, the
    per-note cache of sample downloads, and the file name of a note's
    sample. The audio graph itself is not modelled: a started or stopped
    buffer source is recorded as a `Sound`. */
module Sampler {
  import opened Js
  import opened Midi
  import Player

  // ---- sample names ----

  /** The pitch names of the sample files, with flats. */
  const NAMES: seq<string> := ["C", "Db", "D", "Eb", "E", "F", "Gb", "G", "Ab", "A", "Bb", "B"]

  /** `getSampleName`: the name of note `n % 12` followed by the octave
      `Math.floor(n / 12) - 1` (Dafny's `/` by a positive number floors), so
      note 24 is "C1". A negative note that is not a multiple of 12 reads
      `NAMES[-k]`, which is `undefined`. */
  function SampleName(n: int): (r: string)
    ensures n >= 0 ==> r == NAMES[n % 12] + IntToString(n / 12 - 1)
  {
    Stringify(At(NAMES, Rem(n, 12))) + IntToString(n / 12 - 1)
  }

  /** The first index from `i` on whose table name is `head`, -1 when
      there is none. */
  function FindName(head: string, i: nat): (r: int)
    requires i <= 12
    ensures r == -1 || (i <= r < 12 && NAMES[r] == head)
    ensures r == -1 ==> forall j :: i <= j < 12 ==> NAMES[j] != head
    ensures r != -1 ==> forall j :: i <= j < r ==> NAMES[j] != head
    decreases 12 - i
  {
    if i == 12 then -1 else if NAMES[i] == head then i else FindName(head, i + 1)
  }

  /** The table name at the head of a sample name (the two-letter one when
      it fits), as its index, and the text after it. */
  function SplitName(name: string): Option<(int, string)>
  {
    var k := if |name| >= 2 && FindName(name[..2], 0) != -1 then 2 else 1;
    var i := if |name| >= k then FindName(name[..k], 0) else -1;
    if |name| <= k || i == -1 then None else Some((i, name[k..]))
  }

  /** Reading a sample name back: a table name followed by the decimal
      octave. */
  function NoteOfSampleName(name: string): Option<int>
  {
    match SplitName(name)
    case None => None
    case Some((pc, rest)) =>
      match ToNumber(rest)
      case Finite(octave) => Some((octave + 1) * 12 + pc)
      case NaN => None
  }

  lemma NamesShape()
    ensures |NAMES| == 12
    ensures forall i :: 0 <= i < 12 ==> 1 <= |NAMES[i]| <= 2
    ensures forall i :: 0 <= i < 12 && |NAMES[i]| == 2 ==> NAMES[i][1] == 'b'
    ensures forall i, j :: 0 <= i < j < 12 ==> NAMES[i] != NAMES[j]
  {
  }

  /** Each table name is found at its own index. */
  lemma FindNameOf(i: int)
    requires 0 <= i < 12
    ensures FindName(NAMES[i], 0) == i
  {
    NamesShape();
  }

  /** A two-letter text that does not end in 'b' is no table name. */
  lemma FindNoFlat(head: string)
    requires |head| == 2 && head[1] != 'b'
    ensures FindName(head, 0) == -1
  {
    NamesShape();
  }

  /** A name followed by octave text splits after exactly that name. */
  lemma NamePrefix(i: int, rest: string)
    requires 0 <= i < 12
    requires rest != [] && (rest[0] == '-' || IsDigit(rest[0]))
    ensures SplitName(NAMES[i] + rest) == Some((i, rest))
  {
    var name := NAMES[i] + rest;
    var k := |NAMES[i]|;
    assert 1 <= k <= 2 && (k == 2 ==> NAMES[i][1] == 'b') by {
      NamesShape();
    }
    assert name[..k] == NAMES[i] && name[k..] == rest;
    if k == 1 {
      assert name[..2] == NAMES[i] + [rest[0]];
      FindNoFlat(name[..2]);
    }
    FindNameOf(i);
  }

  /** The sample name of a note from its pitch class and octave. */
  lemma SampleNameParts(n: int, pc: int, o: int)
    requires n >= 0 && n % 12 == pc && n / 12 - 1 == o
    ensures SampleName(n) == NAMES[pc] + IntToString(o)
  {
  }

  /** The sample name of note `(o + 1) * 12 + pc` is the name of pitch
      class `pc` followed by `o`. */
  lemma SampleNameOf(o: int, pc: int)
    requires o >= -1 && 0 <= pc < 12
    ensures SampleName((o + 1) * 12 + pc) == NAMES[pc] + IntToString(o)
  {
    var k := o + 1;
    var n := k * 12 + pc;
    assert n == 12 * k + pc && n >= 0;
    DivModTwelve(n, k, pc);
    SampleNameParts(n, pc, o);
  }

  /** A pitch name followed by an octave reads back as that note. */
  lemma ParseSampleName(pc: int, o: int)
    requires 0 <= pc < 12
    ensures NoteOfSampleName(NAMES[pc] + IntToString(o)) == Some((o + 1) * 12 + pc)
  {
    NamePrefix(pc, IntToString(o));
    NumberOfString(o);
  }

  /** Every non-negative note can be read back from its sample name. */
  lemma SampleNameRoundTrip(n: int)
    requires n >= 0
    ensures NoteOfSampleName(SampleName(n)) == Some(n)
  {
    var pc, q := n % 12, n / 12;
    assert n == q * 12 + pc;
    var o := q - 1;
    assert (o + 1) * 12 + pc == n;
    SampleNameOf(o, pc);
    ParseSampleName(pc, o);
  }

  /** Different non-negative notes have different sample files. */
  lemma SampleNameInjective(m: int, n: int)
    requires m >= 0 && n >= 0 && SampleName(m) == SampleName(n)
    ensures m == n
  {
    SampleNameRoundTrip(m);
    SampleNameRoundTrip(n);
  }

  /** Note 24 is "C1", middle C (60) is "C4". */
  lemma SampleNameExamples()
    ensures SampleName(24) == "C1"
    ensures SampleName(60) == "C4"
  {
    SampleNameOf(1, 0);
    SampleNameOf(4, 0);
  }

  // ---- dispatch ----

  /** `status & 0xF0`: the message kind without the channel. JavaScript's
      `&` works on the two's-complement 32-bit form, whose low byte is the
      Euclidean remainder by 256. */
  function StatusKind(status: int): (r: int)
    ensures 0 <= r <= 0xF0 && r % 16 == 0
  {
    (status % 256) / 16 * 16
  }

  /** What `send` does with a message. */
  datatype Action = StartNote(note: int) | EndNote(note: int) | Ignore

  /** `send`: a Note On with a nonzero velocity starts the note; a Note On
      with velocity 0 and a Note Off end it; anything else is ignored. */
  function Dispatch(m: Message): (r: Action)
    ensures r.StartNote? <==> StatusKind(m.status) == NOTE_ON && m.velocity != 0
    ensures r.EndNote? <==>
      (StatusKind(m.status) == NOTE_ON && m.velocity == 0) || StatusKind(m.status) == NOTE_OFF
    ensures !r.Ignore? ==> r.note == m.note
  {
    var kind := StatusKind(m.status);
    if kind == NOTE_ON then (if m.velocity != 0 then StartNote(m.note) else EndNote(m.note))
    else if kind == NOTE_OFF then EndNote(m.note)
    else Ignore
  }

  /** The low four bits of the status, the channel, do not matter. */
  lemma ChannelIgnored(high: int, channel: int)
    requires 0 <= channel < 16
    ensures StatusKind(16 * high + channel) == StatusKind(16 * high)
  {
    var q, d := high % 16, high / 16;
    DivModByte(16 * high + channel, d, 16 * q + channel);
    DivModByte(16 * high, d, 16 * q);
    DivModSixteen(16 * q + channel, q, channel);
    DivModSixteen(16 * q, q, 0);
  }

  /** What the player sends is understood: its Note On starts the note, on
      every channel, and its Note Off ends it. */
  lemma PlayerMessages(note: int, channel: int)
    requires 0 <= channel < 16
    ensures Dispatch(Player.NoteOn(note)) == StartNote(note)
    ensures Dispatch(Player.NoteOff(note)) == EndNote(note)
    ensures Dispatch(Message(NOTE_ON + channel, note, Player.VELOCITY)) == StartNote(note)
    ensures Dispatch(Message(NOTE_ON + channel, note, 0)) == EndNote(note)
    ensures Dispatch(Message(NOTE_OFF + channel, note, 0)) == EndNote(note)
  {
    ChannelIgnored(9, channel);
    ChannelIgnored(8, channel);
  }

  // ---- the sample cache ----

  /** The module-level `samples` map: one promise per note, created on the
      first request, which is also the only one that starts a download. */
  class SampleCache {
    /** Note to the promise handed out for it; promises are numbered. */
    var samples: map<int, nat>
    /** The notes whose sample file was fetched, in order. */
    var fetched: seq<int>
    /** How many promises were created. */
    var promises: nat

    ghost predicate Valid()
      reads this
    {
      && (forall i, j :: 0 <= i < j < |fetched| ==> fetched[i] != fetched[j])
      && (forall n :: n in samples <==> n in fetched)
      && (forall n :: n in samples ==> samples[n] < promises)
    }

    constructor()
      ensures Valid()
      ensures samples == map[] && fetched == [] && promises == 0
    {
      samples := map[];
      fetched := [];
      promises := 0;
    }

    /** `getSampleBuffer`: the stored promise when there is one; otherwise
        a new promise is stored and the note's sample is fetched. */
    method Get(note: int) returns (promise: nat)
      requires Valid()
      modifies this
      ensures Valid()
      ensures note in samples && samples[note] == promise
      ensures note in old(samples) ==>
        promise == old(samples)[note] && samples == old(samples)
        && fetched == old(fetched) && promises == old(promises)
      ensures note !in old(samples) ==>
        promise == old(promises) && promises == old(promises) + 1
        && samples == old(samples)[note := promise] && fetched == old(fetched) + [note]
    {
      if note in samples {
        return samples[note];
      }
      promise := promises;
      promises := promises + 1;
      samples := samples[note := promise];
      fetched := fetched + [note];
    }
  }

  /** The address a note's sample is fetched from. */
  function SampleUrl(note: int): string
  {
    "https://raw.githubusercontent.com/fuhton/piano-mp3/refs/heads/master/piano-mp3/"
      + SampleName(note) + ".mp3"
  }

  /** Distinct non-negative notes are fetched from distinct addresses. */
  lemma SampleUrlInjective(m: int, n: int)
    requires m >= 0 && n >= 0 && SampleUrl(m) == SampleUrl(n)
    ensures m == n
  {
    var prefix := "https://raw.githubusercontent.com/fuhton/piano-mp3/refs/heads/master/piano-mp3/";
    var a, b, u := SampleName(m), SampleName(n), SampleUrl(m);
    assert |a| == |b|;
    assert a == u[|prefix|..|prefix| + |a|];
    assert b == u[|prefix|..|prefix| + |b|];
    SampleNameInjective(m, n);
  }

  // ---- the synthesizer ----

  /** A `start()` or `stop()` call on a note's buffer source. */
  datatype Sound = Started(note: int) | Stopped(note: int)

  /** Sources started minus sources stopped for note `n`. */
  function Live(sounds: seq<Sound>, n: int): int
  {
    if sounds == [] then 0 else LiveIn(sounds[0], n) + Live(sounds[1..], n)
  }

  function LiveIn(s: Sound, n: int): int
  {
    if s.note != n then 0 else if s.Started? then 1 else -1
  }

  lemma {:induction false} LiveAppend(a: seq<Sound>, b: seq<Sound>, n: int)
    ensures Live(a + b, n) == Live(a, n) + Live(b, n)
  {
    if a == [] {
      assert a + b == b;
    } else {
      assert (a + b)[1..] == a[1..] + b;
      LiveAppend(a[1..], b, n);
    }
  }

  /** The keys of `playing` after an action. */
  function PlayingAfter(playing: set<int>, a: Action): set<int>
  {
    match a
    case StartNote(n) => playing + {n}
    case EndNote(n) => playing - {n}
    case Ignore => playing
  }

  /** The sources an action starts or stops: none when the guard on
      `playing` says the note is already in the wanted state. */
  function SoundsOf(playing: set<int>, a: Action): seq<Sound>
  {
    match a
    case StartNote(n) => if n in playing then [] else [Started(n)]
    case EndNote(n) => if n in playing then [Stopped(n)] else []
    case Ignore => []
  }

  /** The synthesizer's invariant: a note in `playing` has exactly one
      source sounding, every other note none. */
  ghost predicate OneSourceEach(playing: set<int>, sounds: seq<Sound>)
  {
    forall n :: Live(sounds, n) == if n in playing then 1 else 0
  }

  /** Every action keeps one source per playing note. */
  lemma ActionKeepsOneSource(playing: set<int>, sounds: seq<Sound>, a: Action)
    requires OneSourceEach(playing, sounds)
    ensures OneSourceEach(PlayingAfter(playing, a), sounds + SoundsOf(playing, a))
  {
    forall n
      ensures Live(sounds + SoundsOf(playing, a), n) == if n in PlayingAfter(playing, a) then 1 else 0
    {
      var extra := SoundsOf(playing, a);
      LiveAppend(sounds, extra, n);
      if extra != [] {
        assert Live(extra, n) == LiveIn(extra[0], n) + Live(extra[1..], n);
        assert extra[1..] == [];
      }
    }
  }

  // ---- the wait inside `noteOn` ----

  /** The check `noteOn` makes before it waits for the sample. */
  predicate NoteOnPasses(playing: set<int>, n: int)
  {
    n !in playing
  }

  /** What `noteOn` does once the sample has arrived: start a source and
      record the note as playing. */
  function NoteOnResumed(playing: set<int>, sounds: seq<Sound>, n: int): (r: (set<int>, seq<Sound>))
    ensures n in r.0 && Live(r.1, n) == Live(sounds, n) + 1
  {
    LiveAppend(sounds, [Started(n)], n);
    (playing + {n}, sounds + [Started(n)])
  }

  /** Note On, Note Off and Note On for one note, the Note Off and the
      second Note On arriving while the first call waits for the sample:
      both calls pass the check, the Note Off finds nothing to stop, and
      once both resume two sources sound for a note recorded once, so the
      first is never stopped. `Synth.NoteOn` runs to completion in one
      step and does not have this interleaving. */
  lemma InterleavedNoteOnStartsTwice(n: int)
    ensures NoteOnPasses({}, n)
    ensures PlayingAfter({}, EndNote(n)) == {} && SoundsOf({}, EndNote(n)) == []
    ensures NoteOnPasses(PlayingAfter({}, EndNote(n)), n)
    ensures var (p1, s1) := NoteOnResumed({}, [], n);
      var (p2, s2) := NoteOnResumed(p1, s1, n);
      p2 == {n} && Live(s2, n) == 2 && !OneSourceEach(p2, s2)
  {
    var (p1, s1) := NoteOnResumed({}, [], n);
    var (p2, s2) := NoteOnResumed(p1, s1, n);
    assert Live([], n) == 0;
    assert Live(s2, n) == 2;
    assert p2 == {n};
  }

  /** The sample player as one of the app's outputs. */
  class Synth {
    const cache: SampleCache
    /** The keys of the `playing` map. */
    var playing: set<int>
    /** The buffer-source calls made so far. */
    var sounds: seq<Sound>

    ghost predicate Valid()
      reads this, cache
    {
      cache.Valid() && OneSourceEach(playing, sounds)
    }

    constructor(cache: SampleCache)
      requires cache.Valid()
      ensures Valid()
      ensures this.cache == cache && playing == {} && sounds == []
    {
      this.cache := cache;
      playing := {};
      sounds := [];
    }

    /** `noteOn`: nothing when the note is playing; otherwise its sample is
        taken from the cache and a source is started. */
    method NoteOn(note: int)
      requires Valid()
      modifies this, cache
      ensures Valid()
      ensures playing == PlayingAfter(old(playing), StartNote(note))
      ensures sounds == old(sounds) + SoundsOf(old(playing), StartNote(note))
      ensures note in old(playing) ==> unchanged(cache)
      ensures note !in old(playing) ==> note in cache.samples
      ensures note !in old(playing) && note in old(cache.samples) ==>
        cache.samples == old(cache.samples) && cache.fetched == old(cache.fetched)
        && cache.promises == old(cache.promises)
      ensures note !in old(playing) && note !in old(cache.samples) ==>
        cache.samples == old(cache.samples)[note := old(cache.promises)]
        && cache.fetched == old(cache.fetched) + [note] && cache.promises == old(cache.promises) + 1
    {
      ActionKeepsOneSource(playing, sounds, StartNote(note));
      if note in playing {
        return;
      }
      var buffer := cache.Get(note);
      sounds := sounds + [Started(note)];
      playing := playing + {note};
    }

    /** `noteOff`: nothing when the note is not playing; otherwise its
        source is stopped and the entry removed. */
    method NoteOff(note: int)
      requires Valid()
      modifies this
      ensures Valid()
      ensures playing == PlayingAfter(old(playing), EndNote(note))
      ensures sounds == old(sounds) + SoundsOf(old(playing), EndNote(note))
    {
      ActionKeepsOneSource(playing, sounds, EndNote(note));
      if note !in playing {
        return;
      }
      sounds := sounds + [Stopped(note)];
      playing := playing - {note};
    }

    /** `send`: dispatch on the message kind. */
    method Send(data: Message)
      requires Valid()
      modifies this, cache
      ensures Valid()
      ensures playing == PlayingAfter(old(playing), Dispatch(data))
      ensures sounds == old(sounds) + SoundsOf(old(playing), Dispatch(data))
      ensures !Dispatch(data).StartNote? ==> unchanged(cache)
      ensures Dispatch(data).StartNote? && Dispatch(data).note in old(playing) ==> unchanged(cache)
      ensures (Dispatch(data).StartNote? && Dispatch(data).note !in old(playing)
        && Dispatch(data).note in old(cache.samples)) ==>
          cache.samples == old(cache.samples) && cache.fetched == old(cache.fetched)
          && cache.promises == old(cache.promises)
      ensures (Dispatch(data).StartNote? && Dispatch(data).note !in old(playing)
        && Dispatch(data).note !in old(cache.samples)) ==>
          cache.samples == old(cache.samples)[Dispatch(data).note := old(cache.promises)]
          && cache.fetched == old(cache.fetched) + [Dispatch(data).note] && cache.promises == old(cache.promises) + 1
    {
      match Dispatch(data)
      case StartNote(n) => NoteOn(n);
      case EndNote(n) => NoteOff(n);
      case Ignore =>
    }
  }
}
