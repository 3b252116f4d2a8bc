/** The note player of the component version (`App` in components/app.ts):
    a ledger counts how many held chords want each note number to sound, and
    a Note On or Note Off message goes to every output only when a note's
    count leaves or reaches zero. */
module Player {
  import opened Midi

  /** The MIDI channel every message is sent on. */
  const CHANNEL: int := 0

  /** The velocity of every message. */
  const VELOCITY: int := 100

  function NoteOn(note: int): Message { Message(NOTE_ON + CHANNEL, note, VELOCITY) }

  function NoteOff(note: int): Message { Message(NOTE_OFF + CHANNEL, note, VELOCITY) }

  /** A message as received by the output at position `output` of the
      outputs list. */
  datatype Sent = Sent(output: nat, message: Message)

  /** `outputs.forEach(output => output.send(message))` with `k` outputs:
      one copy of the message per output, in list order. */
  function Broadcast(k: nat, message: Message): (r: seq<Sent>)
    ensures |r| == k
    ensures forall i :: 0 <= i < k ==> r[i] == Sent(i, message)
  {
    if k == 0 then [] else Broadcast(k - 1, message) + [Sent(k - 1, message)]
  }

  // ---- the ledger, one note at a time ----

  /** Note number to the number of holders; JavaScript keeps an entry at 0
      once a note has been stopped, so an entry may be 0. */
  type Ledger = map<int, nat>

  /** `playingNotes.get(note) || 0`. */
  function Count(m: Ledger, note: int): nat
  {
    if note in m then m[note] else 0
  }

  /** The ledger after `playNote(note)`. */
  function AfterPlayNote(m: Ledger, note: int): (r: Ledger)
    ensures Count(r, note) == Count(m, note) + 1
    ensures forall x :: x != note ==> Count(r, x) == Count(m, x)
  {
    m[note := Count(m, note) + 1]
  }

  /** What `playNote(note)` sends with `k` outputs: a Note On to every output
      exactly when nobody held the note before. */
  function PlayNoteLog(m: Ledger, note: int, k: nat): (r: seq<Sent>)
    ensures |r| == if Count(m, note) == 0 then k else 0
    ensures forall i :: 0 <= i < |r| ==> r[i] == Sent(i, NoteOn(note))
  {
    if Count(m, note) == 0 then Broadcast(k, NoteOn(note)) else []
  }

  /** The ledger after `stopNote(note)`: unchanged when the count is 0,
      otherwise one holder fewer. */
  function AfterStopNote(m: Ledger, note: int): (r: Ledger)
    ensures Count(m, note) == 0 ==> r == m
    ensures Count(m, note) > 0 ==> Count(r, note) == Count(m, note) - 1
    ensures forall x :: x != note ==> Count(r, x) == Count(m, x)
  {
    var current := Count(m, note);
    if current == 0 then m else m[note := current - 1]
  }

  /** What `stopNote(note)` sends: a Note Off to every output exactly when
      the last holder lets go. */
  function StopNoteLog(m: Ledger, note: int, k: nat): (r: seq<Sent>)
    ensures |r| == if Count(m, note) == 1 then k else 0
    ensures forall i :: 0 <= i < |r| ==> r[i] == Sent(i, NoteOff(note))
  {
    if Count(m, note) == 1 then Broadcast(k, NoteOff(note)) else []
  }

  // ---- a whole chord: the notes in order ----

  /** The ledger after `play` of a chord whose notes are `ns`. */
  function Played(m: Ledger, ns: seq<int>): Ledger
  {
    if ns == [] then m else AfterPlayNote(Played(m, ns[..|ns| - 1]), ns[|ns| - 1])
  }

  /** What `play` of the notes `ns` sends. */
  function PlayLog(m: Ledger, ns: seq<int>, k: nat): seq<Sent>
  {
    if ns == [] then []
    else PlayLog(m, ns[..|ns| - 1], k) + PlayNoteLog(Played(m, ns[..|ns| - 1]), ns[|ns| - 1], k)
  }

  /** The ledger after `stop` of the notes `ns`. */
  function Stopped(m: Ledger, ns: seq<int>): Ledger
  {
    if ns == [] then m else AfterStopNote(Stopped(m, ns[..|ns| - 1]), ns[|ns| - 1])
  }

  /** What `stop` of the notes `ns` sends. */
  function StopLog(m: Ledger, ns: seq<int>, k: nat): seq<Sent>
  {
    if ns == [] then []
    else StopLog(m, ns[..|ns| - 1], k) + StopNoteLog(Stopped(m, ns[..|ns| - 1]), ns[|ns| - 1], k)
  }

  // ---- what one output hears about one note ----

  /** The statuses of the messages in `log` that output `o` received about
      note `n`, in order. */
  function Heard(log: seq<Sent>, o: int, n: int): seq<int>
  {
    if log == [] then [] else HeardIn(log[0], o, n) + Heard(log[1..], o, n)
  }

  function HeardIn(s: Sent, o: int, n: int): seq<int>
  {
    if s.output == o && s.message.note == n then [s.message.status] else []
  }

  /** On, Off, On, Off, ... starting with On. */
  ghost predicate Alternating(statuses: seq<int>)
  {
    forall i :: 0 <= i < |statuses| ==>
      statuses[i] == if i % 2 == 0 then NoteOn(0).status else NoteOff(0).status
  }

  /** The ledger's invariant against what was sent: for every output and
      every note, the messages alternate On/Off starting with On, and the
      note is held exactly when the last message was an On. */
  ghost predicate LedgerInv(m: Ledger, log: seq<Sent>, k: nat)
  {
    forall o, n :: 0 <= o < k ==>
      Alternating(Heard(log, o, n)) && (Count(m, n) > 0 <==> |Heard(log, o, n)| % 2 == 1)
  }

  lemma {:induction false} HeardAppend(a: seq<Sent>, b: seq<Sent>, o: int, n: int)
    ensures Heard(a + b, o, n) == Heard(a, o, n) + Heard(b, o, n)
  {
    if a == [] {
      assert a + b == b;
    } else {
      assert (a + b)[1..] == a[1..] + b;
      HeardAppend(a[1..], b, o, n);
    }
  }

  lemma {:induction false} HeardBroadcast(k: nat, message: Message, o: int, n: int)
    ensures Heard(Broadcast(k, message), o, n)
         == if 0 <= o < k && message.note == n then [message.status] else []
  {
    if k > 0 {
      var last := [Sent(k - 1, message)];
      HeardBroadcast(k - 1, message, o, n);
      HeardAppend(Broadcast(k - 1, message), last, o, n);
      assert Heard(last, o, n) == HeardIn(last[0], o, n) + Heard([], o, n);
    }
  }

  /** What one output hears about one note from a `playNote`. */
  lemma HeardPlayNote(m: Ledger, note: int, k: nat, o: int, n: int)
    ensures Heard(PlayNoteLog(m, note, k), o, n)
         == if 0 <= o < k && n == note && Count(m, note) == 0 then [NoteOn(note).status] else []
  {
    if Count(m, note) == 0 {
      HeardBroadcast(k, NoteOn(note), o, n);
    }
  }

  /** What one output hears about one note from a `stopNote`. */
  lemma HeardStopNote(m: Ledger, note: int, k: nat, o: int, n: int)
    ensures Heard(StopNoteLog(m, note, k), o, n)
         == if 0 <= o < k && n == note && Count(m, note) == 1 then [NoteOff(note).status] else []
  {
    if Count(m, note) == 1 {
      HeardBroadcast(k, NoteOff(note), o, n);
    }
  }

  /** One step of the invariant, for one output and one note: from a
      silent note an On may be heard and the note becomes held; otherwise
      nothing is heard and whether the note is held does not change.
      Likewise with Off from a held note to a silent one. */
  lemma InvStep(h: seq<int>, extra: seq<int>, before: nat, after: nat)
    requires Alternating(h) && (before > 0 <==> |h| % 2 == 1)
    requires || (extra == [NoteOn(0).status] && before == 0 && after > 0)
             || (extra == [NoteOff(0).status] && before > 0 && after == 0)
             || (extra == [] && (before > 0 <==> after > 0))
    ensures Alternating(h + extra) && (after > 0 <==> |h + extra| % 2 == 1)
  {
    var t := h + extra;
    forall i | 0 <= i < |t|
      ensures t[i] == if i % 2 == 0 then NoteOn(0).status else NoteOff(0).status
    {
      if i < |h| { assert t[i] == h[i]; }
    }
  }

  /** `playNote` keeps the invariant for one output and one note. */
  lemma PlayNoteKeepsAt(m: Ledger, log: seq<Sent>, k: nat, note: int, o: int, n: int)
    requires 0 <= o < k
    requires Alternating(Heard(log, o, n)) && (Count(m, n) > 0 <==> |Heard(log, o, n)| % 2 == 1)
    ensures var h := Heard(log + PlayNoteLog(m, note, k), o, n);
      Alternating(h) && (Count(AfterPlayNote(m, note), n) > 0 <==> |h| % 2 == 1)
  {
    var sent := PlayNoteLog(m, note, k);
    HeardAppend(log, sent, o, n);
    HeardPlayNote(m, note, k, o, n);
    InvStep(Heard(log, o, n), Heard(sent, o, n), Count(m, n), Count(AfterPlayNote(m, note), n));
  }

  /** `playNote` keeps the invariant. */
  lemma PlayNoteKeepsInv(m: Ledger, log: seq<Sent>, k: nat, note: int)
    requires LedgerInv(m, log, k)
    ensures LedgerInv(AfterPlayNote(m, note), log + PlayNoteLog(m, note, k), k)
  {
    forall o, n | 0 <= o < k
      ensures var h := Heard(log + PlayNoteLog(m, note, k), o, n);
        Alternating(h) && (Count(AfterPlayNote(m, note), n) > 0 <==> |h| % 2 == 1)
    {
      PlayNoteKeepsAt(m, log, k, note, o, n);
    }
  }

  /** `stopNote` keeps the invariant for one output and one note. */
  lemma StopNoteKeepsAt(m: Ledger, log: seq<Sent>, k: nat, note: int, o: int, n: int)
    requires 0 <= o < k
    requires Alternating(Heard(log, o, n)) && (Count(m, n) > 0 <==> |Heard(log, o, n)| % 2 == 1)
    ensures var h := Heard(log + StopNoteLog(m, note, k), o, n);
      Alternating(h) && (Count(AfterStopNote(m, note), n) > 0 <==> |h| % 2 == 1)
  {
    var sent := StopNoteLog(m, note, k);
    HeardAppend(log, sent, o, n);
    HeardStopNote(m, note, k, o, n);
    InvStep(Heard(log, o, n), Heard(sent, o, n), Count(m, n), Count(AfterStopNote(m, note), n));
  }

  /** `stopNote` keeps the invariant. */
  lemma StopNoteKeepsInv(m: Ledger, log: seq<Sent>, k: nat, note: int)
    requires LedgerInv(m, log, k)
    ensures LedgerInv(AfterStopNote(m, note), log + StopNoteLog(m, note, k), k)
  {
    forall o, n | 0 <= o < k
      ensures var h := Heard(log + StopNoteLog(m, note, k), o, n);
        Alternating(h) && (Count(AfterStopNote(m, note), n) > 0 <==> |h| % 2 == 1)
    {
      StopNoteKeepsAt(m, log, k, note, o, n);
    }
  }

  // ---- counts over whole chords ----

  /** Playing `ns` adds each note's number of occurrences to its count. */
  lemma {:induction false} PlayedCount(m: Ledger, ns: seq<int>, n: int)
    ensures Count(Played(m, ns), n) == Count(m, n) + multiset(ns)[n]
  {
    if ns != [] {
      var init := ns[..|ns| - 1];
      assert ns == init + [ns[|ns| - 1]];
      PlayedCount(m, init, n);
    }
  }

  /** Stopping `ns` takes each note's number of occurrences off its count,
      but never below zero. */
  lemma {:induction false} StoppedCount(m: Ledger, ns: seq<int>, n: int)
    ensures Count(Stopped(m, ns), n)
         == if Count(m, n) >= multiset(ns)[n] then Count(m, n) - multiset(ns)[n] else 0
  {
    if ns != [] {
      var init := ns[..|ns| - 1];
      assert ns == init + [ns[|ns| - 1]];
      StoppedCount(m, init, n);
    }
  }

  /** `play(c)` then `stop(c)` gives every note back the count it had. */
  lemma PlayThenStopRestores(m: Ledger, ns: seq<int>, n: int)
    ensures Count(Stopped(Played(m, ns), ns), n) == Count(m, n)
  {
    PlayedCount(m, ns, n);
    StoppedCount(Played(m, ns), ns, n);
  }

  /** What one output hears about one note from `play` of `ns`: a single
      Note On if the note was silent and the chord contains it, however
      often; nothing otherwise. */
  lemma {:induction false} HeardPlay(m: Ledger, ns: seq<int>, k: nat, o: int, n: int)
    ensures Heard(PlayLog(m, ns, k), o, n)
         == if 0 <= o < k && Count(m, n) == 0 && n in ns then [NoteOn(n).status] else []
  {
    if ns != [] {
      var init, last := ns[..|ns| - 1], ns[|ns| - 1];
      assert ns == init + [last];
      var before, step := PlayLog(m, init, k), PlayNoteLog(Played(m, init), last, k);
      assert PlayLog(m, ns, k) == before + step;
      HeardPlay(m, init, k, o, n);
      HeardAppend(before, step, o, n);
      HeardPlayNote(Played(m, init), last, k, o, n);
      PlayedCount(m, init, n);
      assert n in ns <==> n in init || n == last;
      assert n in init <==> multiset(init)[n] > 0;
    }
  }

  /** What one output hears about one note from `stop` of `ns`: a single
      Note Off if the note was held and the chord releases all its holders;
      nothing otherwise. */
  lemma {:induction false} HeardStop(m: Ledger, ns: seq<int>, k: nat, o: int, n: int)
    ensures Heard(StopLog(m, ns, k), o, n)
         == if 0 <= o < k && Count(m, n) > 0 && multiset(ns)[n] >= Count(m, n)
            then [NoteOff(n).status] else []
  {
    if ns != [] {
      var init, last := ns[..|ns| - 1], ns[|ns| - 1];
      assert ns == init + [last];
      var before, step := StopLog(m, init, k), StopNoteLog(Stopped(m, init), last, k);
      assert StopLog(m, ns, k) == before + step;
      HeardStop(m, init, k, o, n);
      HeardAppend(before, step, o, n);
      HeardStopNote(Stopped(m, init), last, k, o, n);
      StoppedCount(m, init, n);
      assert multiset(ns)[n] == multiset(init)[n] + if last == n then 1 else 0;
    }
  }

  /** Two held chords share note `n`: after play A, play B, stop A the note
      still sounds, and each output heard exactly one Note On and no Note Off
      for it. */
  lemma SharedNote(m: Ledger, a: seq<int>, b: seq<int>, k: nat, o: int, n: int)
    requires Count(m, n) == 0 && n in a && n in b && 0 <= o < k
    ensures
      var m1 := Played(m, a);
      var m2 := Played(m1, b);
      && Count(Stopped(m2, a), n) == multiset(b)[n] > 0
      && Heard(PlayLog(m, a, k) + PlayLog(m1, b, k) + StopLog(m2, a, k), o, n) == [NoteOn(n).status]
  {
    var m1 := Played(m, a);
    var m2 := Played(m1, b);
    var ca, cb := multiset(a)[n], multiset(b)[n];
    assert ca > 0 && cb > 0;
    PlayedCount(m, a, n);
    assert Count(m1, n) == ca;
    PlayedCount(m1, b, n);
    assert Count(m2, n) == ca + cb;
    StoppedCount(m2, a, n);
    var l1, l2, l3 := PlayLog(m, a, k), PlayLog(m1, b, k), StopLog(m2, a, k);
    HeardPlay(m, a, k, o, n);
    HeardPlay(m1, b, k, o, n);
    HeardStop(m2, a, k, o, n);
    assert Heard(l1, o, n) == [NoteOn(n).status] && Heard(l2, o, n) == [] && Heard(l3, o, n) == [];
    HeardAppend(l1, l2, o, n);
    HeardAppend(l1 + l2, l3, o, n);
  }

  /** ... and after stop B as well the note is silent, and each output heard
      On, Off for it. */
  lemma SharedNoteReleased(m: Ledger, a: seq<int>, b: seq<int>, k: nat, o: int, n: int)
    requires Count(m, n) == 0 && n in a && n in b && 0 <= o < k
    ensures
      var m1 := Played(m, a);
      var m2 := Played(m1, b);
      var m3 := Stopped(m2, a);
      var log := PlayLog(m, a, k) + PlayLog(m1, b, k) + StopLog(m2, a, k);
      && Count(Stopped(m3, b), n) == 0
      && Heard(log + StopLog(m3, b, k), o, n) == [NoteOn(n).status, NoteOff(n).status]
  {
    var m1 := Played(m, a);
    var m2 := Played(m1, b);
    var m3 := Stopped(m2, a);
    var log := PlayLog(m, a, k) + PlayLog(m1, b, k) + StopLog(m2, a, k);
    SharedNote(m, a, b, k, o, n);
    StoppedCount(m3, b, n);
    HeardStop(m3, b, k, o, n);
    assert Heard(StopLog(m3, b, k), o, n) == [NoteOff(n).status];
    HeardAppend(log, StopLog(m3, b, k), o, n);
  }

  /** The player element: its outputs, the ledger, and everything the
      outputs have received. */
  class App {
    const outputs: seq<string>
    var playingNotes: Ledger
    var sent: seq<Sent>

    ghost predicate Valid()
      reads this
    {
      LedgerInv(playingNotes, sent, |outputs|)
    }

    constructor(outputs: seq<string>)
      ensures Valid()
      ensures this.outputs == outputs && playingNotes == map[] && sent == []
    {
      this.outputs := outputs;
      playingNotes := map[];
      sent := [];
    }

    /** Send `message` to every output, in list order. */
    method SendToAll(message: Message)
      modifies this
      ensures playingNotes == old(playingNotes)
      ensures sent == old(sent) + Broadcast(|outputs|, message)
    {
      var i := 0;
      while i < |outputs|
        invariant 0 <= i <= |outputs|
        invariant playingNotes == old(playingNotes)
        invariant sent == old(sent) + Broadcast(i, message)
      {
        sent := sent + [Sent(i, message)];
        i := i + 1;
      }
    }

    method PlayNote(note: int)
      requires Valid()
      modifies this
      ensures Valid()
      ensures playingNotes == AfterPlayNote(old(playingNotes), note)
      ensures sent == old(sent) + PlayNoteLog(old(playingNotes), note, |outputs|)
    {
      PlayNoteKeepsInv(playingNotes, sent, |outputs|, note);
      var current := Count(playingNotes, note);
      if current == 0 {
        SendToAll(NoteOn(note));
      }
      current := current + 1;
      playingNotes := playingNotes[note := current];
    }

    method StopNote(note: int)
      requires Valid()
      modifies this
      ensures Valid()
      ensures playingNotes == AfterStopNote(old(playingNotes), note)
      ensures sent == old(sent) + StopNoteLog(old(playingNotes), note, |outputs|)
    {
      StopNoteKeepsInv(playingNotes, sent, |outputs|, note);
      var current := Count(playingNotes, note);
      if current == 0 {
        return;
      }
      current := current - 1;
      playingNotes := playingNotes[note := current];
      if current == 0 {
        SendToAll(NoteOff(note));
      }
    }

    /** `play(chord)`: `playNote` for each of the chord's notes in order. */
    method Play(notes: seq<int>)
      requires Valid()
      modifies this
      ensures Valid()
      ensures playingNotes == Played(old(playingNotes), notes)
      ensures sent == old(sent) + PlayLog(old(playingNotes), notes, |outputs|)
    {
      var i := 0;
      while i < |notes|
        invariant 0 <= i <= |notes|
        invariant Valid()
        invariant playingNotes == Played(old(playingNotes), notes[..i])
        invariant sent == old(sent) + PlayLog(old(playingNotes), notes[..i], |outputs|)
      {
        assert notes[..i + 1][..i] == notes[..i];
        PlayNote(notes[i]);
        i := i + 1;
      }
      assert notes[..|notes|] == notes;
    }

    /** `stop(chord)`: `stopNote` for each of the chord's notes in order. */
    method Stop(notes: seq<int>)
      requires Valid()
      modifies this
      ensures Valid()
      ensures playingNotes == Stopped(old(playingNotes), notes)
      ensures sent == old(sent) + StopLog(old(playingNotes), notes, |outputs|)
    {
      var i := 0;
      while i < |notes|
        invariant 0 <= i <= |notes|
        invariant Valid()
        invariant playingNotes == Stopped(old(playingNotes), notes[..i])
        invariant sent == old(sent) + StopLog(old(playingNotes), notes[..i], |outputs|)
      {
        assert notes[..i + 1][..i] == notes[..i];
        StopNote(notes[i]);
        i := i + 1;
      }
      assert notes[..|notes|] == notes;
    }
  }
}
