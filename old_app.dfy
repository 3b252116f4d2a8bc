/** The app element of the oldest version (app.ts): it plays a chord by
    sending a Note On for each of the chord's notes to its one output, and
    stops it by sending a Note Off for each, with no count of which notes
    other chords still hold. */
module OldApp {
  import opened Js
  import opened Midi
  import OldChord

  /** The MIDI channel every message is sent on. */
  const CHANNEL: int := 0

  /** The velocity of every message. */
  const VELOCITY: int := 100

  /** One message of the given status per note, in the order of `notes`. */
  function Sends(status: int, notes: seq<int>): (r: seq<Message>)
    ensures |r| == |notes|
    ensures forall i :: 0 <= i < |notes| ==> r[i] == Message(status, notes[i], VELOCITY)
  {
    seq(|notes|, i requires 0 <= i < |notes| => Message(status, notes[i], VELOCITY))
  }

  /** How often `m` occurs in `log`. */
  function Count(log: seq<Message>, m: Message): nat
  {
    if log == [] then 0
    else Count(log[..|log| - 1], m) + (if log[|log| - 1] == m then 1 else 0)
  }

  lemma {:induction false} CountAppend(a: seq<Message>, b: seq<Message>, m: Message)
    ensures Count(a + b, m) == Count(a, m) + Count(b, m)
  {
    if b != [] {
      var init := b[..|b| - 1];
      assert (a + b)[..|a + b| - 1] == a + init;
      CountAppend(a, init, m);
    } else {
      assert a + b == a;
    }
  }

  /** The messages for a list of notes carry each note as often as the
      list holds it. */
  lemma {:induction false} CountSends(status: int, notes: seq<int>, n: int)
    ensures Count(Sends(status, notes), Message(status, n, VELOCITY)) == multiset(notes)[n]
  {
    if notes != [] {
      var init := notes[..|notes| - 1];
      var last := notes[|notes| - 1];
      assert notes == init + [last];
      assert Sends(status, notes)[..|notes| - 1] == Sends(status, init);
      CountSends(status, init, n);
    }
  }

  /** A message of another status never counts as one of these. */
  lemma {:induction false} CountOtherStatus(status: int, notes: seq<int>, m: Message)
    requires m.status != status
    ensures Count(Sends(status, notes), m) == 0
  {
    if notes != [] {
      var init := notes[..|notes| - 1];
      assert Sends(status, notes)[..|notes| - 1] == Sends(status, init);
      CountOtherStatus(status, init, m);
    }
  }

  /** Nothing is counted: two chords that share a note send Note On for it
      twice, and stopping either one of them sends a Note Off for it while
      the other is still held. */
  lemma SharedNoteNotCounted(a: seq<int>, b: seq<int>, n: int)
    requires n in a && n in b
    ensures Count(Sends(NOTE_ON + CHANNEL, a) + Sends(NOTE_ON + CHANNEL, b), Message(NOTE_ON + CHANNEL, n, VELOCITY)) >= 2
    ensures Count(Sends(NOTE_OFF + CHANNEL, a), Message(NOTE_OFF + CHANNEL, n, VELOCITY)) >= 1
  {
    CountAppend(Sends(NOTE_ON + CHANNEL, a), Sends(NOTE_ON + CHANNEL, b), Message(NOTE_ON + CHANNEL, n, VELOCITY));
    CountSends(NOTE_ON + CHANNEL, a, n);
    CountSends(NOTE_ON + CHANNEL, b, n);
    CountSends(NOTE_OFF + CHANNEL, a, n);
  }

  /** Playing then stopping a chord sends, for every note, as many Note
      Offs as Note Ons. */
  lemma PlayStopBalanced(notes: seq<int>, n: int)
    ensures var log := Sends(NOTE_ON + CHANNEL, notes) + Sends(NOTE_OFF + CHANNEL, notes);
      Count(log, Message(NOTE_ON + CHANNEL, n, VELOCITY)) == multiset(notes)[n]
      && Count(log, Message(NOTE_OFF + CHANNEL, n, VELOCITY)) == multiset(notes)[n]
  {
    var on, off := Message(NOTE_ON + CHANNEL, n, VELOCITY), Message(NOTE_OFF + CHANNEL, n, VELOCITY);
    CountAppend(Sends(NOTE_ON + CHANNEL, notes), Sends(NOTE_OFF + CHANNEL, notes), on);
    CountAppend(Sends(NOTE_ON + CHANNEL, notes), Sends(NOTE_OFF + CHANNEL, notes), off);
    CountSends(NOTE_ON + CHANNEL, notes, n);
    CountSends(NOTE_OFF + CHANNEL, notes, n);
    CountOtherStatus(NOTE_ON + CHANNEL, notes, off);
    CountOtherStatus(NOTE_OFF + CHANNEL, notes, on);
  }

  /** The app element and the messages its one output has received. */
  class App {
    var sent: seq<Message>

    constructor()
      ensures sent == []
    {
      sent := [];
    }

    /** Sends one message of `status` per note, in order. */
    method SendAll(status: int, notes: seq<int>)
      modifies this
      ensures sent == old(sent) + Sends(status, notes)
    {
      var i := 0;
      while i < |notes|
        invariant 0 <= i <= |notes|
        invariant sent == old(sent) + Sends(status, notes[..i])
      {
        assert Sends(status, notes[..i + 1]) == Sends(status, notes[..i]) + [Message(status, notes[i], VELOCITY)];
        sent := sent + [Message(status, notes[i], VELOCITY)];
        i := i + 1;
      }
      assert notes[..i] == notes;
    }

    /** `play(chord)`: reading `chord.notes` throws for an unknown type
        before anything is sent; otherwise one Note On per note. */
    method Play(chord: OldChord.Attrs) returns (error: Option<Error>)
      modifies this
      ensures OldChord.Notes(chord).Err? ==> error == Some(OldChord.Notes(chord).error) && sent == old(sent)
      ensures OldChord.Notes(chord).Ok? ==>
        error == None && sent == old(sent) + Sends(NOTE_ON + CHANNEL, OldChord.Notes(chord).value)
    {
      var notes := OldChord.Notes(chord);
      if notes.Err? {
        return Some(notes.error);
      }
      SendAll(NOTE_ON + CHANNEL, notes.value);
      return None;
    }

    /** `stop(chord)`: one Note Off per note. */
    method Stop(chord: OldChord.Attrs) returns (error: Option<Error>)
      modifies this
      ensures OldChord.Notes(chord).Err? ==> error == Some(OldChord.Notes(chord).error) && sent == old(sent)
      ensures OldChord.Notes(chord).Ok? ==>
        error == None && sent == old(sent) + Sends(NOTE_OFF + CHANNEL, OldChord.Notes(chord).value)
    {
      var notes := OldChord.Notes(chord);
      if notes.Err? {
        return Some(notes.error);
      }
      SendAll(NOTE_OFF + CHANNEL, notes.value);
      return None;
    }
  }
}
