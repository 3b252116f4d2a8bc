/** What a chord element does to the app element that contains it, and the
    pointer events it reacts to. */
module Element {

  /** A call of the app's `play(chord)` or `stop(chord)` with this chord. */
  datatype AppCall = PlayChord | StopChord

  /** A pointer event on the chord element; `onConfig` says whether a press
      landed on the chord's configuration button. */
  datatype Pointer = Down(onConfig: bool) | Up | Leave

  /** How often `c` occurs in `calls`. */
  function Occurrences(calls: seq<AppCall>, c: AppCall): nat
  {
    if calls == [] then 0
    else Occurrences(calls[..|calls| - 1], c) + (if calls[|calls| - 1] == c then 1 else 0)
  }

  /** `k` copies of `c`. */
  function Repeat(c: AppCall, k: nat): (r: seq<AppCall>)
    ensures |r| == k && forall i :: 0 <= i < k ==> r[i] == c
  {
    if k == 0 then [] else Repeat(c, k - 1) + [c]
  }

  lemma {:induction false} OccurrencesAppend(a: seq<AppCall>, b: seq<AppCall>, c: AppCall)
    ensures Occurrences(a + b, c) == Occurrences(a, c) + Occurrences(b, c)
  {
    if b != [] {
      var init := b[..|b| - 1];
      assert (a + b)[..|a + b| - 1] == a + init;
      assert b[..|b| - 1] == init;
      OccurrencesAppend(a, init, c);
    } else {
      assert a + b == a;
    }
  }

  lemma {:induction false} OccurrencesRepeat(c: AppCall, k: nat, d: AppCall)
    ensures Occurrences(Repeat(c, k), d) == if c == d then k else 0
  {
    if k > 0 {
      var r := Repeat(c, k);
      assert r[..|r| - 1] == Repeat(c, k - 1);
      OccurrencesRepeat(c, k - 1, d);
    }
  }
}
