/** Small vocabulary shared by the exercise timers, the quiz and the lesson navigation. */
module Common {

  datatype Option<T> = None | Some(value: T)

  /** Swift's `firstIndex(of:)`: the position of the first element equal to `x`. */
  function FirstIndex<T(==)>(s: seq<T>, x: T): (r: Option<nat>)
    ensures r.None? <==> x !in s
    ensures r.Some? ==> r.value < |s| && s[r.value] == x
    ensures r.Some? ==> forall j :: 0 <= j < r.value ==> s[j] != x
  {
    if |s| == 0 then None
    else if s[0] == x then Some(0)
    else
      match FirstIndex(s[1..], x)
      case None => None
      case Some(i) => Some(i + 1)
  }

  /** How often `x` occurs in `s`. */
  function Occurrences(s: seq<int>, x: int): nat
  {
    if |s| == 0 then 0 else (if s[0] == x then 1 else 0) + Occurrences(s[1..], x)
  }

  lemma {:induction false} OccurrencesAppend(a: seq<int>, b: seq<int>, x: int)
    ensures Occurrences(a + b, x) == Occurrences(a, x) + Occurrences(b, x)
  {
    if |a| > 0 {
      assert (a + b)[1..] == a[1..] + b;
      OccurrencesAppend(a[1..], b, x);
    } else {
      assert a + b == b;
    }
  }

  /** `n` copies of `x`. */
  function Repeat(x: int, n: nat): (r: seq<int>)
    ensures |r| == n && forall i :: 0 <= i < n ==> r[i] == x
  {
    if n == 0 then [] else [x] + Repeat(x, n - 1)
  }

  /**
   * What one clock tick does to an exercise: the state afterwards, the system
   * sounds played during the tick, in order, and whether `finishAction` was called.
   */
  datatype Step<S> = Step(next: S, tones: seq<int>, finished: bool)

  /** The outcome of several ticks: the last state, all tones played, and how often `finishAction` ran. */
  datatype Trace<S> = Trace(last: S, tones: seq<int>, finishes: nat)

  /** Deliver `k` clock ticks, one after the other, to an exercise that reacts with `step`. */
  function Iterate<S>(step: S -> Step<S>, s: S, k: nat): Trace<S>
  {
    if k == 0 then Trace(s, [], 0)
    else
      var st := step(s);
      var rest := Iterate(step, st.next, k - 1);
      Trace(rest.last, st.tones + rest.tones, (if st.finished then 1 else 0) + rest.finishes)
  }

  /** Running `a + b` ticks is running `a` ticks and then `b` more. */
  lemma {:induction false} IterateSplit<S>(step: S -> Step<S>, s: S, a: nat, b: nat)
    ensures Iterate(step, s, a + b) ==
      Trace(Iterate(step, Iterate(step, s, a).last, b).last,
            Iterate(step, s, a).tones + Iterate(step, Iterate(step, s, a).last, b).tones,
            Iterate(step, s, a).finishes + Iterate(step, Iterate(step, s, a).last, b).finishes)
  {
    if a > 0 {
      IterateSplit(step, step(s).next, a - 1, b);
    }
  }

  /** The tones `toneAt(a + 1) + ... + toneAt(b)`, played by the ticks that bring elapsed time from `a` to `b`. */
  function ToneSpan(toneAt: nat -> seq<int>, a: nat, b: nat): seq<int>
    decreases b - a
  {
    if b <= a then [] else toneAt(a + 1) + ToneSpan(toneAt, a + 1, b)
  }

  lemma {:induction false} ToneSpanSplit(toneAt: nat -> seq<int>, a: nat, m: nat, b: nat)
    requires a <= m <= b
    ensures ToneSpan(toneAt, a, b) == ToneSpan(toneAt, a, m) + ToneSpan(toneAt, m, b)
    decreases m - a
  {
    if a < m {
      ToneSpanSplit(toneAt, a + 1, m, b);
    }
  }
}
