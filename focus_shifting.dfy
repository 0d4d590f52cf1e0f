/**
 * The focus-shifting exercise of lesson 2: a 30-second timer that alternates
 * the highlight between a thumb symbol (index 0) and a distant-object symbol
 * (index 1) every `symbolSwitchDuration` seconds, plays a tone every second and
 * a different tone at each switch, and at 30 seconds stops and reports
 * completion without resetting.
 */
module FocusShifting {
  import opened Common

  /** Length of the whole exercise in seconds. */
  const Duration: nat := 30
  /** System sound played on an ordinary second. */
  const SecondTone: int := 1105
  /** System sound played when the highlight switches. */
  const SwitchTone: int := 1103

  /**
   * Seconds between two highlight switches. The exercise's caller offers 1, 2
   * or 3 (default 2); the value is used as a modulus, so it must not be 0.
   */
  type SwitchDuration = d: nat | d > 0 witness 1

  datatype State = State(
    timerActive: bool,
    elapsedTime: nat,
    highlightedSymbol: nat,
    symbolSwitchDuration: SwitchDuration)

  /** A fresh view highlights the distant object. */
  function Initial(d: SwitchDuration): State { State(false, 0, 1, d) }

  function Start(s: State): State { s.(timerActive := true) }

  function Stop(s: State): State { s.(timerActive := false) }

  /** `resetTimer`: unlike a fresh view, it highlights the thumb. */
  function Reset(s: State): State { State(false, 0, 0, s.symbolSwitchDuration) }

  /** `updateTimer`: one second of the exercise. */
  function Update(s: State): Step<State>
  {
    var d := s.symbolSwitchDuration;
    var elapsed := s.elapsedTime + 1;
    var second := if elapsed % d != 0 then [SecondTone] else [];
    var switch := elapsed < Duration && elapsed % d == 0;
    var highlighted := if switch then (s.highlightedSymbol + 1) % 2 else s.highlightedSymbol;
    var tones := second + (if switch then [SwitchTone] else []);
    if elapsed >= Duration then Step(State(false, elapsed, highlighted, d), tones, true)
    else Step(State(s.timerActive, elapsed, highlighted, d), tones, false)
  }

  /** The clock handler: a tick reaches `updateTimer` only while the timer is active. */
  function Receive(s: State): Step<State>
  {
    if s.timerActive then Update(s) else Step(s, [], false)
  }

  /** The tones of the tick that brings elapsed time to `e`. */
  function TickTones(e: nat, d: SwitchDuration): seq<int>
  {
    if e % d != 0 then [SecondTone] else if e < Duration then [SwitchTone] else []
  }

  function ToneAt(d: SwitchDuration): nat -> seq<int>
  {
    (e: nat) => TickTones(e, d)
  }

  /** The object named in the instruction "Focus your ...". */
  function FocusLabel(highlightedSymbol: nat): string
  {
    if highlightedSymbol == 0 then "thumb" else "distant object"
  }

  /** Whether the symbol at `index` (0 thumb, 1 distant object) is drawn highlighted. */
  predicate SymbolHighlighted(s: State, index: nat)
  {
    s.timerActive && s.highlightedSymbol == index
  }

  /** The number in the label "... seconds left". */
  function SecondsLeft(elapsedTime: nat): int { Duration - elapsedTime }

  /** The highlighted index is always 0 or 1. */
  ghost predicate Inv(s: State)
  {
    s.highlightedSymbol < 2
  }

  // ----- Arithmetic used by the run lemmas -----

  /** A product of a positive factor and a multiplier of at least 1 is at least that factor. */
  lemma MulAtLeast(k: int, d: int)
    requires k >= 1 && d > 0
    ensures k * d >= d
  {
    assert k * d == (k - 1) * d + d;
    assert (k - 1) * d >= 0;
  }

  lemma DivModUnique(n: int, d: int, q: int, r: int)
    requires d > 0 && 0 <= r < d && n == q * d + r
    ensures n / d == q && n % d == r
  {
    var q', r' := n / d, n % d;
    assert n == q' * d + r' && 0 <= r' < d;
    var k := q - q';
    assert k * d == q * d - q' * d;
    assert k * d == r' - r;
    if k >= 1 {
      MulAtLeast(k, d);
    } else if k <= -1 {
      MulAtLeast(-k, d);
    }
    assert k == 0;
  }

  /** Counting one more second adds one to `n / d` exactly when the new count is a multiple of `d`. */
  lemma DivStep(n: nat, d: SwitchDuration)
    ensures (n + 1) / d == n / d + (if (n + 1) % d == 0 then 1 else 0)
  {
    var q, r := n / d, n % d;
    if r + 1 == d {
      DivModUnique(n + 1, d, q + 1, 0);
    } else {
      DivModUnique(n + 1, d, q, r + 1);
    }
  }

  // ----- Properties of single commands -----

  lemma InactiveTickIgnored(s: State)
    requires !s.timerActive
    ensures Receive(s) == Step(s, [], false)
  {
  }

  lemma CommandsKeepInv(s: State)
    requires Inv(s)
    ensures Inv(Start(s)) && Inv(Stop(s)) && Inv(Reset(s)) && Inv(Initial(s.symbolSwitchDuration))
  {
  }

  /**
   * One tick of a running timer: the highlight switches (with the switch tone)
   * exactly when the new elapsed time is below 30 and a multiple of the switch
   * duration; the ordinary tone plays exactly when it is not a multiple; the
   * tick reaching 30 stops the timer and reports completion, keeping elapsed
   * time and highlight.
   */
  lemma TickRule(s: State)
    requires Inv(s) && s.timerActive
    ensures Inv(Receive(s).next)
    ensures Receive(s).next.elapsedTime == s.elapsedTime + 1
    ensures var e, d := s.elapsedTime + 1, s.symbolSwitchDuration;
      Receive(s).next.highlightedSymbol != s.highlightedSymbol <==> e < Duration && e % d == 0
    ensures var e, d := s.elapsedTime + 1, s.symbolSwitchDuration;
      SwitchTone in Receive(s).tones <==> e < Duration && e % d == 0
    ensures var e, d := s.elapsedTime + 1, s.symbolSwitchDuration;
      SecondTone in Receive(s).tones <==> e % d != 0
    ensures Receive(s).finished <==> s.elapsedTime + 1 >= Duration
    ensures Receive(s).finished ==>
      Receive(s).next == State(false, s.elapsedTime + 1, s.highlightedSymbol, s.symbolSwitchDuration)
  {
  }

  /** While the timer runs, exactly one of the two symbols is highlighted, and the instruction names it. */
  lemma OneSymbolHighlighted(s: State)
    requires Inv(s) && s.timerActive
    ensures SymbolHighlighted(s, 0) != SymbolHighlighted(s, 1)
    ensures FocusLabel(s.highlightedSymbol) == "thumb" <==> SymbolHighlighted(s, 0)
  {
    if s.highlightedSymbol != 0 {
      assert |FocusLabel(s.highlightedSymbol)| == 14;
    }
  }

  // ----- Runs of several ticks -----

  /** The highlight after switching from `h` as often as multiples of `d` lie in (`a`, `b`]. */
  function HighlightAfter(h: nat, a: nat, b: nat, d: SwitchDuration): nat
  {
    (h + b / d - a / d) % 2
  }

  /** Ticks inside one run: the highlight has switched once per multiple of `d` passed. */
  lemma {:induction false} RunWithinRound(s: State, k: nat)
    requires Inv(s) && s.timerActive && s.elapsedTime + k < Duration
    ensures var e, d := s.elapsedTime, s.symbolSwitchDuration;
      Iterate(Receive, s, k) ==
        Trace(State(true, e + k, HighlightAfter(s.highlightedSymbol, e, e + k, d), d), ToneSpan(ToneAt(d), e, e + k), 0)
    decreases k
  {
    var e, d := s.elapsedTime, s.symbolSwitchDuration;
    if k > 0 {
      DivStep(e, d);
      TickRule(s);
      var t := Receive(s).next;
      assert t.highlightedSymbol == HighlightAfter(s.highlightedSymbol, e, e + 1, d);
      RunWithinRound(t, k - 1);
      assert ToneSpan(ToneAt(d), e, e + k) == TickTones(e + 1, d) + ToneSpan(ToneAt(d), e + 1, e + k);
    } else {
      assert HighlightAfter(s.highlightedSymbol, e, e, d) == s.highlightedSymbol;
    }
  }

  /** Below 30 seconds, the switch tone sounds once per multiple of `d` passed, the ordinary tone on every other second. */
  lemma {:induction false} SwitchCount(a: nat, b: nat, d: SwitchDuration)
    requires a <= b < Duration
    ensures Occurrences(ToneSpan(ToneAt(d), a, b), SwitchTone) == b / d - a / d
    ensures Occurrences(ToneSpan(ToneAt(d), a, b), SecondTone) == (b - a) - (b / d - a / d)
    decreases b - a
  {
    if a < b {
      SwitchCount(a + 1, b, d);
      DivStep(a, d);
      OccurrencesAppend(TickTones(a + 1, d), ToneSpan(ToneAt(d), a + 1, b), SwitchTone);
      OccurrencesAppend(TickTones(a + 1, d), ToneSpan(ToneAt(d), a + 1, b), SecondTone);
    }
  }

  /** The tick from 29 to 30 seconds: no switch, stop without reset, completion reported once. */
  lemma LastTick(u: State)
    requires Inv(u) && u.timerActive && u.elapsedTime == Duration - 1
    ensures Iterate(Receive, u, 1) ==
      Trace(State(false, Duration, u.highlightedSymbol, u.symbolSwitchDuration), TickTones(Duration, u.symbolSwitchDuration), 1)
    ensures Occurrences(TickTones(Duration, u.symbolSwitchDuration), SwitchTone) == 0
  {
    TickRule(u);
    assert Iterate(Receive, Receive(u).next, 0) == Trace(Receive(u).next, [], 0);
  }

  /** The tones of a run resumed at elapsed time `e`: those of the ticks up to 29 seconds, then those of the 30th. */
  lemma FullRunTones(s: State)
    requires Inv(s) && s.timerActive && s.elapsedTime < Duration
    ensures var d := s.symbolSwitchDuration;
      Iterate(Receive, s, Duration - s.elapsedTime).tones ==
        ToneSpan(ToneAt(d), s.elapsedTime, Duration - 1) + TickTones(Duration, d)
  {
    var n := Duration - 1 - s.elapsedTime;
    IterateSplit(Receive, s, n, 1);
    RunWithinRound(s, n);
    LastTick(Iterate(Receive, s, n).last);
  }

  /**
   * A run resumed at elapsed time `e` below 30 ends after exactly 30 - `e`
   * ticks: the last one reports completion once and stops the timer at
   * elapsed time 30 without resetting it, and the highlight has switched
   * 29/d - e/d times (29/d times for a run from 0).
   */
  lemma FullRun(s: State)
    requires Inv(s) && s.timerActive && s.elapsedTime < Duration
    ensures var e, d := s.elapsedTime, s.symbolSwitchDuration;
      var t := Iterate(Receive, s, Duration - e);
      && t.last == State(false, Duration, HighlightAfter(s.highlightedSymbol, e, Duration - 1, d), d)
      && t.finishes == 1
      && Occurrences(t.tones, SwitchTone) == (Duration - 1) / d - e / d
  {
    var e, d := s.elapsedTime, s.symbolSwitchDuration;
    var n := Duration - 1 - e;
    IterateSplit(Receive, s, n, 1);
    RunWithinRound(s, n);
    LastTick(Iterate(Receive, s, n).last);
    FullRunTones(s);
    SwitchCount(e, Duration - 1, d);
    OccurrencesAppend(ToneSpan(ToneAt(d), e, Duration - 1), TickTones(Duration, d), SwitchTone);
  }

  /** No tick before the 30th second reports completion. */
  lemma NoEarlyFinish(s: State, k: nat)
    requires Inv(s) && s.timerActive && s.elapsedTime + k < Duration
    ensures Iterate(Receive, s, k).finishes == 0
  {
    RunWithinRound(s, k);
  }

  /** During a run the label "30 - elapsed seconds left" counts down one per tick and never goes negative. */
  lemma SecondsLeftDuringRun(s: State, k: nat)
    requires Inv(s) && s.timerActive && s.elapsedTime < Duration
    requires k <= Duration - s.elapsedTime
    ensures SecondsLeft(Iterate(Receive, s, k).last.elapsedTime) == Duration - s.elapsedTime - k >= 0
  {
    if k < Duration - s.elapsedTime {
      RunWithinRound(s, k);
    } else {
      FullRun(s);
    }
  }

  // ----- The view as an object -----

  /** `FocusShiftingTimerView`: the view's @State fields, updated in place. */
  class FocusShiftingTimerView {
    const symbolSwitchDuration: SwitchDuration
    var timerActive: bool
    var elapsedTime: nat
    var highlightedSymbol: nat
    /** System sounds played so far, in order. */
    ghost var tones: seq<int>
    /** How often `finishAction` has been called. */
    var finishCalls: nat

    function Model(): State
      reads this
    {
      State(timerActive, elapsedTime, highlightedSymbol, symbolSwitchDuration)
    }

    ghost predicate Valid()
      reads this
    {
      Inv(Model())
    }

    constructor (d: SwitchDuration)
      ensures Valid() && Model() == Initial(d)
      ensures tones == [] && finishCalls == 0
    {
      symbolSwitchDuration := d;
      timerActive, elapsedTime, highlightedSymbol := false, 0, 1;
      tones, finishCalls := [], 0;
    }

    method StartTimer()
      modifies this
      ensures Model() == Start(old(Model()))
      ensures old(Valid()) ==> Valid()
      ensures tones == old(tones) && finishCalls == old(finishCalls)
    {
      timerActive := true;
    }

    method StopTimer()
      modifies this
      ensures Model() == Stop(old(Model()))
      ensures old(Valid()) ==> Valid()
      ensures tones == old(tones) && finishCalls == old(finishCalls)
    {
      timerActive := false;
    }

    method ResetTimer()
      modifies this
      ensures Valid() && Model() == Reset(old(Model()))
      ensures tones == old(tones) && finishCalls == old(finishCalls)
    {
      timerActive := false;
      elapsedTime := 0;
      highlightedSymbol := 0;
    }

    method UpdateTimer()
      requires Valid()
      modifies this
      ensures Valid() && Model() == Update(old(Model())).next
      ensures tones == old(tones) + Update(old(Model())).tones
      ensures finishCalls == old(finishCalls) + if Update(old(Model())).finished then 1 else 0
    {
      elapsedTime := elapsedTime + 1;
      if elapsedTime % symbolSwitchDuration != 0 {
        tones := tones + [SecondTone];
      }
      if elapsedTime < Duration && elapsedTime % symbolSwitchDuration == 0 {
        highlightedSymbol := (highlightedSymbol + 1) % 2;
        tones := tones + [SwitchTone];
      }
      if elapsedTime >= Duration {
        StopTimer();
        finishCalls := finishCalls + 1;
      }
    }

    /** The clock subscription: one tick, ignored unless the timer is active. */
    method OnReceive()
      requires Valid()
      modifies this
      ensures Valid() && Model() == Receive(old(Model())).next
      ensures tones == old(tones) + Receive(old(Model())).tones
      ensures finishCalls == old(finishCalls) + if Receive(old(Model())).finished then 1 else 0
    {
      if !timerActive {
        return;
      }
      UpdateTimer();
    }
  }
}
