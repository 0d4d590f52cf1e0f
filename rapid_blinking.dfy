/**
 * The rapid-blinking exercise of lesson 3: a 15-second timer whose eye symbol
 * is highlighted ("Start blinking rapidly") and dimmed ("Take a short break")
 * in five-second phases, plays a tone every second and a different tone at
 * each phase boundary before the end, and at 15 seconds stops and reports
 * completion without resetting.
 */
module RapidBlinking {
  import opened Common

  /** Length of one highlighted or dimmed phase in seconds. */
  const HighlightDuration: nat := 5
  /** Length of the whole exercise in seconds. */
  const Duration: nat := 15
  /** System sound played on an ordinary second. */
  const SecondTone: int := 1105
  /** System sound played at a phase boundary. */
  const PhaseTone: int := 1103

  datatype State = State(timerActive: bool, elapsedTime: nat, symbolHighlighted: bool)

  /** The state a fresh view starts in, and the state `resetTimer` restores. */
  const Initial: State := State(false, 0, false)

  function Start(s: State): State { s.(timerActive := true) }

  function Stop(s: State): State { s.(timerActive := false) }

  /** `updateTimer`: one second of the exercise. */
  function Update(s: State): Step<State>
  {
    var elapsed := s.elapsedTime + 1;
    var tones :=
      if elapsed % HighlightDuration != 0 then [SecondTone]
      else if elapsed < Duration then [PhaseTone]
      else [];
    var highlighted := elapsed % (HighlightDuration * 2) < HighlightDuration;
    if elapsed >= Duration then Step(State(false, elapsed, highlighted), tones, true)
    else Step(State(s.timerActive, elapsed, highlighted), tones, false)
  }

  /** The clock handler: a tick reaches `updateTimer` only while the timer is active. */
  function Receive(s: State): Step<State>
  {
    if s.timerActive then Update(s) else Step(s, [], false)
  }

  /** Whether the eye is highlighted after `e` seconds; before the first tick it is not. */
  predicate HighlightAt(e: nat)
  {
    e > 0 && e % 10 < 5
  }

  /** A running timer's state after `e` seconds. */
  function Running(e: nat): State { State(true, e, HighlightAt(e)) }

  /** The tones of the tick that brings elapsed time to `e`. */
  function TickTones(e: nat): seq<int>
  {
    if e % HighlightDuration != 0 then [SecondTone] else if e < Duration then [PhaseTone] else []
  }

  /** The instruction shown while the timer runs. */
  function Instruction(symbolHighlighted: bool): string
  {
    if symbolHighlighted then "Start blinking rapidly" else "Take a short break"
  }

  /** The number in the label "... seconds left". */
  function SecondsLeft(elapsedTime: nat): int { Duration - elapsedTime }

  /** The highlight always agrees with the elapsed time. */
  ghost predicate Inv(s: State)
  {
    s.symbolHighlighted == HighlightAt(s.elapsedTime)
  }

  // ----- Properties of single commands -----

  lemma InactiveTickIgnored(s: State)
    requires !s.timerActive
    ensures Receive(s) == Step(s, [], false)
  {
  }

  lemma CommandsKeepInv(s: State)
    requires Inv(s)
    ensures Inv(Start(s)) && Inv(Stop(s)) && Inv(Initial)
  {
  }

  /**
   * One tick of a running timer: the highlight becomes `elapsed % 10 < 5`; the
   * ordinary tone plays unless elapsed time becomes a multiple of 5, the phase
   * tone at 5 and 10, nothing at 15; the tick reaching 15 stops the timer and
   * reports completion, keeping elapsed time and highlight.
   */
  lemma TickRule(s: State)
    requires s.timerActive
    ensures Inv(Receive(s).next)
    ensures Receive(s).next.elapsedTime == s.elapsedTime + 1
    ensures Receive(s).next.symbolHighlighted == ((s.elapsedTime + 1) % 10 < 5)
    ensures SecondTone in Receive(s).tones <==> (s.elapsedTime + 1) % 5 != 0
    ensures PhaseTone in Receive(s).tones <==> s.elapsedTime + 1 == 5 || s.elapsedTime + 1 == 10
    ensures Receive(s).finished <==> s.elapsedTime + 1 >= Duration
    ensures Receive(s).finished ==> !Receive(s).next.timerActive
  {
  }

  /** The on/off pattern of one run: on for 1-4 and 10-14, off for 5-9 and at 15. */
  lemma HighlightPattern(e: nat)
    requires 1 <= e <= Duration
    ensures HighlightAt(e) <==> e <= 4 || 10 <= e <= 14
  {
  }

  /** The instruction says "Start blinking rapidly" exactly while the eye is highlighted. */
  lemma InstructionFollowsHighlight(s: State)
    requires Inv(s)
    ensures Instruction(s.symbolHighlighted) == "Start blinking rapidly" <==> HighlightAt(s.elapsedTime)
    ensures Instruction(s.symbolHighlighted) == "Take a short break" <==> !HighlightAt(s.elapsedTime)
  {
    assert |Instruction(true)| != |Instruction(false)|;
  }

  // ----- Runs of several ticks -----

  lemma {:induction false} RunWithinRound(s: State, k: nat)
    requires Inv(s) && s.timerActive && s.elapsedTime + k < Duration
    ensures Iterate(Receive, s, k) ==
      Trace(Running(s.elapsedTime + k), ToneSpan(TickTones, s.elapsedTime, s.elapsedTime + k), 0)
    decreases k
  {
    if k == 0 {
      assert s == Running(s.elapsedTime);
    } else {
      assert Receive(s) == Step(Running(s.elapsedTime + 1), TickTones(s.elapsedTime + 1), false);
      RunWithinRound(Running(s.elapsedTime + 1), k - 1);
    }
  }

  /**
   * A run started or resumed at elapsed time `e` below 15 ends after exactly
   * 15 - `e` ticks, at elapsed time 15, with the timer stopped (not reset) and
   * completion reported once.
   */
  lemma FullRun(s: State)
    requires Inv(s) && s.timerActive && s.elapsedTime < Duration
    ensures Iterate(Receive, s, Duration - s.elapsedTime) ==
      Trace(State(false, Duration, false), ToneSpan(TickTones, s.elapsedTime, Duration), 1)
  {
    var n := Duration - 1 - s.elapsedTime;
    IterateSplit(Receive, s, n, 1);
    RunWithinRound(s, n);
    var u := Running(Duration - 1);
    assert Iterate(Receive, Receive(u).next, 0) == Trace(Receive(u).next, [], 0);
    ToneSpanSplit(TickTones, s.elapsedTime, Duration - 1, Duration);
  }

  /** During a run the label "15 - elapsed seconds left" never goes negative, and no tick before the last finishes. */
  lemma SecondsLeftDuringRun(s: State, k: nat)
    requires Inv(s) && s.timerActive && s.elapsedTime < Duration
    requires k <= Duration - s.elapsedTime
    ensures SecondsLeft(Iterate(Receive, s, k).last.elapsedTime) == Duration - s.elapsedTime - k >= 0
    ensures Iterate(Receive, s, k).finishes == if k == Duration - s.elapsedTime then 1 else 0
  {
    if k < Duration - s.elapsedTime {
      RunWithinRound(s, k);
    } else {
      FullRun(s);
    }
  }

  /** Between two multiples of 5 only the ordinary tone plays. */
  lemma {:induction false} OrdinarySpan(a: nat, b: nat)
    requires a <= b && a / HighlightDuration == b / HighlightDuration
    ensures ToneSpan(TickTones, a, b) == Repeat(SecondTone, b - a)
    decreases b - a
  {
    if a < b {
      OrdinarySpan(a + 1, b);
      assert [SecondTone] + Repeat(SecondTone, b - a - 1) == Repeat(SecondTone, b - a);
    }
  }

  /** The last five seconds of a run: four ordinary tones and a silent 15th second. */
  lemma LastPhaseTones()
    ensures ToneSpan(TickTones, 10, Duration) == Repeat(SecondTone, 4)
  {
    OrdinarySpan(10, 14);
    ToneSpanSplit(TickTones, 10, 14, 15);
    assert ToneSpan(TickTones, 14, 15) == [];
  }

  /** From 5 seconds on: four ordinary tones, the phase tone at 10, then the last phase. */
  lemma LastTwoPhasesTones()
    ensures ToneSpan(TickTones, 5, Duration) == Repeat(SecondTone, 4) + [PhaseTone] + Repeat(SecondTone, 4)
  {
    LastPhaseTones();
    OrdinarySpan(5, 9);
    ToneSpanSplit(TickTones, 5, 9, 15);
    assert ToneSpan(TickTones, 9, 15) == [PhaseTone] + ToneSpan(TickTones, 10, 15);
  }

  /** A whole run from 0 plays four ordinary tones, the phase tone, four, the phase tone, four, and nothing at 15. */
  lemma FullRunTones()
    ensures ToneSpan(TickTones, 0, Duration) ==
      Repeat(SecondTone, 4) + [PhaseTone] + Repeat(SecondTone, 4) + [PhaseTone] + Repeat(SecondTone, 4)
  {
    LastTwoPhasesTones();
    OrdinarySpan(0, 4);
    ToneSpanSplit(TickTones, 0, 4, 15);
    assert ToneSpan(TickTones, 4, 15) == [PhaseTone] + ToneSpan(TickTones, 5, 15);
  }

  // ----- The view as an object -----

  /** `RapidBlinkingTimerView`: the view's @State fields, updated in place. */
  class RapidBlinkingTimerView {
    var timerActive: bool
    var elapsedTime: nat
    var symbolHighlighted: bool
    /** System sounds played so far, in order. */
    ghost var tones: seq<int>
    /** How often `finishAction` has been called. */
    var finishCalls: nat

    function Model(): State
      reads this
    {
      State(timerActive, elapsedTime, symbolHighlighted)
    }

    ghost predicate Valid()
      reads this
    {
      Inv(Model())
    }

    constructor ()
      ensures Valid() && Model() == Initial
      ensures tones == [] && finishCalls == 0
    {
      timerActive, elapsedTime, symbolHighlighted := false, 0, false;
      tones, finishCalls := [], 0;
    }

    method StartTimer()
      modifies this
      ensures Model() == Start(old(Model()))
      ensures old(Valid()) ==> Valid()
      ensures tones == old(tones) && finishCalls == old(finishCalls)
    {
      timerActive := true;
    }

    method StopTimer()
      modifies this
      ensures Model() == Stop(old(Model()))
      ensures old(Valid()) ==> Valid()
      ensures tones == old(tones) && finishCalls == old(finishCalls)
    {
      timerActive := false;
    }

    method ResetTimer()
      modifies this
      ensures Valid() && Model() == Initial
      ensures tones == old(tones) && finishCalls == old(finishCalls)
    {
      timerActive := false;
      elapsedTime := 0;
      symbolHighlighted := false;
    }

    method UpdateTimer()
      requires Valid()
      modifies this
      ensures Valid() && Model() == Update(old(Model())).next
      ensures tones == old(tones) + Update(old(Model())).tones
      ensures finishCalls == old(finishCalls) + if Update(old(Model())).finished then 1 else 0
    {
      elapsedTime := elapsedTime + 1;
      if elapsedTime % HighlightDuration != 0 {
        tones := tones + [SecondTone];
      } else {
        if elapsedTime < Duration {
          tones := tones + [PhaseTone];
        }
      }
      symbolHighlighted := elapsedTime % (HighlightDuration * 2) < HighlightDuration;
      if elapsedTime >= Duration {
        StopTimer();
        finishCalls := finishCalls + 1;
      }
    }

    /** The clock subscription: one tick, ignored unless the timer is active. */
    method OnReceive()
      requires Valid()
      modifies this
      ensures Valid() && Model() == Receive(old(Model())).next
      ensures tones == old(tones) + Receive(old(Model())).tones
      ensures finishCalls == old(finishCalls) + if Receive(old(Model())).finished then 1 else 0
    {
      if !timerActive {
        return;
      }
      UpdateTimer();
    }
  }
}
