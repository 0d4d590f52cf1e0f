/**
 * The eye-rotation exercise of lesson 1: a 30-second timer, driven by a
 * once-per-second clock, that rotates an arrow clockwise for 15 seconds and
 * counterclockwise for the next 15, plays a tone every second and a different
 * tone at the reversal, and resets itself and reports completion at 30 seconds.
 */
module EyeRotation {
  import opened Common

  /** Seconds per rotation direction. */
  const RotationDuration: nat := 15
  /** Length of the whole exercise in seconds. */
  const Duration: nat := 30
  /** Degrees the arrow turns per second: 360 / 15. */
  const DegreesPerSecond: int := 360 / RotationDuration
  /** System sound played on an ordinary second. */
  const SecondTone: int := 1105
  /** System sound played when the rotation direction reverses. */
  const ReverseTone: int := 1103

  /**
   * The view's state. The angle is a floating-point number in the app, but it
   * only ever holds whole multiples of 24 degrees.
   */
  datatype State = State(timerActive: bool, elapsedTime: nat, angle: int, rotationDirection: int)

  /** The state a fresh view starts in, and the state `resetTimer` restores. */
  const Initial: State := State(false, 0, 0, 1)

  function Start(s: State): State { s.(timerActive := true) }

  function Stop(s: State): State { s.(timerActive := false) }

  /** `updateTimer`: one second of the exercise. */
  function Update(s: State): Step<State>
  {
    var elapsed := s.elapsedTime + 1;
    var second := if elapsed % RotationDuration != 0 then [SecondTone] else [];
    var reverse := elapsed < Duration && elapsed % RotationDuration == 0;
    var direction := if reverse then -s.rotationDirection else s.rotationDirection;
    var angle := s.angle + DegreesPerSecond * direction;
    var tones := second + (if reverse then [ReverseTone] else []);
    if elapsed >= Duration then Step(Initial, tones, true)
    else Step(State(s.timerActive, elapsed, angle, direction), tones, false)
  }

  /** The clock handler: a tick reaches `updateTimer` only while the timer is active. */
  function Receive(s: State): Step<State>
  {
    if s.timerActive then Update(s) else Step(s, [], false)
  }

  // ----- Phase as a function of elapsed time -----

  /** The rotation direction the arrow should have after `e` seconds. */
  function DirectionAt(e: nat): int { if e >= RotationDuration then -1 else 1 }

  /** The angle the arrow should have after `e` seconds of a run (24 degrees per second, backwards after 15). */
  function AngleAt(e: nat): int { if e < RotationDuration then 24 * e else 24 * (28 - e) }

  /** A running timer's state after `e` seconds. */
  function Running(e: nat): State { State(true, e, AngleAt(e), DirectionAt(e)) }

  /** The tones of the tick that brings elapsed time to `e`. */
  function TickTones(e: nat): seq<int>
  {
    if e % RotationDuration != 0 then [SecondTone] else if e < Duration then [ReverseTone] else []
  }

  /** The word shown in the instruction "Rotate your eyes ...". */
  function DirectionLabel(elapsedTime: nat): string
  {
    if elapsedTime >= 15 then "counterclockwise" else "clockwise"
  }

  /** The SF Symbol name of the arrow. */
  function ArrowSymbol(elapsedTime: nat): string
  {
    "arrow." + (if elapsedTime >= 15 then "counter" else "") + "clockwise.circle.fill"
  }

  /** The number in the label "... seconds left". */
  function SecondsLeft(elapsedTime: nat): int { Duration - elapsedTime }

  /**
   * The invariant every reachable state keeps: elapsed time stays below 30,
   * and the direction and the angle are those the elapsed time calls for.
   */
  ghost predicate Inv(s: State)
  {
    && s.elapsedTime < Duration
    && s.rotationDirection == DirectionAt(s.elapsedTime)
    && s.angle == AngleAt(s.elapsedTime)
  }

  // ----- Properties of single commands -----

  lemma InactiveTickIgnored(s: State)
    requires !s.timerActive
    ensures Receive(s) == Step(s, [], false)
  {
  }

  lemma CommandsKeepInv(s: State)
    requires Inv(s)
    ensures Inv(Start(s)) && Inv(Stop(s)) && Inv(Initial)
    ensures Start(s).elapsedTime == s.elapsedTime && Start(s).angle == s.angle
    ensures Start(s).rotationDirection == s.rotationDirection
    ensures Stop(s).elapsedTime == s.elapsedTime && Stop(s).angle == s.angle
    ensures Stop(s).rotationDirection == s.rotationDirection
  {
  }

  /** One tick of a running timer, in closed form. */
  lemma TickClosedForm(s: State)
    requires Inv(s) && s.timerActive
    ensures s.elapsedTime + 1 < Duration ==>
      Receive(s) == Step(Running(s.elapsedTime + 1), TickTones(s.elapsedTime + 1), false)
    ensures s.elapsedTime + 1 == Duration ==> Receive(s) == Step(Initial, [], true)
  {
  }

  lemma TickKeepsInv(s: State)
    requires Inv(s)
    ensures Inv(Receive(s).next)
  {
  }

  /**
   * Each second that does not end the run turns the arrow by 24 degrees in
   * the current direction, and the direction reverses only on the tick that
   * reaches 15 seconds.
   */
  lemma TickTurnsArrow(s: State)
    requires Inv(s) && s.timerActive && s.elapsedTime + 1 < Duration
    ensures Receive(s).next.angle == s.angle + DegreesPerSecond * Receive(s).next.rotationDirection
    ensures Receive(s).next.rotationDirection != s.rotationDirection <==> s.elapsedTime + 1 == RotationDuration
  {
  }

  /**
   * Tones of one tick: the ordinary tone unless elapsed time becomes a multiple
   * of 15, the reversal tone only at 15, and nothing at all at 30.
   */
  lemma TickTonesRule(s: State)
    requires Inv(s) && s.timerActive
    ensures SecondTone in Receive(s).tones <==> (s.elapsedTime + 1) % RotationDuration != 0
    ensures ReverseTone in Receive(s).tones <==> s.elapsedTime + 1 == RotationDuration
    ensures s.elapsedTime + 1 == Duration ==> Receive(s).tones == []
    ensures Receive(s).finished <==> s.elapsedTime + 1 == Duration
  {
  }

  /** The direction label and the arrow symbol always agree with the internal direction. */
  lemma LabelsMatchDirection(s: State)
    requires Inv(s)
    ensures DirectionLabel(s.elapsedTime) == "counterclockwise" <==> s.rotationDirection == -1
    ensures ArrowSymbol(s.elapsedTime) == "arrow.counterclockwise.circle.fill" <==> s.rotationDirection == -1
    ensures 1 <= SecondsLeft(s.elapsedTime) <= Duration
  {
    if s.elapsedTime < 15 {
      assert |DirectionLabel(s.elapsedTime)| == 9;
      assert |ArrowSymbol(s.elapsedTime)| == 27;
    }
  }

  // ----- Runs of several ticks -----

  /** Ticks that stay inside one run move the state along `Running` and play `TickTones`. */
  lemma {:induction false} RunWithinRound(s: State, k: nat)
    requires Inv(s) && s.timerActive && s.elapsedTime + k < Duration
    decreases k
    ensures Iterate(Receive, s, k) ==
      Trace(Running(s.elapsedTime + k), ToneSpan(TickTones, s.elapsedTime, s.elapsedTime + k), 0)
  {
    if k == 0 {
      assert s == Running(s.elapsedTime);
    } else {
      TickClosedForm(s);
      RunWithinRound(Running(s.elapsedTime + 1), k - 1);
    }
  }

  /** After `k` ticks from a freshly started timer the arrow stands at 24k, or 24(28 - k) once reversed. */
  lemma AngleAfterTicks(k: nat)
    requires k < Duration
    ensures Iterate(Receive, Start(Initial), k).last.angle == if k <= 14 then 24 * k else 24 * (28 - k)
    ensures Iterate(Receive, Start(Initial), k).last.rotationDirection == if k <= 14 then 1 else -1
    ensures Iterate(Receive, Start(Initial), k).finishes == 0
  {
    RunWithinRound(Start(Initial), k);
  }

  /** Between two multiples of 15 only the ordinary tone plays. */
  lemma {:induction false} OrdinarySpan(a: nat, b: nat)
    requires a <= b && a / RotationDuration == b / RotationDuration
    ensures ToneSpan(TickTones, a, b) == Repeat(SecondTone, b - a)
    decreases b - a
  {
    if a < b {
      OrdinarySpan(a + 1, b);
      assert [SecondTone] + Repeat(SecondTone, b - a - 1) == Repeat(SecondTone, b - a);
    }
  }

  /**
   * A full run from a freshly started timer: 30 ticks play the ordinary tone
   * 14 times, the reversal tone once, the ordinary tone 14 times more, call
   * `finishAction` exactly once, and leave the timer reset and inactive.
   */
  lemma FullRun()
    ensures Iterate(Receive, Start(Initial), Duration) ==
      Trace(Initial, Repeat(SecondTone, 14) + [ReverseTone] + Repeat(SecondTone, 14), 1)
  {
    IterateSplit(Receive, Start(Initial), 29, 1);
    RunWithinRound(Start(Initial), 29);
    TickClosedForm(Running(29));
    ToneSpanSplit(TickTones, 0, 14, 29);
    ToneSpanSplit(TickTones, 14, 15, 29);
    OrdinarySpan(0, 14);
    OrdinarySpan(15, 29);
  }

  // ----- The view as an object -----

  /** `EyeRotationTimerView`: the view's @State fields, updated in place. */
  class EyeRotationTimerView {
    var timerActive: bool
    var elapsedTime: nat
    var angle: int
    var rotationDirection: int
    /** System sounds played so far, in order. */
    ghost var tones: seq<int>
    /** How often `finishAction` has been called. */
    var finishCalls: nat

    function Model(): State
      reads this
    {
      State(timerActive, elapsedTime, angle, rotationDirection)
    }

    ghost predicate Valid()
      reads this
    {
      Inv(Model())
    }

    constructor ()
      ensures Valid() && Model() == Initial
      ensures tones == [] && finishCalls == 0
    {
      timerActive, elapsedTime, angle, rotationDirection := false, 0, 0, 1;
      tones, finishCalls := [], 0;
    }

    method StartTimer()
      modifies this
      ensures Model() == Start(old(Model()))
      ensures old(Valid()) ==> Valid()
      ensures tones == old(tones) && finishCalls == old(finishCalls)
    {
      timerActive := true;
    }

    method StopTimer()
      modifies this
      ensures Model() == Stop(old(Model()))
      ensures old(Valid()) ==> Valid()
      ensures tones == old(tones) && finishCalls == old(finishCalls)
    {
      timerActive := false;
    }

    method ResetTimer()
      modifies this
      ensures Valid() && Model() == Initial
      ensures tones == old(tones) && finishCalls == old(finishCalls)
    {
      timerActive := false;
      elapsedTime := 0;
      angle := 0;
      rotationDirection := 1;
    }

    method UpdateTimer()
      requires Valid()
      modifies this
      ensures Valid() && Model() == Update(old(Model())).next
      ensures tones == old(tones) + Update(old(Model())).tones
      ensures finishCalls == old(finishCalls) + if Update(old(Model())).finished then 1 else 0
    {
      elapsedTime := elapsedTime + 1;
      if elapsedTime % RotationDuration != 0 {
        tones := tones + [SecondTone];
      }
      if elapsedTime < Duration && elapsedTime % RotationDuration == 0 {
        rotationDirection := -rotationDirection;
        tones := tones + [ReverseTone];
      }
      angle := angle + DegreesPerSecond * rotationDirection;
      if elapsedTime >= Duration {
        ResetTimer();
        finishCalls := finishCalls + 1;
      }
    }

    /** The clock subscription: one tick, ignored unless the timer is active. */
    method OnReceive()
      requires Valid()
      modifies this
      ensures Valid() && Model() == Receive(old(Model())).next
      ensures tones == old(tones) + Receive(old(Model())).tones
      ensures finishCalls == old(finishCalls) + if Receive(old(Model())).finished then 1 else 0
    {
      if !timerActive {
        return;
      }
      UpdateTimer();
    }
  }
}
