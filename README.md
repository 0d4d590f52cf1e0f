# Visionize eye-training app: a Dafny model of its exercise and quiz logic

Visionize is an iPad tutorial of five lessons: an introduction, three
lessons with an eye exercise each, and a quiz. This project models the parts
of the app that decide something:

- **The three exercise timers.** Each is a once-per-second state machine with
  start, stop and reset commands. It plays a system sound on most seconds and
  calls a completion action when its time is up.
  - Eye rotation (lesson 1): 30 seconds. An arrow turns 24 degrees per second:
    forward on the ticks to 1-14 s, backward on the ticks to 15-29 s, since the
    direction flips on the tick that reaches 15 s. The label says "clockwise"
    below 15 s and "counterclockwise" from 15 s on.
  - Focus shifting (lesson 2): 30 seconds. The highlight switches between a
    thumb symbol and a distant-object symbol every `symbolSwitchDuration`
    seconds.
  - Rapid blinking (lesson 3): 15 seconds. An eye symbol is highlighted and
    dimmed in five-second phases.
- **The quiz screen.** It has a "Question n of 3" counter, answer buttons
  coloured by the feedback state, and feedback after each pick. A correct pick
  shows the solution, then moves to the next question after a delay. A wrong
  pick shows an error for a shorter delay. The buttons are disabled while
  feedback is shown.
- **The content tables.** These are the three questions with their answers
  (exactly one correct per question), the answer objects with their
  identifier-based equality, and the five lessons with their captions and
  element lists.
- **The navigation row.** It shows the previous-lesson and next-lesson buttons
  below a lesson.

Each timer view is modelled twice:

- As a pure `State` datatype with step functions, `Update` for `updateTimer`
  and `Receive` for the guarded clock handler. The lemmas about whole runs are
  stated over these. A run of `k` seconds is `Iterate(Receive, s, k)`, which
  collects the final state, every tone played and the number of completion
  calls.
- As a class with the view's own mutable fields. Each method is proved to move
  the object exactly as the step function says. The class also keeps a ghost
  log of the sounds played and a counter of `finishAction` calls.

The quiz view is a class with its two feedback flags. Its delayed
continuations are separate methods.

Behaviour of the code that the model follows as written:

- The eye-rotation timer resets itself (elapsed 0, angle 0, clockwise) when it
  reaches 30 seconds.
- The focus-shifting and rapid-blinking timers only stop at the end. Their
  elapsed time stays at 30 or 15, and a later start would run on past the
  limit. The lesson screen hides a finished exercise, so this state is not
  reached through the app.
- The rapid-blinking highlight is on after 1-4 and 10-14 seconds and off after
  5-9 and at 15. Before the first second it is off.
- A fresh focus-shifting view highlights symbol 1 (the distant object).
  `resetTimer` sets it to symbol 0 (the thumb), so a reset view starts on the
  other symbol.

## Model

| member | source | states |
|---|---|---|
| Common.FirstIndex | Visionize.swiftpm/Views/ContentView.swift:31 | `firstIndex(of:)`: none exactly when the element is absent; otherwise a position holding it, with no earlier position holding it |
| EyeRotation.InactiveTickIgnored | Visionize.swiftpm/Views/Exercises/EyeRotationTimerView.swift:38-42 | a clock tick while the timer is inactive changes nothing, plays nothing and does not finish |
| EyeRotation.CommandsKeepInv | Visionize.swiftpm/Views/Exercises/EyeRotationTimerView.swift:92-107 | start and stop each keep elapsed time, angle and direction (a paused run resumes where it stopped); the invariant holds after start, stop and in the reset state |
| EyeRotation.TickClosedForm | Visionize.swiftpm/Views/Exercises/EyeRotationTimerView.swift:110-134 | a tick below 30 s moves a running timer to the running state of the next second; the tick reaching 30 s plays nothing, resets the timer and finishes |
| EyeRotation.TickKeepsInv | Visionize.swiftpm/Views/Exercises/EyeRotationTimerView.swift:110-134 | every tick keeps elapsed time below 30 with angle and direction those of the elapsed time |
| EyeRotation.TickTurnsArrow | Visionize.swiftpm/Views/Exercises/EyeRotationTimerView.swift:118-127 | each non-final second turns the arrow 24 degrees in the current direction; the direction reverses exactly on the tick reaching 15 s |
| EyeRotation.TickTonesRule | Visionize.swiftpm/Views/Exercises/EyeRotationTimerView.swift:113-133 | sound 1105 plays iff the new elapsed time is not a multiple of 15; 1103 plays iff it is 15; the 30th second is silent; finishing happens iff it is 30 |
| EyeRotation.LabelsMatchDirection | Visionize.swiftpm/Views/Exercises/EyeRotationTimerView.swift:29-50 | the "counterclockwise" label and the counterclockwise arrow are shown iff the direction is -1; "seconds left" stays between 1 and 30 |
| EyeRotation.RunWithinRound | Visionize.swiftpm/Views/Exercises/EyeRotationTimerView.swift:110-127 | k ticks that stay below 30 s reach the running state of elapsed + k, play the per-second tones of those seconds and do not finish |
| EyeRotation.AngleAfterTicks | Visionize.swiftpm/Views/Exercises/EyeRotationTimerView.swift:124-127 | after k ticks from a fresh start the arrow stands at 24k degrees clockwise up to 14 s, then at 24(28 - k) turning back |
| EyeRotation.OrdinarySpan | Visionize.swiftpm/Views/Exercises/EyeRotationTimerView.swift:113-116 | between two multiples of 15 only sound 1105 plays, once per second |
| EyeRotation.FullRun | Visionize.swiftpm/Views/Exercises/EyeRotationTimerView.swift:110-134 | a full run plays 1105 fourteen times, 1103 once, then 1105 fourteen times; it calls `finishAction` exactly once and ends reset and inactive |
| EyeRotation.EyeRotationTimerView.constructor | Visionize.swiftpm/Views/Exercises/EyeRotationTimerView.swift:9-18 | a new view is inactive at 0 s, angle 0, clockwise, with nothing played |
| EyeRotation.EyeRotationTimerView.StartTimer | Visionize.swiftpm/Views/Exercises/EyeRotationTimerView.swift:92-94 | sets only the active flag |
| EyeRotation.EyeRotationTimerView.StopTimer | Visionize.swiftpm/Views/Exercises/EyeRotationTimerView.swift:97-99 | clears only the active flag |
| EyeRotation.EyeRotationTimerView.ResetTimer | Visionize.swiftpm/Views/Exercises/EyeRotationTimerView.swift:102-107 | inactive, 0 s, angle 0, direction 1; no sound, no completion |
| EyeRotation.EyeRotationTimerView.UpdateTimer | Visionize.swiftpm/Views/Exercises/EyeRotationTimerView.swift:110-134 | the fields change as `Update` says, its sounds are appended to the log, and the completion counter goes up iff the tick finishes |
| EyeRotation.EyeRotationTimerView.OnReceive | Visionize.swiftpm/Views/Exercises/EyeRotationTimerView.swift:38-42 | the guarded tick: as `Receive`, which ignores ticks while inactive |
| FocusShifting.InactiveTickIgnored | Visionize.swiftpm/Views/Exercises/FocusShiftingTimerView.swift:30-34 | a tick while inactive changes nothing, plays nothing and does not finish |
| FocusShifting.CommandsKeepInv | Visionize.swiftpm/Views/Exercises/FocusShiftingTimerView.swift:97-111 | start, stop, reset and the initial state keep the highlighted index 0 or 1 |
| FocusShifting.TickRule | Visionize.swiftpm/Views/Exercises/FocusShiftingTimerView.swift:114-133 | the highlight switches, with sound 1103, iff the new elapsed time is below 30 and a multiple of the switch duration; 1105 plays iff it is not a multiple; the tick reaching 30 s stops without reset and finishes |
| FocusShifting.OneSymbolHighlighted | Visionize.swiftpm/Views/Exercises/FocusShiftingTimerView.swift:27-43 | while running exactly one of the two symbols is highlighted, and the instruction says "thumb" iff symbol 0 is the highlighted one |
| FocusShifting.RunWithinRound | Visionize.swiftpm/Views/Exercises/FocusShiftingTimerView.swift:114-126 | k ticks below 30 s switch the highlight once per multiple of the duration passed, play the per-second tones and do not finish |
| FocusShifting.SwitchCount | Visionize.swiftpm/Views/Exercises/FocusShiftingTimerView.swift:117-126 | from a to b seconds below 30, 1103 plays b/d - a/d times and 1105 on every other second |
| FocusShifting.LastTick | Visionize.swiftpm/Views/Exercises/FocusShiftingTimerView.swift:128-132 | the tick from 29 to 30 s does not switch, stops the timer at 30 s without resetting it and finishes once |
| FocusShifting.FullRunTones | Visionize.swiftpm/Views/Exercises/FocusShiftingTimerView.swift:114-133 | the sounds of a run resumed at e are those of the seconds e+1 to 29 followed by those of the 30th |
| FocusShifting.FullRun | Visionize.swiftpm/Views/Exercises/FocusShiftingTimerView.swift:114-133 | a run resumed at e ends after 30 - e ticks, stopped at 30 s, with one completion; the highlight has switched, and 1103 has played, 29/d - e/d times |
| FocusShifting.SecondsLeftDuringRun | Visionize.swiftpm/Views/Exercises/FocusShiftingTimerView.swift:38 | during a run "seconds left" counts down one per tick and never goes below 0 |
| FocusShifting.NoEarlyFinish | Visionize.swiftpm/Views/Exercises/FocusShiftingTimerView.swift:128-132 | no tick before the 30th second calls `finishAction` |
| FocusShifting.FocusShiftingTimerView.constructor | Visionize.swiftpm/Views/Exercises/FocusShiftingTimerView.swift:6-18 | a new view for duration d is inactive at 0 s with symbol 1 highlighted |
| FocusShifting.FocusShiftingTimerView.StartTimer | Visionize.swiftpm/Views/Exercises/FocusShiftingTimerView.swift:97-99 | sets only the active flag |
| FocusShifting.FocusShiftingTimerView.StopTimer | Visionize.swiftpm/Views/Exercises/FocusShiftingTimerView.swift:102-104 | clears only the active flag |
| FocusShifting.FocusShiftingTimerView.ResetTimer | Visionize.swiftpm/Views/Exercises/FocusShiftingTimerView.swift:107-111 | inactive, 0 s, symbol 0 highlighted, duration kept |
| FocusShifting.FocusShiftingTimerView.UpdateTimer | Visionize.swiftpm/Views/Exercises/FocusShiftingTimerView.swift:114-133 | the fields change as `Update` says, its sounds are appended to the log, and the completion counter goes up iff the tick finishes |
| FocusShifting.FocusShiftingTimerView.OnReceive | Visionize.swiftpm/Views/Exercises/FocusShiftingTimerView.swift:30-34 | the guarded tick, as `Receive` |
| RapidBlinking.InactiveTickIgnored | Visionize.swiftpm/Views/Exercises/RapidBlinkingTimerView.swift:27-31 | a tick while inactive changes nothing, plays nothing and does not finish |
| RapidBlinking.CommandsKeepInv | Visionize.swiftpm/Views/Exercises/RapidBlinkingTimerView.swift:99-113 | start, stop and the reset state keep the highlight in step with the elapsed time |
| RapidBlinking.TickRule | Visionize.swiftpm/Views/Exercises/RapidBlinkingTimerView.swift:116-137 | the highlight becomes (elapsed mod 10) < 5; 1105 plays iff elapsed is not a multiple of 5; 1103 plays iff elapsed is 5 or 10; the tick reaching 15 s stops without reset and finishes |
| RapidBlinking.InstructionFollowsHighlight | Visionize.swiftpm/Views/Exercises/RapidBlinkingTimerView.swift:39-43 | "Start blinking rapidly" is shown iff the eye is highlighted for the elapsed time, "Take a short break" otherwise |
| RapidBlinking.HighlightPattern | Visionize.swiftpm/Views/Exercises/RapidBlinkingTimerView.swift:129-130 | within a run the eye is highlighted after 1-4 and 10-14 s and dimmed after 5-9 s and at 15 s |
| RapidBlinking.RunWithinRound | Visionize.swiftpm/Views/Exercises/RapidBlinkingTimerView.swift:116-131 | k ticks below 15 s reach the running state of elapsed + k, play the per-second tones and do not finish |
| RapidBlinking.FullRun | Visionize.swiftpm/Views/Exercises/RapidBlinkingTimerView.swift:116-137 | a run resumed at e ends after 15 - e ticks, stopped (not reset) at 15 s, dimmed, with one completion |
| RapidBlinking.SecondsLeftDuringRun | Visionize.swiftpm/Views/Exercises/RapidBlinkingTimerView.swift:35 | during a run "seconds left" counts down one per tick and never goes below 0; only the last tick finishes |
| RapidBlinking.OrdinarySpan | Visionize.swiftpm/Views/Exercises/RapidBlinkingTimerView.swift:119-121 | between two multiples of 5 only sound 1105 plays, once per second |
| RapidBlinking.LastPhaseTones | Visionize.swiftpm/Views/Exercises/RapidBlinkingTimerView.swift:119-127 | seconds 11-15 play 1105 four times and nothing at 15 |
| RapidBlinking.LastTwoPhasesTones | Visionize.swiftpm/Views/Exercises/RapidBlinkingTimerView.swift:119-127 | seconds 6-15 play four 1105, then 1103 at 10, then the last phase |
| RapidBlinking.FullRunTones | Visionize.swiftpm/Views/Exercises/RapidBlinkingTimerView.swift:119-127 | a whole run plays four 1105, 1103, four 1105, 1103, four 1105, and nothing at 15 |
| RapidBlinking.RapidBlinkingTimerView.constructor | Visionize.swiftpm/Views/Exercises/RapidBlinkingTimerView.swift:9-15 | a new view is inactive at 0 s and dimmed |
| RapidBlinking.RapidBlinkingTimerView.StartTimer | Visionize.swiftpm/Views/Exercises/RapidBlinkingTimerView.swift:99-101 | sets only the active flag |
| RapidBlinking.RapidBlinkingTimerView.StopTimer | Visionize.swiftpm/Views/Exercises/RapidBlinkingTimerView.swift:104-106 | clears only the active flag |
| RapidBlinking.RapidBlinkingTimerView.ResetTimer | Visionize.swiftpm/Views/Exercises/RapidBlinkingTimerView.swift:109-113 | inactive, 0 s, dimmed |
| RapidBlinking.RapidBlinkingTimerView.UpdateTimer | Visionize.swiftpm/Views/Exercises/RapidBlinkingTimerView.swift:116-137 | the fields change as `Update` says, its sounds are appended to the log, and the completion counter goes up iff the tick finishes |
| RapidBlinking.RapidBlinkingTimerView.OnReceive | Visionize.swiftpm/Views/Exercises/RapidBlinkingTimerView.swift:27-31 | the guarded tick, as `Receive` |
| Answers.IdSource.Fresh | Visionize.swiftpm/Models/Quiz/Answer.swift:23 | every identifier handed out differs from all handed out before |
| Answers.Answer.constructor | Visionize.swiftpm/Models/Quiz/Answer.swift:22-26 | stores text and flag exactly as given under a never-used identifier |
| Answers.SameIsEquivalence | Visionize.swiftpm/Models/Quiz/Answer.swift:13-15 | answer equality is reflexive, symmetric and transitive |
| Answers.NewAnswerDiffers | Visionize.swiftpm/Models/Quiz/Answer.swift:22-26 | an answer created later, even with the same text and flag, is never equal to an earlier one |
| Questions.MakeAnswers | Visionize.swiftpm/Models/Quiz/Question.swift:27-36 | `answers` yields three new objects with the table's texts and flags, fresh identifiers, and no two equal |
| Questions.QuestionOrder | Visionize.swiftpm/Models/Quiz/Question.swift:10-14 | exactly three questions, first, second, third, each listed once; the identifiers are the case names, all distinct |
| Questions.QuestionTextsDistinct | Visionize.swiftpm/Models/Quiz/Question.swift:16-25 | two questions share a prompt iff they are the same question |
| Questions.OneCorrectAnswer | Visionize.swiftpm/Models/Quiz/Question.swift:27-36 | three answers per question; an answer is flagged correct iff it is at position 0, 1 or 2 for the first, second and third question |
| Questions.AnswerTextsDistinct | Visionize.swiftpm/Models/Quiz/Question.swift:30-34 | two answers of a question share a text iff they are at the same position; an answer's text equals the correct answer's text iff it is correct |
| Questions.ReadAnswersTwice | Visionize.swiftpm/Models/Quiz/Question.swift:27-35 | two reads of `answers` give no equal pair, yet their texts agree exactly position by position |
| Quiz.ButtonColor | Visionize.swiftpm/Views/Exercises/QuizView.swift:55-68 | green iff the solution is shown and the answer is correct; red iff no solution is shown and an error is; gray otherwise |
| Quiz.QuestionCounter | Visionize.swiftpm/Views/Exercises/QuizView.swift:20 | the counter lies between 1 and 3 and names the current question's position |
| Quiz.CounterFollowsOrder | Visionize.swiftpm/Views/Exercises/QuizView.swift:20 | the k-th question shows counter k + 1 |
| Quiz.FeedbackColours | Visionize.swiftpm/Views/Exercises/QuizView.swift:55-68 | with the solution shown, exactly the button at the correct position is green and the others gray; with an error shown, all are red |
| Quiz.IdleScreen | Visionize.swiftpm/Views/Exercises/QuizView.swift:42 | without feedback every button is gray and enabled |
| Quiz.QuizView.constructor | Visionize.swiftpm/Views/Exercises/QuizView.swift:12-15 | both flags down, nothing played, nothing called |
| Quiz.QuizView.CheckAnswer | Visionize.swiftpm/Views/Exercises/QuizView.swift:71-93 | only on enabled buttons; a correct pick raises the solution flag and plays 1111, a wrong pick raises the error flag and plays 1053; the other flag stays down; the buttons are then disabled |
| Quiz.QuizView.SuccessDelayElapsed | Visionize.swiftpm/Views/Exercises/QuizView.swift:77-84 | hides the solution, calls `nextQuestion` once, and calls `finishAction` iff the quiz is then finished; each correct pick leads to exactly one `nextQuestion` |
| Quiz.QuizView.ErrorDelayElapsed | Visionize.swiftpm/Views/Exercises/QuizView.swift:90-92 | hides the error and changes nothing else |
| Quiz.QuizView.ColorOf | Visionize.swiftpm/Views/Exercises/QuizView.swift:40 | while the solution is pending only correct answers are green; while an error is pending all are red; otherwise gray |
| Lessons.IndexOf | Visionize.swiftpm/Models/Lesson/Lesson.swift:12-13 | every lesson has exactly one position in `allCases` |
| Lessons.LessonOrder | Visionize.swiftpm/Models/Lesson/Lesson.swift:12-17 | exactly five lessons, each listed once, with distinct identifiers |
| Lessons.CaptionsDistinct | Visionize.swiftpm/Models/Lesson/Lesson.swift:49-62 | two lessons share a caption iff they are the same lesson |
| Lessons.ElementCounts | Visionize.swiftpm/Models/Lesson/Lesson.swift:82-127 | the lessons have 6, 6, 10, 7 and 3 elements |
| Lessons.OneExerciseDescription | Visionize.swiftpm/Models/Lesson/Lesson.swift:79-129 | every lesson holds exactly one exercise description |
| Lessons.StartsWithPlainText | Visionize.swiftpm/Models/Lesson/Lesson.swift:82-127 | every lesson opens with a plain text element without top padding |
| Lessons.TitlesAndDescriptionsPadded | Visionize.swiftpm/Models/Lesson/Lesson.swift:82-127 | every title and every exercise description has top padding |
| Navigation.NavigationButtons | Visionize.swiftpm/Views/ContentView.swift:30-70 | the row is always produced; previous exists iff the index is above 0 and leads to index - 1; next exists iff the index is below 4 and leads to index + 1; the introduction has no previous and the quiz no next |
| Navigation.NextThenPrevious | Visionize.swiftpm/Views/ContentView.swift:33-53 | following next and then previous returns to the start, and the other way round |

## Left out

- Sounds: `AudioServicesPlaySystemSound` is a call into the system. Only the sound identifiers are kept, in a ghost log.
- Real time: the once-per-second clock and the 1.5 s and 0.75 s delays have no clock here. The clock is the `OnReceive` methods, and the delays are the `SuccessDelayElapsed` and `ErrorDelayElapsed` methods. Nothing constrains when a delay fires, beyond its being scheduled.
- The quiz manager and the lesson manager are not part of this model. Whether the picked answer is correct, and whether the quiz is finished after `nextQuestion`, come in as parameters; `nextQuestion` calls are counted. `switchLesson(to:)` is assumed to make its argument the current lesson, and `NextThenPrevious` is stated on that assumption.
- Answer identifiers: `UUID()` is modelled as a counter that never hands out an identifier twice. Random collisions are not modelled.
- Mutable answer fields: `text` and `isCorrect` are mutable fields of `Answer`, but no code changes them. Equality reads only the immutable `id`, so it cannot change when they do; no separate member states this.
- The lesson exercise screen, the top bar's progress gauge and the lesson detail view are not part of this model. They are layout, rendering or forwarding to the managers. The element subclasses are folded into one `Element` datatype, kind plus padding.
- The changing of `symbolSwitchDuration` while a run is under way is not modelled. The model fixes the duration when the view is made, and the picker of the lesson screen is not part of this model. The duration is required to be positive; the picker offers only 1, 2 and 3.
- Animation and floating point: the shake effect, `withAnimation` and the `Double` angle are left out. The angle is an integer, since it only ever holds multiples of 24.
- Presentation detail: colours of the timer views, symbol names other than the eye-rotation arrow, lesson titles, symbols and colours, the markdown texts of lesson elements, element identifiers and all layout modifiers.
- Restarting a finished focus-shifting or rapid-blinking timer (elapsed time already at the limit) is not covered by the run lemmas, which start below the limit. The step functions do model it: the next tick goes past the limit, stops again and calls `finishAction` again.
