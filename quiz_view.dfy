/**
 * The quiz screen: a counter "Question n of 3", the current question's answers
 * as buttons, and the feedback after a pick. A correct pick shows the solution
 * for 1.5 seconds and then moves the quiz manager to the next question; a wrong
 * pick shows an error for 0.75 seconds. While either is shown the buttons are
 * disabled.
 *
 * The quiz manager is not part of this model: whether the picked answer is
 * correct and whether the quiz is finished after `nextQuestion` come in as
 * parameters, and `nextQuestion` is recorded by a call counter.
 */
module Quiz {
  import opened Common
  import opened Questions

  /** System sound played for a correct pick. */
  const CorrectTone: int := 1111
  /** System sound played for a wrong pick. */
  const WrongTone: int := 1053

  datatype Color = Green | Red | Gray

  /**
   * `getButtonColor`: while the solution is shown the correct answer is green
   * and the others gray; otherwise, while an error is shown, every answer is
   * red; otherwise gray.
   */
  function ButtonColor(showSolution: bool, showError: bool, answerIsCorrect: bool): (c: Color)
    ensures c == Green <==> showSolution && answerIsCorrect
    ensures c == Red <==> !showSolution && showError
    ensures c == Gray <==> (showSolution && !answerIsCorrect) || (!showSolution && !showError)
  {
    if showSolution then
      if answerIsCorrect then Green else Gray
    else if showError then Red
    else Gray
  }

  /** The `disabled` rule of the answer buttons: no pick while feedback is shown. */
  predicate ButtonsDisabled(showSolution: bool, showError: bool)
  {
    showSolution || showError
  }

  /**
   * The number in "Question n of 3": the position of the current question in
   * `Question.allCases` plus one, with position 0 if it were missing.
   */
  function QuestionCounter(current: Question): (n: nat)
    ensures 1 <= n <= |AllQuestions|
    ensures AllQuestions[n - 1] == current
  {
    QuestionOrder();
    var found := FirstIndex(AllQuestions, current);
    (match found case Some(i) => i case None => 0) + 1
  }

  /** The counter of the k-th question is k + 1, so the three questions read 1, 2 and 3 of 3. */
  lemma CounterFollowsOrder(k: nat)
    requires k < |AllQuestions|
    ensures QuestionCounter(AllQuestions[k]) == k + 1
  {
    QuestionOrder();
  }

  /**
   * With the solution shown for question `q`, exactly one button is green, the
   * one at the correct position; with an error shown, every button is red.
   */
  lemma FeedbackColours(q: Question, i: nat)
    requires i < 3
    ensures ButtonColor(true, false, AnswerTable(q)[i].isCorrect) == Green <==> i == CorrectIndex(q)
    ensures ButtonColor(true, false, AnswerTable(q)[i].isCorrect) == Gray <==> i != CorrectIndex(q)
    ensures ButtonColor(false, true, AnswerTable(q)[i].isCorrect) == Red
  {
    OneCorrectAnswer(q);
  }

  /** Without feedback on screen every button is gray and enabled. */
  lemma IdleScreen(answerIsCorrect: bool)
    ensures ButtonColor(false, false, answerIsCorrect) == Gray
    ensures !ButtonsDisabled(false, false)
  {
  }

  /** `QuizView` with its two @State flags and the continuations it has scheduled. */
  class QuizView {
    var showSolution: bool
    var showError: bool
    /** Whether the 1.5-second continuation after a correct pick is still to run. */
    ghost var successPending: bool
    /** Whether the 0.75-second continuation after a wrong pick is still to run. */
    ghost var errorPending: bool
    /** System sounds played so far, in order. */
    ghost var tones: seq<int>
    /** Correct picks so far. */
    ghost var correctPicks: nat
    /** How often `nextQuestion` has been called on the quiz manager. */
    var nextQuestionCalls: nat
    /** How often `finishAction` has been called. */
    var finishCalls: nat

    /**
     * At most one kind of feedback is shown, each flag is up exactly while its
     * continuation is pending, and every correct pick has led or will lead to
     * exactly one `nextQuestion`.
     */
    ghost predicate Valid()
      reads this
    {
      && !(showSolution && showError)
      && showSolution == successPending
      && showError == errorPending
      && nextQuestionCalls + (if successPending then 1 else 0) == correctPicks
      && finishCalls <= nextQuestionCalls
    }

    constructor ()
      ensures Valid()
      ensures !showSolution && !showError
      ensures tones == [] && correctPicks == 0 && nextQuestionCalls == 0 && finishCalls == 0
    {
      showSolution, showError := false, false;
      successPending, errorPending := false, false;
      tones, correctPicks := [], 0;
      nextQuestionCalls, finishCalls := 0, 0;
    }

    /**
     * `checkAnswer`, reachable only through an enabled button: a correct pick
     * raises `showSolution`, plays 1111 and schedules the success
     * continuation; a wrong pick raises `showError`, plays 1053 and schedules
     * the error continuation. Neither touches the other flag.
     */
    method CheckAnswer(answerIsCorrect: bool)
      requires Valid() && !ButtonsDisabled(showSolution, showError)
      modifies this
      ensures Valid()
      ensures showSolution == answerIsCorrect && showError == !answerIsCorrect
      ensures ButtonsDisabled(showSolution, showError)
      ensures tones == old(tones) + [if answerIsCorrect then CorrectTone else WrongTone]
      ensures correctPicks == old(correctPicks) + (if answerIsCorrect then 1 else 0)
      ensures nextQuestionCalls == old(nextQuestionCalls) && finishCalls == old(finishCalls)
    {
      if answerIsCorrect {
        showSolution := true;
        tones := tones + [CorrectTone];
        successPending := true;
        correctPicks := correctPicks + 1;
      } else {
        showError := true;
        tones := tones + [WrongTone];
        errorPending := true;
      }
    }

    /**
     * The success continuation: hides the solution, calls `nextQuestion`, and
     * calls `finishAction` exactly when the quiz manager then reports the quiz
     * finished.
     */
    method SuccessDelayElapsed(quizFinished: bool)
      requires Valid() && successPending
      modifies this
      ensures Valid()
      ensures !showSolution && !showError && !ButtonsDisabled(showSolution, showError)
      ensures nextQuestionCalls == old(nextQuestionCalls) + 1
      ensures nextQuestionCalls == correctPicks
      ensures finishCalls == old(finishCalls) + (if quizFinished then 1 else 0)
      ensures tones == old(tones) && correctPicks == old(correctPicks)
    {
      showSolution := false;
      successPending := false;
      nextQuestionCalls := nextQuestionCalls + 1;
      if quizFinished {
        finishCalls := finishCalls + 1;
      }
    }

    /** The error continuation: hides the error and nothing else. */
    method ErrorDelayElapsed()
      requires Valid() && errorPending
      modifies this
      ensures Valid()
      ensures !showError && showSolution == old(showSolution)
      ensures !ButtonsDisabled(showSolution, showError)
      ensures nextQuestionCalls == old(nextQuestionCalls) && finishCalls == old(finishCalls)
      ensures tones == old(tones) && correctPicks == old(correctPicks)
    {
      showError := false;
      errorPending := false;
    }

    /** The colour of a button for an answer, as the view currently draws it. */
    function ColorOf(answerIsCorrect: bool): (c: Color)
      reads this
      ensures Valid() && successPending ==> (c == Green <==> answerIsCorrect)
      ensures Valid() && errorPending ==> c == Red
      ensures Valid() && !successPending && !errorPending ==> c == Gray
    {
      ButtonColor(showSolution, showError, answerIsCorrect)
    }
  }
}
