/**
 * The row of navigation buttons below a lesson: a button to the previous
 * lesson and one to the next, each shown only when such a lesson exists.
 */
module Navigation {
  import opened Common
  import opened Lessons

  /** The targets of the two buttons; `None` where a button is not shown. */
  datatype NavigationRow = NavigationRow(previous: Option<Lesson>, next: Option<Lesson>)

  /**
   * `navigationButtons`: look the current lesson up in `Lesson.allCases` (no
   * row at all if it were missing), then offer the lesson before it and the
   * lesson after it where they exist.
   */
  function NavigationButtons(current: Lesson): (r: Option<NavigationRow>)
    ensures r.Some?
    ensures r.Some? ==> (r.value.previous.Some? <==> IndexOf(current) > 0)
    ensures r.Some? && r.value.previous.Some? ==> r.value.previous.value == AllLessons[IndexOf(current) - 1]
    ensures r.Some? ==> (r.value.next.Some? <==> IndexOf(current) < |AllLessons| - 1)
    ensures r.Some? && r.value.next.Some? ==> r.value.next.value == AllLessons[IndexOf(current) + 1]
    ensures r.Some? ==> (r.value.previous.None? <==> current == Introduction)
    ensures r.Some? ==> (r.value.next.None? <==> current == Quiz)
  {
    var found := FirstIndex(AllLessons, current);
    assert AllLessons[IndexOf(current)] == current;
    match found
    case None => None
    case Some(index) =>
      Some(NavigationRow(
        if index > 0 then Some(AllLessons[index - 1]) else None,
        if index < |AllLessons| - 1 then Some(AllLessons[index + 1]) else None))
  }

  /**
   * `switchLesson(to:)` makes its argument the current lesson, so following
   * the next button and then the previous button returns to the start, and
   * the other way round.
   */
  lemma NextThenPrevious(current: Lesson)
    ensures var row := NavigationButtons(current).value;
      row.next.Some? ==> NavigationButtons(row.next.value).value.previous == Some(current)
    ensures var row := NavigationButtons(current).value;
      row.previous.Some? ==> NavigationButtons(row.previous.value).value.next == Some(current)
  {
    var i := IndexOf(current);
    if i < |AllLessons| - 1 {
      assert IndexOf(AllLessons[i + 1]) == i + 1;
    }
    if i > 0 {
      assert IndexOf(AllLessons[i - 1]) == i - 1;
    }
  }
}
