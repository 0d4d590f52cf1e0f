/**
 * The five lessons of the tutorial, in order, with their identifiers,
 * captions and content. The content of a lesson is a list of elements (plain
 * text, title, list item, exercise description), each with a flag for extra
 * space above it; the texts themselves are not modelled.
 */
module Lessons {

  datatype Lesson = Introduction | First | Second | Third | Quiz

  /** `Lesson.allCases`, in declaration order. */
  const AllLessons: seq<Lesson> := [Introduction, First, Second, Third, Quiz]

  /** `id`: the raw value, the case's own name. */
  function Id(l: Lesson): string
  {
    match l
    case Introduction => "introduction"
    case First => "first"
    case Second => "second"
    case Third => "third"
    case Quiz => "quiz"
  }

  /** `caption`: the short name on the navigation buttons. */
  function Caption(l: Lesson): string
  {
    match l
    case Introduction => "Introduction"
    case First => "Lesson 1"
    case Second => "Lesson 2"
    case Third => "Lesson 3"
    case Quiz => "Quiz"
  }

  /** The four kinds of lesson element. */
  datatype ElementKind = LessonText | LessonTitle | LessonListItem | LessonExerciseDescription

  /** A lesson element: its kind and whether it has top padding (false unless given). */
  datatype Element = Element(kind: ElementKind, paddingTop: bool)

  /** `elements`: the content of each lesson, element by element. */
  function Elements(l: Lesson): seq<Element>
  {
    match l
    case Introduction => [
      Element(LessonText, false),
      Element(LessonTitle, true),
      Element(LessonListItem, false),
      Element(LessonExerciseDescription, true),
      Element(LessonTitle, true),
      Element(LessonText, false)]
    case First => [
      Element(LessonText, false),
      Element(LessonText, true),
      Element(LessonExerciseDescription, true),
      Element(LessonTitle, true),
      Element(LessonListItem, false),
      Element(LessonListItem, false)]
    case Second => [
      Element(LessonText, false),
      Element(LessonListItem, false),
      Element(LessonListItem, false),
      Element(LessonListItem, false),
      Element(LessonText, true),
      Element(LessonExerciseDescription, true),
      Element(LessonTitle, true),
      Element(LessonText, false),
      Element(LessonListItem, false),
      Element(LessonListItem, false)]
    case Third => [
      Element(LessonText, false),
      Element(LessonTitle, true),
      Element(LessonText, false),
      Element(LessonListItem, false),
      Element(LessonListItem, false),
      Element(LessonListItem, false),
      Element(LessonExerciseDescription, true)]
    case Quiz => [
      Element(LessonText, false),
      Element(LessonExerciseDescription, true),
      Element(LessonText, true)]
  }

  /** The position of a lesson in `AllLessons`. */
  function IndexOf(l: Lesson): (i: nat)
    ensures i < |AllLessons| && AllLessons[i] == l
    ensures forall j :: 0 <= j < |AllLessons| && AllLessons[j] == l ==> j == i
  {
    match l
    case Introduction => 0
    case First => 1
    case Second => 2
    case Third => 3
    case Quiz => 4
  }

  /** How many elements of `es` are of kind `k`. */
  function CountKind(es: seq<Element>, k: ElementKind): nat
  {
    if |es| == 0 then 0 else (if es[0].kind == k then 1 else 0) + CountKind(es[1..], k)
  }

  // ----- Content facts -----

  /** Five lessons, each listed once, with their case names as identifiers, all distinct. */
  lemma LessonOrder()
    ensures |AllLessons| == 5
    ensures forall l :: l in AllLessons
    ensures forall i, j :: 0 <= i < j < |AllLessons| ==> AllLessons[i] != AllLessons[j]
    ensures forall l, m :: Id(l) == Id(m) ==> l == m
  {
    forall l
      ensures l in AllLessons
    {
      assert AllLessons[IndexOf(l)] == l;
    }
  }

  /** The captions are "Introduction", "Lesson 1" to "Lesson 3" and "Quiz", and no two are equal. */
  lemma CaptionsDistinct(l: Lesson, m: Lesson)
    ensures Caption(l) == Caption(m) <==> l == m
  {
    if l != m && |Caption(l)| == |Caption(m)| {
      assert Caption(l)[7] != Caption(m)[7];
    }
  }

  /** The lessons have 6, 6, 10, 7 and 3 elements. */
  lemma ElementCounts()
    ensures |Elements(Introduction)| == 6 && |Elements(First)| == 6 && |Elements(Second)| == 10
    ensures |Elements(Third)| == 7 && |Elements(Quiz)| == 3
  {
  }

  lemma {:induction false} CountKindAppend(a: seq<Element>, b: seq<Element>, k: ElementKind)
    ensures CountKind(a + b, k) == CountKind(a, k) + CountKind(b, k)
  {
    if |a| > 0 {
      assert (a + b)[1..] == a[1..] + b;
      CountKindAppend(a[1..], b, k);
    } else {
      assert a + b == b;
    }
  }

  /** `CountKind` when `k` occurs only at position `p`. */
  lemma {:induction false} CountKindOnlyAt(es: seq<Element>, k: ElementKind, p: nat)
    requires p < |es| && es[p].kind == k
    requires forall i :: 0 <= i < |es| && i != p ==> es[i].kind != k
    ensures CountKind(es, k) == 1
  {
    assert es == es[..p] + es[p..];
    CountKindAppend(es[..p], es[p..], k);
    assert es[p..] == [es[p]] + es[p + 1..];
    CountKindAppend([es[p]], es[p + 1..], k);
    assert CountKind([es[p]], k) == 1 + CountKind([], k);
    CountKindNone(es[..p], k);
    CountKindNone(es[p + 1..], k);
  }

  lemma {:induction false} CountKindNone(es: seq<Element>, k: ElementKind)
    requires forall i :: 0 <= i < |es| ==> es[i].kind != k
    ensures CountKind(es, k) == 0
  {
    if |es| > 0 {
      CountKindNone(es[1..], k);
    }
  }

  /** Every lesson holds exactly one exercise description, the text that introduces its exercise. */
  lemma OneExerciseDescription(l: Lesson)
    ensures CountKind(Elements(l), LessonExerciseDescription) == 1
  {
    var p := match l
      case Introduction => 3
      case First => 2
      case Second => 5
      case Third => 6
      case Quiz => 1;
    CountKindOnlyAt(Elements(l), LessonExerciseDescription, p);
  }

  /** Every lesson opens with a plain text element without top padding. */
  lemma StartsWithPlainText(l: Lesson)
    ensures |Elements(l)| > 0 && Elements(l)[0] == Element(LessonText, false)
  {
  }

  /** Every title and every exercise description has top padding. */
  lemma TitlesAndDescriptionsPadded(l: Lesson)
    ensures forall i :: 0 <= i < |Elements(l)| ==>
      (Elements(l)[i].kind == LessonTitle || Elements(l)[i].kind == LessonExerciseDescription) ==>
        Elements(l)[i].paddingTop
  {
  }
}
