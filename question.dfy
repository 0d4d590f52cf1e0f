/**
 * The three quiz questions: a closed enumeration with an identifier, a prompt
 * and three answers each, exactly one of them correct.
 */
module Questions {
  import opened Answers

  datatype Question = First | Second | Third

  /** `Question.allCases`, in declaration order. */
  const AllQuestions: seq<Question> := [First, Second, Third]

  /** `id`: the raw value, the case's own name. */
  function Id(q: Question): string
  {
    match q
    case First => "first"
    case Second => "second"
    case Third => "third"
  }

  /** `text`: the question's prompt. */
  function Text(q: Question): string
  {
    match q
    case First => "In what situation do your eyes need to often change focus?"
    case Second => "What's it called if your eyes feel tired and strained?"
    case Third => "What coordination is essential for many daily activities?"
  }

  /** The text and correctness flag of one answer, before an `Answer` object is made of it. */
  datatype AnswerContent = AnswerContent(text: string, isCorrect: bool)

  /** The content of `answers`, in order. */
  function AnswerTable(q: Question): seq<AnswerContent>
  {
    match q
    case First => [
      AnswerContent("While driving a car", true),
      AnswerContent("When watching TV", false),
      AnswerContent("While reading the newspaper", false)]
    case Second => [
      AnswerContent("Eye irritation", false),
      AnswerContent("Eye fatigue", true),
      AnswerContent("Eye strain", false)]
    case Third => [
      AnswerContent("Ear-hand coordination", false),
      AnswerContent("Eye-ear coordination", false),
      AnswerContent("Eye-hand coordination", true)]
  }

  /** The position of the correct answer of each question. */
  function CorrectIndex(q: Question): nat
  {
    match q
    case First => 0
    case Second => 1
    case Third => 2
  }

  /**
   * `answers`: every access builds three new `Answer` objects, with fresh
   * identifiers, from the table.
   */
  method MakeAnswers(q: Question, ids: IdSource) returns (r: seq<Answer>)
    requires ids.Valid()
    modifies ids
    ensures ids.Valid()
    ensures |r| == |AnswerTable(q)|
    ensures forall i :: 0 <= i < |r| ==>
      fresh(r[i]) && r[i].text == AnswerTable(q)[i].text && r[i].isCorrect == AnswerTable(q)[i].isCorrect
    ensures forall i :: 0 <= i < |r| ==> r[i].id !in old(ids.issued) && r[i].id in ids.issued
    ensures forall i, j :: 0 <= i < j < |r| ==> !Same(r[i], r[j])
  {
    var table := AnswerTable(q);
    var a0 := new Answer(table[0].text, table[0].isCorrect, ids);
    var a1 := new Answer(table[1].text, table[1].isCorrect, ids);
    var a2 := new Answer(table[2].text, table[2].isCorrect, ids);
    r := [a0, a1, a2];
  }

  // ----- Content facts the quiz relies on -----

  /** There are three questions, each listed once, with their case names as identifiers, all distinct. */
  lemma QuestionOrder()
    ensures |AllQuestions| == 3
    ensures forall q :: q in AllQuestions
    ensures forall i, j :: 0 <= i < j < |AllQuestions| ==> AllQuestions[i] != AllQuestions[j]
    ensures Id(First) == "first" && Id(Second) == "second" && Id(Third) == "third"
    ensures forall q, r :: Id(q) == Id(r) ==> q == r
  {
    forall q
      ensures q in AllQuestions
    {
      match q
      case First => assert AllQuestions[0] == q;
      case Second => assert AllQuestions[1] == q;
      case Third => assert AllQuestions[2] == q;
    }
  }

  /** No two questions share a prompt. */
  lemma QuestionTextsDistinct(q: Question, r: Question)
    ensures Text(q) == Text(r) <==> q == r
  {
    if q != r {
      assert Text(q)[0..4] != Text(r)[0..4] || |Text(q)| != |Text(r)|;
    }
  }

  /** Every question has three answers, and exactly the one at `CorrectIndex` is flagged correct. */
  lemma OneCorrectAnswer(q: Question)
    ensures |AnswerTable(q)| == 3
    ensures forall i :: 0 <= i < 3 ==> (AnswerTable(q)[i].isCorrect <==> i == CorrectIndex(q))
  {
  }

  /**
   * Within a question no two answers share a text, so matching an answer by
   * its text picks the same answer as matching by position, and an answer's
   * text equals the correct answer's text exactly when the answer is correct.
   */
  lemma AnswerTextsDistinct(q: Question)
    ensures forall i, j :: 0 <= i < 3 && 0 <= j < 3 ==>
      (AnswerTable(q)[i].text == AnswerTable(q)[j].text <==> i == j)
    ensures forall i :: 0 <= i < 3 ==>
      (AnswerTable(q)[i].text == AnswerTable(q)[CorrectIndex(q)].text <==> AnswerTable(q)[i].isCorrect)
  {
    var t := AnswerTable(q);
    assert t[0].text[1] != t[2].text[1] || |t[0].text| != |t[2].text|;
    assert t[0].text[1] != t[1].text[1] || |t[0].text| != |t[1].text|;
    assert t[1].text[1] != t[2].text[1] || t[1].text[4] != t[2].text[4] || |t[1].text| != |t[2].text|;
  }

  /**
   * Two reads of `answers` never produce `==` answers, though their texts
   * match position by position: this is why the quiz matches answers by text.
   */
  method ReadAnswersTwice(q: Question, ids: IdSource) returns (shown: seq<Answer>, checked: seq<Answer>)
    requires ids.Valid()
    modifies ids
    ensures ids.Valid()
    ensures |shown| == |checked| == 3
    ensures forall i, j :: 0 <= i < 3 && 0 <= j < 3 ==> !Same(shown[i], checked[j])
    ensures forall i, j :: 0 <= i < 3 && 0 <= j < 3 ==> (shown[i].text == checked[j].text <==> i == j)
  {
    shown := MakeAnswers(q, ids);
    checked := MakeAnswers(q, ids);
    AnswerTextsDistinct(q);
  }
}
