/**
 * A quiz answer: an object with an immutable identifier, drawn fresh for every
 * answer created, and a mutable text and correctness flag. Two answers are
 * equal exactly when their identifiers are.
 */
module Answers {

  /**
   * Stands for `UUID()`: every call hands out an identifier that was never
   * handed out before. `issued` records the identifiers given out so far.
   */
  class IdSource {
    var next: nat
    ghost var issued: set<nat>

    ghost predicate Valid()
      reads this
    {
      forall i :: i in issued ==> i < next
    }

    constructor ()
      ensures Valid() && issued == {}
    {
      next := 0;
      issued := {};
    }

    method Fresh() returns (id: nat)
      requires Valid()
      modifies this
      ensures Valid()
      ensures id !in old(issued) && issued == old(issued) + {id}
    {
      id := next;
      next := next + 1;
      issued := issued + {id};
    }
  }

  class Answer {
    const id: nat
    var text: string
    var isCorrect: bool

    /** `init(text:isCorrect:)`: stores both fields as given and draws a fresh identifier. */
    constructor (text: string, isCorrect: bool, ids: IdSource)
      requires ids.Valid()
      modifies ids
      ensures ids.Valid()
      ensures this.text == text && this.isCorrect == isCorrect
      ensures id !in old(ids.issued) && ids.issued == old(ids.issued) + {id}
    {
      var drawn := ids.Fresh();
      id := drawn;
      this.text := text;
      this.isCorrect := isCorrect;
    }
  }

  /** The `==` of answers: identifiers only, whatever the texts and flags. */
  predicate Same(lhs: Answer, rhs: Answer)
  {
    lhs.id == rhs.id
  }

  /** `==` is an equivalence relation. */
  lemma SameIsEquivalence(a: Answer, b: Answer, c: Answer)
    ensures Same(a, a)
    ensures Same(a, b) ==> Same(b, a)
    ensures Same(a, b) && Same(b, c) ==> Same(a, c)
  {
  }

  /**
   * An answer created after another one is never equal to it, even with the
   * same text and flag.
   */
  method NewAnswerDiffers(earlier: Answer, ids: IdSource) returns (later: Answer)
    requires ids.Valid() && earlier.id in ids.issued
    modifies ids
    ensures ids.Valid() && fresh(later)
    ensures later.text == earlier.text && later.isCorrect == earlier.isCorrect
    ensures !Same(earlier, later)
  {
    later := new Answer(earlier.text, earlier.isCorrect, ids);
  }
}
