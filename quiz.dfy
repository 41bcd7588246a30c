/** The revival quiz: four fixed questions, answered with the keys A to D. */
module Quiz {
  import opened Input

  /** The expected option label of each question, in the order they are asked. */
  const Answers: seq<string> := ["B", "D", "B", "D"]

  /** The label a key gives as an answer; a key other than A to D answers "null". */
  function Label(k: Key): string
  {
    match k
    case A => "A"
    case B => "B"
    case C => "C"
    case D => "D"
    case _ => "null"
  }

  predicate IsCorrect(index: nat, k: Key)
    requires index < |Answers|
  {
    Label(k) == Answers[index]
  }

  /** Exactly one key answers each question: B for the first and third, D for the second and fourth. */
  lemma CorrectKey(index: nat, k: Key)
    requires index < |Answers|
    ensures IsCorrect(index, k) <==> k == (if index % 2 == 0 then B else D)
  {
  }
}
