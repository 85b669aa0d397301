/** The riddle gate of `src/components/PuzzleGame.tsx`. */
module Riddle {
  import opened Options
  import opened Text

  const Answer: string := "candles"
  const Hints: seq<string> := [
    "They go on top of something sweet!",
    "You make a wish when you blow them out",
    "They help celebrate another year!"
  ]

  /**
   * The guess as the handler compares it: lower-cased, then trimmed. The result is
   * the slice of the lower-cased guess left once the white space at both ends is
   * removed; it is empty exactly when the guess is all white space, and no ASCII
   * capital remains in it.
   */
  function Normalize(guess: string): (r: string)
    ensures exists lo :: StripsSpacesAt(ToLower(guess), r, lo)
    ensures r != [] ==> !IsSpace(r[0]) && !IsSpace(r[|r| - 1])
    ensures r == [] <==> AllSpace(guess)
    ensures forall i :: 0 <= i < |r| ==> !IsUpperLetter(r[i])
    ensures |r| <= |guess|
  {
    var lowered := ToLower(guess);
    var r := Trim(lowered);
    var lo :| StripsSpacesAt(lowered, r, lo);
    assert forall i :: 0 <= i < |r| ==> r[i] == lowered[lo + i];
    ToLowerKeepsSpaces(guess);
    r
  }

  /** The handler's test: the normalised guess equals, or includes, the lower-cased answer. */
  predicate IsCorrect(guess: string): (r: bool)
    ensures r ==> |Answer| <= |Normalize(guess)|
  {
    var answer := Normalize(guess);
    var correctAnswer := ToLower(Answer);
    answer == correctAnswer || Contains(answer, correctAnswer)
  }

  /** The equality test is subsumed: a guess is accepted iff "candles" occurs in its normalised form. */
  lemma CorrectIffContainsAnswer(guess: string)
    ensures IsCorrect(guess) <==> exists i :: OccursAt(Normalize(guess), Answer, i)
  {
    var answer := Normalize(guess);
    assert ToLower(Answer) == Answer;
    ContainsIff(answer, Answer);
    if answer == Answer {
      assert OccursAt(answer, Answer, 0);
    }
  }

  /** An exact answer is accepted. */
  lemma AcceptsExactAnswer(guess: string)
    requires guess == "candles"
    ensures IsCorrect(guess)
  {
    ToLowerFixed(guess);
    TrimmedIsFixed(guess);
  }

  /** Capitals and trailing white space do not matter. */
  lemma AcceptsCapitalisedPadded(guess: string)
    requires guess == "Candles "
    ensures IsCorrect(guess)
  {
    var word := "candles";
    assert ToLower(guess) == word + [' '] by {
      assert forall i :: 0 <= i < |guess| ==> ToLower(guess)[i] == (word + [' '])[i];
    }
    TrimDropsTrailingSpace(word, ' ');
    ToLowerFixed(word);
  }

  /** The loose match: the answer inside a sentence is accepted. */
  lemma AcceptsAnswerInSentence(guess: string)
    requires guess == "the candles are lit"
    ensures IsCorrect(guess)
  {
    SentenceIsNormal(guess);
    SentenceHoldsAnswer(guess);
    CorrectIffContainsAnswer(guess);
  }

  lemma SentenceIsNormal(guess: string)
    requires guess == "the candles are lit"
    ensures Normalize(guess) == guess
  {
    ToLowerFixed(guess);
    TrimmedIsFixed(guess);
  }

  lemma SentenceHoldsAnswer(guess: string)
    requires guess == "the candles are lit"
    ensures OccursAt(guess, Answer, 4)
  {
    assert guess[4..11] == Answer;
  }

  /** A guess too short to hold the answer is refused. */
  lemma RefusesCake(guess: string)
    requires guess == "cake"
    ensures !IsCorrect(guess)
  {
    ToLowerFixed(guess);
    TrimmedIsFixed(guess);
    CorrectIffContainsAnswer(guess);
  }

  function Min(a: int, b: int): int {
    if a < b then a else b
  }

  /** The hint index after `wrong` wrong guesses: bumped from the second wrong guess on, capped at the last hint. */
  function HintIndexAfter(wrong: nat): nat {
    if wrong <= 1 then 0 else Min(wrong - 1, |Hints| - 1)
  }

  /** Once hints show, the index is at least 1 and never past the last hint. */
  lemma HintIndexBounds(wrong: nat)
    ensures HintIndexAfter(wrong) < |Hints|
    ensures wrong >= 2 ==> 1 <= HintIndexAfter(wrong)
  {
  }

  /** The riddle component's state; a fresh one is built each time the game section is entered. */
  class RiddleGame {
    var userAnswer: string
    var isCorrect: bool
    var showHint: bool
    var attempts: nat
    var hintIndex: nat

    /** The hint fields are determined by the number of wrong guesses. */
    ghost predicate Valid()
      reads this
    {
      && (showHint <==> attempts >= 2)
      && hintIndex == HintIndexAfter(attempts)
    }

    constructor ()
      ensures Valid()
      ensures userAnswer == "" && !isCorrect && !showHint && attempts == 0 && hintIndex == 0
    {
      userAnswer, isCorrect, showHint, attempts, hintIndex := "", false, false, 0, 0;
    }

    /** The input's change handler. */
    method SetUserAnswer(text: string)
      modifies this
      ensures userAnswer == text
      ensures isCorrect == old(isCorrect) && showHint == old(showHint)
      ensures attempts == old(attempts) && hintIndex == old(hintIndex)
    {
      userAnswer := text;
    }

    /**
     * `handleSubmit` (button or Enter). Returns whether the guess was accepted, in which
     * case the caller fires the completion callback once its delay has passed.
     */
    method HandleSubmit() returns (correct: bool)
      requires Valid()
      modifies this
      ensures Valid()
      ensures correct == IsCorrect(old(userAnswer))
      ensures correct ==>
        && isCorrect && userAnswer == old(userAnswer)
        && attempts == old(attempts) && showHint == old(showHint) && hintIndex == old(hintIndex)
      ensures !correct ==>
        && isCorrect == old(isCorrect) && userAnswer == ""
        && attempts == old(attempts) + 1
        && showHint == (old(showHint) || old(attempts) >= 1)
        && hintIndex == (if old(attempts) >= 1 then Min(old(hintIndex) + 1, |Hints| - 1) else old(hintIndex))
    {
      var answer := ToLower(userAnswer);
      answer := Trim(answer);
      var correctAnswer := ToLower(Answer);
      correct := answer == correctAnswer || Contains(answer, correctAnswer);
      if correct {
        isCorrect := true;
      } else {
        var before := attempts;
        attempts := before + 1;
        if before >= 1 {
          showHint := true;
          hintIndex := Min(hintIndex + 1, |Hints| - 1);
        }
        userAnswer := "";
      }
    }

    /** The hint block: shown only from the second wrong guess on, and never the first hint. */
    function DisplayedHint(): (r: Option<string>)
      reads this
      requires Valid()
      ensures r.Some? <==> attempts >= 2
      ensures r.Some? ==> r.value == Hints[HintIndexAfter(attempts)] && r.value != Hints[0]
    {
      if showHint then Some(Hints[hintIndex]) else None
    }

    /** The "Try again" line: shown exactly after the first wrong guess. */
    function ShowsTryAgain(): (r: bool)
      reads this
      requires Valid()
      ensures r <==> attempts == 1
    {
      attempts > 0 && !showHint
    }
  }

  /** The page's sequence of events: two wrong guesses reveal the second hint, then "Candles " wins. */
  method SampleSession() returns (game: RiddleGame)
    ensures game.Valid() && game.isCorrect && game.attempts == 2
    ensures game.DisplayedHint() == Some(Hints[1])
  {
    game := new RiddleGame();
    game.SetUserAnswer("cake");
    RefusesCake("cake");
    AcceptsCapitalisedPadded("Candles ");
    var ok := game.HandleSubmit();
    assert !ok && game.ShowsTryAgain() && game.DisplayedHint() == None;
    game.SetUserAnswer("cake");
    ok := game.HandleSubmit();
    game.SetUserAnswer("Candles ");
    ok := game.HandleSubmit();
    assert ok;
  }
}
