/**
 * The three-step game of `src/components/SecretGame.tsx`: find the heart, unscramble
 * the name, pick the date. Delayed callbacks are queued and fired by the caller in
 * the order they were scheduled.
 */
module Secret {
  import opened Options
  import opened Text
  import opened Storage

  const CorrectWord: string := "SNEHA"
  const ScrambledLetters: seq<char> := ['A', 'N', 'H', 'E', 'S']
  const BalloonNumbers: seq<int> := [12, 15, 17, 19, 21, 24]
  const WinningDate: int := 17
  const FinalStep: int := 3

  /** A callback waiting on a timer: `setStep(target)`, or the parent's completion callback. */
  datatype Delayed = AdvanceTo(target: int) | FinishGame

  /** `checkWord`'s test: the input upper-cased, untrimmed, equals the name. */
  predicate WordAccepted(w: string): (r: bool)
    ensures r ==> |w| == |CorrectWord|
  {
    ToUpper(w) == CorrectWord
  }

  /** The name is accepted in any mix of cases and in no other form; it always has five characters. */
  lemma WordAcceptedIff(w: string)
    ensures WordAccepted(w) <==>
      |w| == 5 && forall i :: 0 <= i < 5 ==> w[i] == CorrectWord[i] || w[i] == LowerChar(CorrectWord[i])
  {
    UpperMatchIff(w, CorrectWord);
  }

  /** A padded name is refused, although trimming would have made it match. */
  lemma PaddedWordRefused(w: string)
    requires w == " sneha"
    ensures !WordAccepted(w)
  {
    WordAcceptedIff(w);
  }

  /** The winning date is one of the balloons on offer, so the game can be completed. */
  lemma WinningDateOffered()
    ensures WinningDate in BalloonNumbers
  {
    assert BalloonNumbers[2] == WinningDate;
  }

  /** The letters on screen are a rearrangement of the name. */
  lemma ScrambleIsPermutation()
    ensures multiset(ScrambledLetters) == multiset(CorrectWord)
  {
    assert ScrambledLetters == [CorrectWord[4], CorrectWord[1], CorrectWord[3], CorrectWord[2], CorrectWord[0]];
  }

  /**
   * Queued step changes never lead backwards: each targets at least the current step,
   * only step 2 is queued while at step 1, and later ones target no lower step.
   */
  ghost predicate QueueOrdered(step: int, pending: seq<Delayed>) {
    && (forall i :: 0 <= i < |pending| && pending[i].AdvanceTo? ==>
          step <= pending[i].target <= FinalStep && (step == 1 ==> pending[i].target == 2))
    && (forall i, j :: 0 <= i < j < |pending| && pending[i].AdvanceTo? && pending[j].AdvanceTo? ==>
          pending[i].target <= pending[j].target)
  }

  class SecretGame {
    var step: int
    var heartFound: bool
    var wordInput: string
    var dateSelected: Option<int>
    var isComplete: bool
    var pending: seq<Delayed>

    ghost predicate Valid()
      reads this
    {
      1 <= step <= FinalStep && QueueOrdered(step, pending)
    }

    /** Mounting: the initial state, then the progress load (`completedStep === 3` marks it complete). */
    constructor (store: Store)
      requires WellTyped(store.entries)
      ensures Valid()
      ensures step == 1 && !heartFound && wordInput == "" && dateSelected == None && pending == []
      ensures isComplete <==> GetPuzzleProgress(store.entries) == FinalStep
    {
      step, heartFound, wordInput, dateSelected, isComplete, pending := 1, false, "", None, false, [];
      if PuzzleProgressKey in store.entries {
        var completedStep := store.entries[PuzzleProgressKey].completedStep;
        if completedStep == FinalStep {
          isComplete := true;
        }
      }
    }

    /** `handleHeartClick`; the heart is on screen only at step 1. */
    method HandleHeartClick()
      requires Valid() && step == 1
      modifies this
      ensures Valid()
      ensures heartFound && pending == old(pending) + [AdvanceTo(2)]
      ensures step == old(step) && wordInput == old(wordInput)
      ensures dateSelected == old(dateSelected) && isComplete == old(isComplete)
    {
      heartFound := true;
      pending := pending + [AdvanceTo(2)];
    }

    /** The word input's change handler. */
    method SetWordInput(text: string)
      modifies this
      ensures wordInput == text
      ensures step == old(step) && heartFound == old(heartFound) && pending == old(pending)
      ensures dateSelected == old(dateSelected) && isComplete == old(isComplete)
    {
      wordInput := text;
    }

    /**
     * `checkWord`, from the button or from Enter; the word input is on screen only at step 2.
     * Only the name schedules the move to step 3; anything else changes nothing.
     */
    method CheckWord()
      requires Valid() && step == 2
      modifies this
      ensures Valid()
      ensures pending == if WordAccepted(old(wordInput)) then old(pending) + [AdvanceTo(3)] else old(pending)
      ensures step == old(step) && heartFound == old(heartFound) && wordInput == old(wordInput)
      ensures dateSelected == old(dateSelected) && isComplete == old(isComplete)
    {
      if ToUpper(wordInput) == CorrectWord {
        pending := pending + [AdvanceTo(3)];
      }
    }

    /**
     * The check button is enabled only for five-character input, which never blocks
     * an accepted word. (Enter calls `CheckWord`, which has no length condition.)
     */
    function CheckEnabled(): (r: bool)
      reads this
      ensures r <==> |wordInput| == 5
      ensures WordAccepted(wordInput) ==> r
    {
      WordAcceptedIff(wordInput);
      |wordInput| == 5
    }

    /**
     * `handleDateSelect`; the balloons are on screen only at step 3. Any number is
     * remembered; only the winning date completes the game and persists the progress.
     */
    method HandleDateSelect(num: int, store: Store)
      requires Valid() && step == FinalStep
      requires WellTyped(store.entries)
      modifies this, store
      ensures Valid() && WellTyped(store.entries)
      ensures dateSelected == Some(num)
      ensures num == WinningDate ==>
        && isComplete && pending == old(pending) + [FinishGame]
        && store.entries == AfterSavePuzzleProgress(old(store.entries), FinalStep)
      ensures num != WinningDate ==>
        && isComplete == old(isComplete) && pending == old(pending)
        && store.entries == old(store.entries)
      ensures step == old(step) && heartFound == old(heartFound) && wordInput == old(wordInput)
    {
      dateSelected := Some(num);
      if num == WinningDate {
        isComplete := true;
        store.SetItem(PuzzleProgressKey, StepRecord(FinalStep));
        pending := pending + [FinishGame];
      }
    }

    /**
     * The earliest pending timer fires. A step change moves forward or stays; the
     * finishing callback reports `completed`, on which the parent moves on.
     */
    method FireTimer() returns (completed: bool)
      requires Valid() && pending != []
      modifies this
      ensures Valid()
      ensures pending == old(pending)[1..]
      ensures old(step) <= step
      ensures step == if old(pending)[0].AdvanceTo? then old(pending)[0].target else old(step)
      ensures completed <==> old(pending)[0].FinishGame?
      ensures heartFound == old(heartFound) && wordInput == old(wordInput)
      ensures dateSelected == old(dateSelected) && isComplete == old(isComplete)
    {
      var next := pending[0];
      pending := pending[1..];
      completed := false;
      match next
      case AdvanceTo(target) =>
        step := target;
      case FinishGame =>
        completed := true;
    }
  }

  /** The whole game played through: heart, name, date, then the three callbacks. */
  method PlayThrough(store: Store) returns (game: SecretGame)
    requires WellTyped(store.entries)
    modifies store
    ensures game.step == FinalStep && game.isComplete && game.dateSelected == Some(WinningDate)
    ensures WellTyped(store.entries) && GetPuzzleProgress(store.entries) == FinalStep
  {
    game := new SecretGame(store);
    game.HandleHeartClick();
    var done := game.FireTimer();
    game.SetWordInput("sneha");
    WordAcceptedIff("sneha");
    game.CheckWord();
    done := game.FireTimer();
    WinningDateOffered();
    game.HandleDateSelect(WinningDate, store);
    done := game.FireTimer();
    assert done;
  }
}
