/**
 * The personal letter of `src/components/PersonalLetter.tsx`: a typewriter that
 * reveals the letter one character per tick, then three extra sections browsed
 * with Previous and Next.
 */
module Letter {

  const FullText: string :=
    "Sneha, tera smile aur woh choti choti baatein hi meri favourite playlist hain. "
    + "Aaj tera din hai \U{2014} have the happiest birthday ever! \U{1F389}"

  datatype SectionCard = SectionCard(title: string, content: string)

  const AdditionalSections: seq<SectionCard> := [
    SectionCard("Memories That Matter",
      "Woh coffee dates, late night talks, aur endless laughter - har moment special tha tere saath."),
    SectionCard("Your Vibe",
      "Teri energy infectious hai, aur tera positive attitude sabko inspire karta hai."),
    SectionCard("Today's Wish",
      "May this new year bring you endless happiness, success, aur sabse important - lots of cake! \U{1F382}")
  ]

  predicate InRange(i: int) {
    0 <= i < |AdditionalSections|
  }

  /** `nextSection`: one step forward unless already at the last section. */
  function NextIndex(i: int): (r: int)
    requires InRange(i)
    ensures InRange(r)
    ensures r == i + 1 <==> i < |AdditionalSections| - 1
    ensures r == i <==> i == |AdditionalSections| - 1
  {
    if i < |AdditionalSections| - 1 then i + 1 else i
  }

  /** `prevSection`: one step back unless already at the first section. */
  function PrevIndex(i: int): (r: int)
    requires InRange(i)
    ensures InRange(r)
    ensures r == i - 1 <==> i > 0
    ensures r == i <==> i == 0
  {
    if i > 0 then i - 1 else i
  }

  /** The Previous button is disabled exactly where pressing it would change nothing. */
  function PrevDisabled(i: int): (r: bool)
    requires InRange(i)
    ensures r <==> PrevIndex(i) == i
  {
    i == 0
  }

  /** The Next button is disabled exactly where pressing it would change nothing. */
  function NextDisabled(i: int): (r: bool)
    requires InRange(i)
    ensures r <==> NextIndex(i) == i
  {
    i == |AdditionalSections| - 1
  }

  /** Next then Previous, or Previous then Next, comes back wherever the first press moved. */
  lemma NavigationRoundTrip(i: int)
    requires InRange(i)
    ensures i < |AdditionalSections| - 1 ==> PrevIndex(NextIndex(i)) == i
    ensures i > 0 ==> NextIndex(PrevIndex(i)) == i
  {
  }

  /** Pressing Next `n` times from the first section. */
  function NextTimes(n: nat): (r: int)
    ensures InRange(r)
  {
    if n == 0 then 0 else NextIndex(NextTimes(n - 1))
  }

  /** Next presses stop at the last section. */
  lemma {:induction false} NextTimesSaturates(n: nat)
    ensures NextTimes(n) == if n < |AdditionalSections| then n else |AdditionalSections| - 1
  {
    if n > 0 {
      NextTimesSaturates(n - 1);
    }
  }

  /** The text on screen when the interval's counter is `index`. */
  function Displayed(index: nat): (r: string)
    requires index <= |FullText| + 1
    ensures r <= FullText
    ensures |r| == if index == 0 then 0 else index - 1
  {
    if index == 0 then "" else FullText[..index - 1]
  }

  class PersonalLetter {
    var displayedText: string
    var showHeart: bool
    var showAdditionalContent: bool
    var currentSection: int
    /** The interval's counter, the next prefix length to show. */
    var index: nat
    /** Whether the typewriter interval is still running. */
    var ticking: bool
    /** Whether the timer that reveals the extra sections is pending. */
    var revealPending: bool

    ghost predicate Valid()
      reads this
    {
      && InRange(currentSection)
      && index <= |FullText| + 1
      && displayedText == Displayed(index)
      && (ticking ==> !showHeart && !revealPending && !showAdditionalContent)
      && (!ticking ==> index == |FullText| + 1 && showHeart)
    }

    /** Mounting: nothing typed yet, the interval started, the first section selected. */
    constructor ()
      ensures Valid()
      ensures displayedText == "" && index == 0 && ticking && currentSection == 0
      ensures !showHeart && !showAdditionalContent && !revealPending
    {
      displayedText, showHeart, showAdditionalContent := "", false, false;
      currentSection, index, ticking, revealPending := 0, 0, true, false;
    }

    /**
     * One interval tick: while the counter is within the text, show that prefix and
     * count up; after that, stop, show the heart and schedule the extra sections.
     */
    method Tick()
      requires Valid() && ticking
      modifies this
      ensures Valid()
      ensures old(index) <= |FullText| ==>
        && displayedText == FullText[..old(index)] && index == old(index) + 1 && ticking
      ensures old(index) > |FullText| ==>
        && displayedText == FullText && !ticking && showHeart && revealPending
      ensures showAdditionalContent == old(showAdditionalContent)
      ensures currentSection == old(currentSection)
    {
      if index <= |FullText| {
        displayedText := FullText[..index];
        index := index + 1;
      } else {
        ticking := false;
        showHeart := true;
        revealPending := true;
      }
    }

    /** The interval runs to its end: the whole letter is on screen and the heart shows. */
    method RunTypewriter()
      requires Valid()
      modifies this
      ensures Valid()
      ensures displayedText == FullText && showHeart && !ticking
      ensures old(ticking) ==> revealPending && !showAdditionalContent
      ensures !old(ticking) ==>
        revealPending == old(revealPending) && showAdditionalContent == old(showAdditionalContent)
      ensures currentSection == old(currentSection)
    {
      while ticking
        invariant Valid()
        invariant currentSection == old(currentSection)
        invariant old(ticking) && !ticking ==> revealPending && !showAdditionalContent
        invariant !old(ticking) ==>
          revealPending == old(revealPending) && showAdditionalContent == old(showAdditionalContent)
        decreases |FullText| + 1 - index + (if ticking then 1 else 0)
      {
        Tick();
      }
    }

    /** The reveal timer fires. */
    method RevealTimerFires()
      requires Valid() && revealPending
      modifies this
      ensures Valid()
      ensures showAdditionalContent && !revealPending
      ensures displayedText == old(displayedText) && currentSection == old(currentSection)
    {
      showAdditionalContent := true;
      revealPending := false;
    }

    method NextSection()
      requires Valid()
      modifies this
      ensures Valid()
      ensures currentSection == NextIndex(old(currentSection))
      ensures displayedText == old(displayedText) && index == old(index) && ticking == old(ticking)
      ensures showHeart == old(showHeart) && showAdditionalContent == old(showAdditionalContent)
      ensures revealPending == old(revealPending)
    {
      if currentSection < |AdditionalSections| - 1 {
        currentSection := currentSection + 1;
      }
    }

    method PrevSection()
      requires Valid()
      modifies this
      ensures Valid()
      ensures currentSection == PrevIndex(old(currentSection))
      ensures displayedText == old(displayedText) && index == old(index) && ticking == old(ticking)
      ensures showHeart == old(showHeart) && showAdditionalContent == old(showAdditionalContent)
      ensures revealPending == old(revealPending)
    {
      if currentSection > 0 {
        currentSection := currentSection - 1;
      }
    }
  }
}
