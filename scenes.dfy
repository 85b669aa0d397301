/** The scene controller of `src/App.tsx`: five sections, one shown at a time. */
module Scenes {

  datatype Section = Landing | Memory | Wishes | Game | Letter

  /** The sections in the order the page renders their guards. */
  const Order: seq<Section> := [Landing, Memory, Wishes, Game, Letter]

  /** Which of the five guarded blocks render, in `Order`: `currentSection === '<name>' && ...`. */
  function Rendered(current: Section): (r: seq<bool>)
    ensures |r| == |Order|
    ensures exists i :: 0 <= i < |r| && r[i] && Order[i] == current
    ensures forall i, j :: 0 <= i < j < |r| ==> !(r[i] && r[j])
  {
    var r := [current == Landing, current == Memory, current == Wishes, current == Game, current == Letter];
    assert r[Position(current)] && Order[Position(current)] == current;
    r
  }

  /** The index of `s` in `Order`. */
  function Position(s: Section): nat {
    match s
    case Landing => 0
    case Memory => 1
    case Wishes => 2
    case Game => 3
    case Letter => 4
  }

  /**
   * Where each section's own control leads: landing's enter action, the memory and
   * wishes buttons, the riddle's completion callback, and the letter's button.
   */
  function Successor(s: Section): Section {
    match s
    case Landing => Memory
    case Memory => Wishes
    case Wishes => Game
    case Game => Letter
    case Letter => Landing
  }

  /** The section reached from `s` after following `n` controls. */
  function Follow(s: Section, n: nat): Section {
    if n == 0 then s else Successor(Follow(s, n - 1))
  }

  /** Following the controls from landing visits every section once before returning. */
  lemma CycleFromLanding()
    ensures [Follow(Landing, 0), Follow(Landing, 1), Follow(Landing, 2), Follow(Landing, 3), Follow(Landing, 4)] == Order
    ensures Follow(Landing, 5) == Landing
  {
  }

  /** Every five transitions bring any section back to itself. */
  lemma {:induction false} FollowPeriodic(s: Section, n: nat)
    ensures Follow(s, n + 5) == Follow(s, n)
  {
    if n == 0 {
      assert Follow(s, 5) == Successor(Successor(Successor(Successor(Successor(s)))));
    } else {
      FollowPeriodic(s, n - 1);
    }
  }

  /** The page's root component and its one piece of state. */
  class App {
    var currentSection: Section

    constructor ()
      ensures currentSection == Landing
    {
      currentSection := Landing;
    }

    /** `handleNext`: switch to the target, whatever section is showing. */
    method HandleNext(next: Section)
      modifies this
      ensures currentSection == next
    {
      currentSection := next;
    }

    /** The showing section's own control fires. */
    method Advance()
      modifies this
      ensures currentSection == Successor(old(currentSection))
    {
      HandleNext(Successor(currentSection));
    }
  }
}
