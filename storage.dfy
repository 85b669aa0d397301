/**
 * The browser key-value store and the helpers of `src/utils/storage.ts`.
 * Stored values are typed instead of JSON text. Each writing helper is a method
 * that takes the shared store, specified by a function on the store's contents;
 * each reading helper is a function on those contents.
 */
module Storage {

  /** The four record keys (`STORAGE_KEYS`). */
  const WishesKey: string := "sneha-wishes"
  const PuzzleProgressKey: string := "puzzle-progress"
  const AudioMutedKey: string := "audio-muted"
  const VisitedKey: string := "has-visited"

  /** A stored value: a JSON boolean, a JSON list of strings, a `{completedStep}` record, or raw text. */
  datatype Stored =
    | Flag(b: bool)
    | StringList(items: seq<string>)
    | StepRecord(completedStep: int)
    | Raw(text: string)

  type Entries = map<string, Stored>

  /**
   * Every record the page reads holds the shape the page writes there.
   * The page parses these records without guarding against anything else.
   */
  predicate WellTyped(m: Entries) {
    && (WishesKey in m ==> m[WishesKey].StringList?)
    && (PuzzleProgressKey in m ==> m[PuzzleProgressKey].StepRecord?)
    && (AudioMutedKey in m ==> m[AudioMutedKey].Flag?)
  }

  /** `r` agrees with `m` on every key except `key`. */
  ghost predicate SameExcept(m: Entries, r: Entries, key: string) {
    && m.Keys - {key} == r.Keys - {key}
    && (forall k :: k in r && k in m && k != key ==> r[k] == m[k])
  }

  /** `getWishes`: the stored list, or the empty list when the key is absent. */
  function GetWishes(m: Entries): (r: seq<string>)
    requires WellTyped(m)
    ensures WishesKey !in m ==> r == []
    ensures WishesKey in m ==> r == m[WishesKey].items
  {
    if WishesKey in m then m[WishesKey].items else []
  }

  /** `getPuzzleProgress`: the stored step, or 0 when the key is absent. */
  function GetPuzzleProgress(m: Entries): (r: int)
    requires WellTyped(m)
    ensures PuzzleProgressKey !in m ==> r == 0
    ensures PuzzleProgressKey in m ==> r == m[PuzzleProgressKey].completedStep
  {
    if PuzzleProgressKey in m then m[PuzzleProgressKey].completedStep else 0
  }

  /** `hasVisited`: an exact comparison of the stored text with "true". */
  predicate HasVisited(m: Entries): (r: bool)
    ensures VisitedKey !in m ==> !r
    ensures r ==> m[VisitedKey].Raw? && m[VisitedKey].text == "true"
  {
    VisitedKey in m && m[VisitedKey] == Raw("true")
  }

  /** The initial mute flag of the sound hook: the stored flag, or muted when absent. */
  function GetMuted(m: Entries): (r: bool)
    requires WellTyped(m)
    ensures AudioMutedKey !in m ==> r
    ensures AudioMutedKey in m ==> r == m[AudioMutedKey].b
  {
    if AudioMutedKey in m then m[AudioMutedKey].b else true
  }

  /** The four keys are pairwise distinct. */
  lemma KeysDistinct()
    ensures WishesKey != PuzzleProgressKey && WishesKey != AudioMutedKey && WishesKey != VisitedKey
    ensures PuzzleProgressKey != AudioMutedKey && PuzzleProgressKey != VisitedKey
    ensures AudioMutedKey != VisitedKey
  {
    assert WishesKey[0] == 's' && PuzzleProgressKey[0] == 'p' && AudioMutedKey[0] == 'a' && VisitedKey[0] == 'h';
  }

  /** An empty store answers every getter with its default. */
  lemma EmptyStoreDefaults()
    ensures WellTyped(map[])
    ensures GetWishes(map[]) == [] && GetPuzzleProgress(map[]) == 0
    ensures !HasVisited(map[]) && GetMuted(map[])
  {
  }

  /** The store after `saveWish(w)`. */
  function AfterSaveWish(m: Entries, w: string): (r: Entries)
    requires WellTyped(m)
    ensures WellTyped(r) && SameExcept(m, r, WishesKey)
    ensures GetWishes(r) == GetWishes(m) + [w]
    ensures GetPuzzleProgress(r) == GetPuzzleProgress(m)
    ensures HasVisited(r) == HasVisited(m) && GetMuted(r) == GetMuted(m)
  {
    KeysDistinct();
    m[WishesKey := StringList(GetWishes(m) + [w])]
  }

  /** The store after `savePuzzleProgress(step)`. */
  function AfterSavePuzzleProgress(m: Entries, step: int): (r: Entries)
    requires WellTyped(m)
    ensures WellTyped(r) && SameExcept(m, r, PuzzleProgressKey)
    ensures GetPuzzleProgress(r) == step
    ensures GetWishes(r) == GetWishes(m)
    ensures HasVisited(r) == HasVisited(m) && GetMuted(r) == GetMuted(m)
  {
    KeysDistinct();
    m[PuzzleProgressKey := StepRecord(step)]
  }

  /** The store after `markAsVisited()`. */
  function AfterMarkAsVisited(m: Entries): (r: Entries)
    requires WellTyped(m)
    ensures WellTyped(r) && SameExcept(m, r, VisitedKey)
    ensures HasVisited(r)
    ensures GetWishes(r) == GetWishes(m) && GetPuzzleProgress(r) == GetPuzzleProgress(m)
    ensures GetMuted(r) == GetMuted(m)
  {
    KeysDistinct();
    m[VisitedKey := Raw("true")]
  }

  /** The store after the sound hook persists its flag. */
  function AfterSaveMuted(m: Entries, muted: bool): (r: Entries)
    requires WellTyped(m)
    ensures WellTyped(r) && SameExcept(m, r, AudioMutedKey)
    ensures GetMuted(r) == muted
    ensures GetWishes(r) == GetWishes(m) && GetPuzzleProgress(r) == GetPuzzleProgress(m)
    ensures HasVisited(r) == HasVisited(m)
  {
    KeysDistinct();
    m[AudioMutedKey := Flag(muted)]
  }

  /** Saving wishes one by one onto a store rebuilds exactly that list after what was stored. */
  function AfterSaveWishes(m: Entries, ws: seq<string>): Entries
    requires WellTyped(m)
    decreases |ws|
  {
    if ws == [] then m else AfterSaveWish(AfterSaveWishes(m, ws[..|ws| - 1]), ws[|ws| - 1])
  }

  lemma {:induction false} SaveWishesRoundTrip(m: Entries, ws: seq<string>)
    requires WellTyped(m)
    ensures WellTyped(AfterSaveWishes(m, ws))
    ensures GetWishes(AfterSaveWishes(m, ws)) == GetWishes(m) + ws
    decreases |ws|
  {
    if ws != [] {
      var init := ws[..|ws| - 1];
      SaveWishesRoundTrip(m, init);
      assert init + [ws[|ws| - 1]] == ws;
      assert GetWishes(m) + init + [ws[|ws| - 1]] == GetWishes(m) + ws;
    }
  }

  /** `localStorage`: a mutable map from keys to stored values. */
  class Store {
    var entries: Entries

    constructor (initial: Entries)
      ensures entries == initial
    {
      entries := initial;
    }

    /** `localStorage.setItem`. */
    method SetItem(key: string, value: Stored)
      modifies this
      ensures entries == old(entries)[key := value]
    {
      entries := entries[key := value];
    }
  }

  /** `saveWish`: fetch the list, push the wish, write the list back. */
  method SaveWish(store: Store, wish: string)
    requires WellTyped(store.entries)
    modifies store
    ensures store.entries == AfterSaveWish(old(store.entries), wish)
  {
    var wishes := GetWishes(store.entries);
    wishes := wishes + [wish];
    store.SetItem(WishesKey, StringList(wishes));
  }

  /** `savePuzzleProgress`. */
  method SavePuzzleProgress(store: Store, step: int)
    requires WellTyped(store.entries)
    modifies store
    ensures store.entries == AfterSavePuzzleProgress(old(store.entries), step)
  {
    store.SetItem(PuzzleProgressKey, StepRecord(step));
  }

  /** `markAsVisited`. */
  method MarkAsVisited(store: Store)
    requires WellTyped(store.entries)
    modifies store
    ensures store.entries == AfterMarkAsVisited(old(store.entries))
  {
    store.SetItem(VisitedKey, Raw("true"));
  }
}
