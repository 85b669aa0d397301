/** The wish collector of `src/components/WishesConfetti.tsx`. */
module WishList {
  import opened Options
  import opened Text
  import opened Storage

  /** The counter line: the number of wishes and the noun after it. */
  datatype CounterText = CounterText(count: nat, noun: string)

  /** The counter: hidden for an empty list, "wish" for one wish, "wishes" otherwise. */
  function Counter(wishes: seq<string>): (r: Option<CounterText>)
    ensures r.Some? <==> |wishes| > 0
    ensures r.Some? ==> r.value.count == |wishes|
    ensures r.Some? ==> (r.value.noun == "wishes" <==> |wishes| != 1)
    ensures r.Some? ==> (r.value.noun == "wish" <==> |wishes| == 1)
  {
    if |wishes| > 0 then
      Some(CounterText(|wishes|, "wish" + if |wishes| != 1 then "es" else ""))
    else
      None
  }

  /** The send button is enabled exactly for input that is not white space only. */
  function SendEnabled(wish: string): (r: bool)
    ensures r <==> !AllSpace(wish)
  {
    Trim(wish) != []
  }

  class WishesConfetti {
    var wish: string
    var wishes: seq<string>
    var showFloatingWish: bool
    var currentFloatingWish: string
    var pendingHides: nat

    /** Mounting: an empty form, then the list loaded from the store (empty when none is stored). */
    constructor (store: Store)
      requires WellTyped(store.entries)
      ensures wishes == GetWishes(store.entries)
      ensures wish == "" && !showFloatingWish && currentFloatingWish == "" && pendingHides == 0
    {
      wish, wishes, showFloatingWish, currentFloatingWish, pendingHides := "", [], false, "", 0;
      if WishesKey in store.entries {
        wishes := store.entries[WishesKey].items;
      }
    }

    /** The input's change handler. */
    method SetWish(text: string)
      modifies this
      ensures wish == text
      ensures wishes == old(wishes) && showFloatingWish == old(showFloatingWish)
      ensures currentFloatingWish == old(currentFloatingWish) && pendingHides == old(pendingHides)
    {
      wish := text;
    }

    /**
     * `handleSendWish`, from the button or from Enter. White-space-only input changes
     * nothing; otherwise the untrimmed wish is appended, the whole list is written to
     * the store, the input is cleared and the wish floats up until its timer fires.
     */
    method HandleSendWish(store: Store) returns (sent: bool)
      requires WellTyped(store.entries)
      modifies this, store
      ensures WellTyped(store.entries)
      ensures sent <==> !AllSpace(old(wish))
      ensures !sent ==> unchanged(this) && unchanged(store)
      ensures sent ==>
        && wishes == old(wishes) + [old(wish)]
        && store.entries == old(store.entries)[WishesKey := StringList(wishes)]
        && GetWishes(store.entries) == wishes
        && wish == "" && showFloatingWish && currentFloatingWish == old(wish)
        && pendingHides == old(pendingHides) + 1
    {
      sent := Trim(wish) != [];
      if sent {
        var newWishes := wishes + [wish];
        wishes := newWishes;
        store.SetItem(WishesKey, StringList(newWishes));
        currentFloatingWish := wish;
        showFloatingWish := true;
        wish := "";
        pendingHides := pendingHides + 1;
      }
    }

    /** A floating-wish timer fires and hides the floating wish. */
    method HideTimerFires()
      requires pendingHides > 0
      modifies this
      ensures !showFloatingWish && pendingHides == old(pendingHides) - 1
      ensures wish == old(wish) && wishes == old(wishes) && currentFloatingWish == old(currentFloatingWish)
    {
      showFloatingWish := false;
      pendingHides := pendingHides - 1;
    }
  }

  /** Blank input is refused, a wish is kept and stored, and a fresh collector loads it back. */
  method SampleSession(store: Store) returns (reloaded: WishesConfetti)
    requires store.entries == map[]
    modifies store
    ensures WellTyped(store.entries) && GetWishes(store.entries) == ["Have fun!"]
    ensures reloaded.wishes == ["Have fun!"]
    ensures Counter(reloaded.wishes) == Some(CounterText(1, "wish"))
  {
    var collector := new WishesConfetti(store);
    collector.SetWish("   ");
    var sent := collector.HandleSendWish(store);
    assert !sent && collector.wishes == [];
    collector.SetWish("Have fun!");
    assert !IsSpace("Have fun!"[0]);
    sent := collector.HandleSendWish(store);
    assert collector.wishes == ["Have fun!"];
    reloaded := new WishesConfetti(store);
    assert reloaded.wishes == ["Have fun!"];
    assert Counter(reloaded.wishes) == Some(CounterText(1, "wish"));
  }
}
