/**
 * The cocktail menu screen (frontend/app/cocktails.tsx): the search filter
 * over the catalogue, the short ingredient preview on each card, and the
 * order modal whose "Order Now" button is guarded by an in-progress flag.
 */
module Menu {
  import opened Optional
  import opened Text
  import Types

  /** The search test: the lower-cased name contains the lower-cased query. */
  predicate Matches(cocktail: Types.Cocktail, query: string)
    ensures Matches(cocktail, query) ==> |query| <= |cocktail.name|
    ensures query == [] ==> Matches(cocktail, query)
  {
    Includes(Lower(cocktail.name), Lower(query))
  }

  /** `cocktails.filter(...)`: the matching cocktails, in catalogue order. */
  function FilterCocktails(cocktails: seq<Types.Cocktail>, query: string): (r: seq<Types.Cocktail>)
    ensures |r| <= |cocktails|
    ensures forall i :: 0 <= i < |r| ==> Matches(r[i], query)
    decreases |cocktails|
  {
    if cocktails == [] then []
    else (if Matches(cocktails[0], query) then [cocktails[0]] else [])
         + FilterCocktails(cocktails[1..], query)
  }

  /** `a` is `b` with some elements dropped and the rest kept in order. */
  predicate IsSubsequence<T(==)>(a: seq<T>, b: seq<T>)
    decreases |b|
  {
    if a == [] then true
    else if b == [] then false
    else (a[0] == b[0] && IsSubsequence(a[1..], b[1..])) || IsSubsequence(a, b[1..])
  }

  /** The filter keeps exactly the matching cocktails: nothing matching is lost, nothing else gets in. */
  lemma {:induction false} FilterKeepsExactlyMatches(cocktails: seq<Types.Cocktail>, query: string, c: Types.Cocktail)
    ensures c in FilterCocktails(cocktails, query) <==> c in cocktails && Matches(c, query)
    decreases |cocktails|
  {
    if cocktails != [] {
      FilterKeepsExactlyMatches(cocktails[1..], query, c);
      assert cocktails == [cocktails[0]] + cocktails[1..];
    }
  }

  /**
   * The filter keeps every copy of a matching cocktail and no copy of any
   * other: it counts, not just membership.
   */
  lemma {:induction false} FilterKeepsEveryCopy(cocktails: seq<Types.Cocktail>, query: string, c: Types.Cocktail)
    ensures multiset(FilterCocktails(cocktails, query))[c] ==
            if Matches(c, query) then multiset(cocktails)[c] else 0
    decreases |cocktails|
  {
    if cocktails != [] {
      FilterKeepsEveryCopy(cocktails[1..], query, c);
      assert cocktails == [cocktails[0]] + cocktails[1..];
    }
  }

  /** The filter only drops cocktails: what remains is in the original relative order. */
  lemma {:induction false} FilterIsSubsequence(cocktails: seq<Types.Cocktail>, query: string)
    ensures IsSubsequence(FilterCocktails(cocktails, query), cocktails)
    decreases |cocktails|
  {
    if cocktails != [] {
      var r := FilterCocktails(cocktails, query);
      var rest := FilterCocktails(cocktails[1..], query);
      FilterIsSubsequence(cocktails[1..], query);
      if Matches(cocktails[0], query) {
        assert r == [cocktails[0]] + rest;
        assert r[1..] == rest;
      } else {
        assert r == rest;
        if r != [] {
          assert IsSubsequence(r, cocktails[1..]);
        }
      }
    }
  }

  /** An empty search box shows the whole catalogue. */
  lemma {:induction false} EmptyQueryKeepsAll(cocktails: seq<Types.Cocktail>)
    ensures FilterCocktails(cocktails, "") == cocktails
    decreases |cocktails|
  {
    if cocktails != [] {
      IncludesEmpty(Lower(cocktails[0].name));
      assert Lower("") == "";
      EmptyQueryKeepsAll(cocktails[1..]);
    }
  }

  /** Searching the search results again with the same query changes nothing. */
  lemma {:induction false} FilterIdempotent(cocktails: seq<Types.Cocktail>, query: string)
    ensures FilterCocktails(FilterCocktails(cocktails, query), query) == FilterCocktails(cocktails, query)
    decreases |cocktails|
  {
    if cocktails != [] {
      FilterIdempotent(cocktails[1..], query);
      var rest := FilterCocktails(cocktails[1..], query);
      if Matches(cocktails[0], query) {
        var r := [cocktails[0]] + rest;
        assert r[0] == cocktails[0] && r[1..] == rest;
      } else {
        assert FilterCocktails(cocktails, query) == rest;
      }
    }
  }

  function Min(a: int, b: int): int {
    if a <= b then a else b
  }

  /** One name in a card's preview and the text that follows it (", " or nothing). */
  datatype PreviewLine = PreviewLine(name: string, separator: string)

  /** The preview on a card: at most three names, then "+k more" when the recipe is longer. */
  datatype Preview = Preview(lines: seq<PreviewLine>, more: Option<string>)

  /** `bottle?.name` as JSX renders it: the name, or nothing when the bottle is unknown. */
  function BottleName(bottles: seq<Types.Bottle>, id: string): (r: string)
    ensures (forall k :: 0 <= k < |bottles| ==> bottles[k].id != id) ==> r == ""
    ensures (exists k :: 0 <= k < |bottles| && bottles[k].id == id) ==>
            exists k :: 0 <= k < |bottles| && bottles[k].id == id && r == bottles[k].name
                        && forall m :: 0 <= m < k ==> bottles[m].id != id
  {
    var bottle := Types.FindBottle(bottles, id);
    if bottle.Some? then bottle.value.name else ""
  }

  /** The ingredient preview of a cocktail card in `renderCocktailItem`. */
  function IngredientPreview(bottles: seq<Types.Bottle>, item: Types.Cocktail): (r: Preview)
    ensures |r.lines| == Min(3, |item.ingredients|)
    ensures forall idx :: 0 <= idx < |r.lines| ==>
              r.lines[idx].name == BottleName(bottles, item.ingredients[idx].id)
    ensures forall idx :: 0 <= idx < |r.lines| ==>
              (r.lines[idx].separator == ", " <==> idx < Min(2, |item.ingredients| - 1))
    ensures forall idx :: 0 <= idx < |r.lines| ==> r.lines[idx].separator in {", ", ""}
    ensures r.more.Some? <==> |item.ingredients| > 3
    ensures r.more.Some? ==> r.more.value == "+" + IntToDecimal(|item.ingredients| - 3) + " more"
  {
    var n := |item.ingredients|;
    var shown := item.ingredients[..Min(3, n)];
    Preview(
      seq(|shown|, idx requires 0 <= idx < |shown| =>
        PreviewLine(BottleName(bottles, shown[idx].id), if idx < Min(2, n - 1) then ", " else "")),
      if n > 3 then Some("+" + IntToDecimal(n - 3) + " more") else None)
  }

  /**
   * The separator rule in plain terms: every shown name but the last is
   * followed by ", ", and the last shown name never is.
   */
  lemma CommaExactlyBetweenShownNames(bottles: seq<Types.Bottle>, item: Types.Cocktail, idx: nat)
    requires idx < |IngredientPreview(bottles, item).lines|
    ensures var lines := IngredientPreview(bottles, item).lines;
            lines[idx].separator == (if idx < |lines| - 1 then ", " else "")
  {
  }

  /** The preview accounts for every ingredient: the names shown plus the "+k more" count give the recipe length. */
  lemma PreviewAccountsForAll(bottles: seq<Types.Bottle>, item: Types.Cocktail)
    ensures var p := IngredientPreview(bottles, item);
            var hidden := if p.more.Some? then ParseDecimal(p.more.value[1..|p.more.value| - 5]) else 0;
            (p.more.Some? ==> AllDigits(p.more.value[1..|p.more.value| - 5])) &&
            |p.lines| + hidden == |item.ingredients|
  {
    var p := IngredientPreview(bottles, item);
    var n := |item.ingredients|;
    if n > 3 {
      var m := p.more.value;
      assert m[1..|m| - 5] == NatToDecimal(n - 3);
      ParseNatToDecimal(n - 3);
    }
  }

  /**
   * The order flow of the screen: the selected cocktail, the order modal, and
   * the `orderInProgress` flag that disables "Order Now" while an order is out.
   * `progressLog` records every value given to `orderInProgress`, and
   * `notices` every toast, so that a caller can see what happened during a call.
   */
  class OrderScreen {
    var selected: Option<Types.Cocktail>
    var modalVisible: bool
    var specialInstructions: string
    var orderInProgress: bool
    var progressLog: seq<bool>
    var notices: seq<Types.Notice>

    constructor ()
      ensures selected.None? && !modalVisible && specialInstructions == ""
      ensures !orderInProgress && progressLog == [] && notices == []
    {
      selected := None;
      modalVisible := false;
      specialInstructions := "";
      orderInProgress := false;
      progressLog := [];
      notices := [];
    }

    /** "Order Now" in the modal is disabled while an order is in progress. */
    predicate OrderButtonEnabled()
      reads this
    {
      !orderInProgress
    }

    /** `openOrderModal(cocktail)`: select it, clear the instructions, show the modal. */
    method OpenOrderModal(cocktail: Types.Cocktail)
      modifies this
      ensures selected == Some(cocktail) && specialInstructions == "" && modalVisible
      ensures orderInProgress == old(orderInProgress)
      ensures progressLog == old(progressLog) && notices == old(notices)
    {
      selected := Some(cocktail);
      specialInstructions := "";
      modalVisible := true;
    }

    /** The modal's close button and the back gesture hide the modal and keep the selection. */
    method CloseOrderModal()
      modifies this
      ensures !modalVisible
      ensures selected == old(selected) && specialInstructions == old(specialInstructions)
      ensures orderInProgress == old(orderInProgress)
      ensures progressLog == old(progressLog) && notices == old(notices)
    {
      modalVisible := false;
    }

    /**
     * `placeOrder()`. With no cocktail selected it does nothing. Otherwise the
     * flag is raised, the order call runs (its outcome is `callSucceeds`), a
     * toast reports the outcome, the modal closes on success, and the flag is
     * lowered whichever way the call went.
     */
    method PlaceOrder(callSucceeds: bool)
      modifies this
      ensures old(selected).None? ==>
                && modalVisible == old(modalVisible)
                && orderInProgress == old(orderInProgress)
                && progressLog == old(progressLog)
                && notices == old(notices)
      ensures old(selected).Some? ==>
                && progressLog == old(progressLog) + [true, false]
                && !orderInProgress
                && notices == old(notices) + [if callSucceeds
                                              then Types.Success("Making " + old(selected).value.name + "!")
                                              else Types.Error("Failed to place order")]
                && modalVisible == (if callSucceeds then false else old(modalVisible))
      ensures selected == old(selected) && specialInstructions == old(specialInstructions)
    {
      if selected.None? {
        return;
      }
      orderInProgress := true;
      progressLog := progressLog + [true];
      // The order call runs here, with the button disabled.
      assert !OrderButtonEnabled();
      if callSucceeds {
        notices := notices + [Types.Success("Making " + selected.value.name + "!")];
        modalVisible := false;
      } else {
        notices := notices + [Types.Error("Failed to place order")];
      }
      orderInProgress := false;
      progressLog := progressLog + [false];
    }
  }
}
