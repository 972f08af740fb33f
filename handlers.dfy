/**
 * The bottle-handler screen (frontend/app/handlers.tsx): which cocktails can be
 * made with the bottles currently loaded in the machine's handlers, what the
 * "make" button says, and how each ingredient line is labelled.
 *
 * This screen reads its recipes in the shape the catalogue service returns
 * them (`bottleId`, `amount`, `image`), not in the shape of Types.Cocktail.
 */
module Handlers {
  import opened Optional
  import opened Text
  import Types

  datatype Ingredient = Ingredient(bottleId: string, amount: int)

  datatype Cocktail = Cocktail(
    id: string,
    name: string,
    instructions: string,
    ingredients: seq<Ingredient>,
    image: string)

  datatype MakeButton = MakeButton(disabled: bool, caption: string)

  /** The per-ingredient test inside `every`: the looked-up bottle exists and its handler is not null. */
  predicate IngredientReady(bottles: seq<Types.Bottle>, ingredient: Ingredient)
    ensures IngredientReady(bottles, ingredient) ==>
            exists k :: 0 <= k < |bottles| && bottles[k].id == ingredient.bottleId
  {
    var bottle := Types.FindBottle(bottles, ingredient.bottleId);
    bottle.Some? && bottle.value.handlerId.Some?
  }

  /** `ingredients.every(...)`, scanning left to right and stopping at the first failure. */
  predicate AllReady(bottles: seq<Types.Bottle>, ingredients: seq<Ingredient>)
    ensures AllReady(bottles, ingredients) <==>
            forall i :: 0 <= i < |ingredients| ==> IngredientReady(bottles, ingredients[i])
    decreases |ingredients|
  {
    ingredients == [] || (IngredientReady(bottles, ingredients[0]) && AllReady(bottles, ingredients[1..]))
  }

  /** `checkAvailability(cocktail)`. */
  predicate CheckAvailability(bottles: seq<Types.Bottle>, cocktail: Cocktail)
    ensures CheckAvailability(bottles, cocktail) ==>
            forall i :: 0 <= i < |cocktail.ingredients| ==> IngredientReady(bottles, cocktail.ingredients[i])
    ensures !CheckAvailability(bottles, cocktail) ==>
            exists i :: 0 <= i < |cocktail.ingredients| && !IngredientReady(bottles, cocktail.ingredients[i])
  {
    AllReady(bottles, cocktail.ingredients)
  }

  /**
   * Reference reading of "the bottle is loaded", independent of the lookup:
   * index `j` holds the first bottle with this id, and that bottle has a handler.
   */
  predicate LoadedAt(bottles: seq<Types.Bottle>, id: string, j: int) {
    && 0 <= j < |bottles|
    && bottles[j].id == id
    && bottles[j].handlerId.Some?
    && forall k :: 0 <= k < j ==> bottles[k].id != id
  }

  ghost predicate Loaded(bottles: seq<Types.Bottle>, id: string) {
    exists j :: LoadedAt(bottles, id, j)
  }

  lemma IngredientReadyIffLoaded(bottles: seq<Types.Bottle>, ingredient: Ingredient)
    ensures IngredientReady(bottles, ingredient) <==> Loaded(bottles, ingredient.bottleId)
  {
    var id := ingredient.bottleId;
    var first := Types.FirstIndexOf(bottles, id);
    if first.Some? {
      if bottles[first.value].handlerId.Some? {
        assert LoadedAt(bottles, id, first.value);
      } else {
        forall j | 0 <= j < |bottles| ensures !LoadedAt(bottles, id, j) {
          if j < first.value {
          } else if j > first.value {
            assert bottles[first.value].id == id;
          }
        }
      }
    }
  }

  /** A cocktail is available iff every one of its ingredients' bottles is loaded in a handler. */
  lemma {:induction false} CheckAvailabilityIffAllLoaded(bottles: seq<Types.Bottle>, ingredients: seq<Ingredient>)
    ensures AllReady(bottles, ingredients) <==>
            forall i :: 0 <= i < |ingredients| ==> Loaded(bottles, ingredients[i].bottleId)
    decreases |ingredients|
  {
    if ingredients != [] {
      CheckAvailabilityIffAllLoaded(bottles, ingredients[1..]);
      IngredientReadyIffLoaded(bottles, ingredients[0]);
      assert forall i :: 1 <= i < |ingredients| ==> ingredients[i] == ingredients[1..][i - 1];
    }
  }

  /** A recipe with no ingredients is always available. */
  lemma EmptyRecipeAvailable(bottles: seq<Types.Bottle>, cocktail: Cocktail)
    requires cocktail.ingredients == []
    ensures CheckAvailability(bottles, cocktail)
  {
  }

  /** One ingredient whose bottle is absent from the inventory makes the cocktail unavailable. */
  lemma MissingBottleUnavailable(bottles: seq<Types.Bottle>, cocktail: Cocktail, i: nat)
    requires i < |cocktail.ingredients|
    requires forall k :: 0 <= k < |bottles| ==> bottles[k].id != cocktail.ingredients[i].bottleId
    ensures !CheckAvailability(bottles, cocktail)
  {
    CheckAvailabilityIffAllLoaded(bottles, cocktail.ingredients);
    assert !Loaded(bottles, cocktail.ingredients[i].bottleId);
  }

  /**
   * Only the first bottle with a given id is consulted: a later duplicate that is
   * loaded does not rescue an unloaded first one.
   */
  lemma FirstBottleDecides(bottles: seq<Types.Bottle>, cocktail: Cocktail, i: nat, j: nat)
    requires i < |cocktail.ingredients| && j < |bottles|
    requires bottles[j].id == cocktail.ingredients[i].bottleId && bottles[j].handlerId.None?
    requires forall k :: 0 <= k < j ==> bottles[k].id != bottles[j].id
    ensures !CheckAvailability(bottles, cocktail)
  {
    CheckAvailabilityIffAllLoaded(bottles, cocktail.ingredients);
    forall m | 0 <= m < |bottles| ensures !LoadedAt(bottles, bottles[j].id, m) {
      if m > j {
        assert bottles[j].id == bottles[j].id;
      }
    }
  }

  /** `makeCocktail`: refuse with an error toast, or announce the cocktail. */
  function MakeCocktail(bottles: seq<Types.Bottle>, cocktail: Cocktail): (r: Types.Notice)
    ensures r.Error? <==> !CheckAvailability(bottles, cocktail)
    ensures r.Error? ==> r.text == "Missing required bottles in handlers"
    ensures r.Success? ==> r.text == "Making " + cocktail.name + "..."
  {
    if !CheckAvailability(bottles, cocktail) then Types.Error("Missing required bottles in handlers")
    else Types.Success("Making " + cocktail.name + "...")
  }

  /** The make button of a cocktail card: its `disabled` flag and its caption. */
  function MakeButtonFor(bottles: seq<Types.Bottle>, cocktail: Cocktail): (r: MakeButton)
    ensures r.disabled <==> !CheckAvailability(bottles, cocktail)
    ensures r.caption == "Missing Bottles" <==> r.disabled
    ensures r.caption == "Make Cocktail" <==> !r.disabled
  {
    var available := CheckAvailability(bottles, cocktail);
    MakeButton(!available, if available then "Make Cocktail" else "Missing Bottles")
  }

  /** The caption and the action agree: the button is enabled exactly when pressing it makes the cocktail. */
  lemma ButtonMatchesAction(bottles: seq<Types.Bottle>, cocktail: Cocktail)
    ensures MakeButtonFor(bottles, cocktail).disabled <==> MakeCocktail(bottles, cocktail).Error?
  {
  }

  /** The suffix after an ingredient line: `bottle?.handlerId ? " (Handler N)" : " (Not loaded)"`. */
  function HandlerSuffix(bottle: Option<Types.Bottle>): (r: string)
    ensures r == " (Not loaded)" <==> !(bottle.Some? && Truthy(bottle.value.handlerId))
  {
    if bottle.Some? && Truthy(bottle.value.handlerId) then
      var shown := " (Handler " + IntToDecimal(bottle.value.handlerId.value) + ")";
      assert shown[2] == 'H';
      shown
    else
      " (Not loaded)"
  }

  /**
   * The bullet that opens an ingredient line. The screen's source holds the
   * three characters U+00E2, U+20AC, U+00A2 (a "•" whose UTF-8 bytes were read
   * as Windows-1252), and that is what the line shows.
   */
  const Bullet: string := "\U{E2}\U{20AC}\U{A2} "

  /** One ingredient line: bullet, bottle name (empty when unknown), amount in ml, handler suffix. */
  function IngredientLine(bottles: seq<Types.Bottle>, ingredient: Ingredient): (r: string)
    ensures StartsWith(r, Bullet)
    ensures var suffix := HandlerSuffix(Types.FindBottle(bottles, ingredient.bottleId));
            |suffix| <= |r| && r[|r| - |suffix|..] == suffix
  {
    var bottle := Types.FindBottle(bottles, ingredient.bottleId);
    Bullet + (if bottle.Some? then bottle.value.name else "") + ": "
      + IntToDecimal(ingredient.amount) + "ml" + HandlerSuffix(bottle)
  }

  /**
   * A loaded bottle's suffix shows its handler number: " (Handler ", then the
   * digits of N (after a minus sign when N is negative), then ")".
   */
  lemma HandlerSuffixShowsHandler(b: Types.Bottle)
    requires Truthy(b.handlerId)
    ensures var r := HandlerSuffix(Some(b));
            var n := b.handlerId.value;
            && 12 <= |r| && r[..10] == " (Handler " && r[|r| - 1] == ')'
            && (n > 0 ==> AllDigits(r[10..|r| - 1]) && ParseDecimal(r[10..|r| - 1]) == n)
            && (n < 0 ==> r[10] == '-' && AllDigits(r[11..|r| - 1]) && ParseDecimal(r[11..|r| - 1]) == -n)
  {
    var r := HandlerSuffix(Some(b));
    var n := b.handlerId.value;
    if n > 0 {
      assert r[10..|r| - 1] == NatToDecimal(n);
      ParseNatToDecimal(n);
    } else {
      assert r[11..|r| - 1] == NatToDecimal(-n);
      ParseNatToDecimal(-n);
    }
  }

  /** Distinct loaded handlers get distinct suffixes, so the label identifies the handler. */
  lemma HandlerSuffixIdentifiesHandler(a: Types.Bottle, b: Types.Bottle)
    requires Truthy(a.handlerId) && Truthy(b.handlerId)
    requires HandlerSuffix(Some(a)) == HandlerSuffix(Some(b))
    ensures a.handlerId == b.handlerId
  {
    var sa, sb := HandlerSuffix(Some(a)), HandlerSuffix(Some(b));
    var da, db := IntToDecimal(a.handlerId.value), IntToDecimal(b.handlerId.value);
    assert sa[10..|sa| - 1] == da;
    assert sb[10..|sb| - 1] == db;
    IntToDecimalInjective(a.handlerId.value, b.handlerId.value);
  }

  /**
   * Handler 0 disagrees between the two readings: it counts as loaded for
   * availability (it is not null) but the label says "Not loaded" (0 is falsy).
   */
  lemma HandlerZeroCountsButShowsNotLoaded(bottles: seq<Types.Bottle>, ingredient: Ingredient)
    requires var b := Types.FindBottle(bottles, ingredient.bottleId);
             b.Some? && b.value.handlerId == Some(0)
    ensures IngredientReady(bottles, ingredient)
    ensures HandlerSuffix(Types.FindBottle(bottles, ingredient.bottleId)) == " (Not loaded)"
  {
  }

  /** Any other handler the label and the availability test agree on. */
  lemma SuffixAgreesWithReadiness(bottles: seq<Types.Bottle>, ingredient: Ingredient)
    requires var b := Types.FindBottle(bottles, ingredient.bottleId);
             b.None? || b.value.handlerId != Some(0)
    ensures IngredientReady(bottles, ingredient) <==>
            HandlerSuffix(Types.FindBottle(bottles, ingredient.bottleId)) != " (Not loaded)"
  {
  }
}
