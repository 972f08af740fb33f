/**
 * The catalogue records shared by the client screens (frontend/types/types.ts).
 * Identifiers are strings; a bottle's `handlerId` is the dispensing slot it is
 * loaded in, or `null` when it is not loaded.
 */
module Types {
  import opened Optional

  datatype Bottle = Bottle(id: string, name: string, kind: string, handlerId: Option<int>)

  /** One line of a recipe as the type declaration spells it: bottle `id`, `name`, `oz`. */
  datatype RecipeItem = RecipeItem(id: string, name: string, oz: int)

  datatype Cocktail = Cocktail(
    id: string,
    name: string,
    instructions: string,
    ingredients: seq<RecipeItem>,
    imgPath: string)

  /** A toast raised by a screen: an error or a success notice. */
  datatype Notice = Error(text: string) | Success(text: string)

  /** The position of the first bottle with identifier `id`, if any. */
  function FirstIndexOf(bottles: seq<Bottle>, id: string): (r: Option<nat>)
    ensures r.Some? ==> r.value < |bottles| && bottles[r.value].id == id
    ensures r.Some? ==> forall k :: 0 <= k < r.value ==> bottles[k].id != id
    ensures r.None? ==> forall k :: 0 <= k < |bottles| ==> bottles[k].id != id
  {
    if bottles == [] then None
    else if bottles[0].id == id then Some(0)
    else match FirstIndexOf(bottles[1..], id)
      case None => None
      case Some(k) => Some(k + 1)
  }

  /** `bottles.find(b => b.id === id)`: the first bottle in list order with that id. */
  function FindBottle(bottles: seq<Bottle>, id: string): (r: Option<Bottle>)
    ensures r.Some? <==> exists k :: 0 <= k < |bottles| && bottles[k].id == id
    ensures r.Some? ==> r.value.id == id
  {
    match FirstIndexOf(bottles, id)
    case None => None
    case Some(k) => Some(bottles[k])
  }

  /** Find's answer is the earliest match: no bottle before it carries the same id. */
  lemma FindBottleIsFirst(bottles: seq<Bottle>, id: string, j: nat)
    requires j < |bottles| && bottles[j].id == id
    ensures FindBottle(bottles, id).Some?
    ensures exists k :: 0 <= k <= j && bottles[k] == FindBottle(bottles, id).value
                        && forall m :: 0 <= m < k ==> bottles[m].id != id
  {
  }
}
