/**
 * The recipe record and the schema that validated recipe data satisfies
 * (`RecipeTypeSchema`, `RecipeSchema`).
 */
module RecipeSchema {
  import opened Wrappers

  /** The four values of the recipe-type enumeration. */
  datatype RecipeType = Curry | Salad | Dessert | Drink {

    /** The string that stands for this type in recipe data. */
    function Name(): string {
      match this
      case Curry => "カレー"
      case Salad => "サラダ"
      case Dessert => "デザート"
      case Drink => "ドリンク"
    }
  }

  /** The enumeration's values, in declaration order. */
  const RecipeTypeNames: seq<string> := ["カレー", "サラダ", "デザート", "ドリンク"]

  /** The enumeration schema: accepts exactly its four strings. */
  function ParseRecipeType(s: string): (r: Option<RecipeType>)
    ensures r.Some? <==> s in RecipeTypeNames
    ensures r.Some? ==> r.value.Name() == s
  {
    if s == "カレー" then Some(Curry)
    else if s == "サラダ" then Some(Salad)
    else if s == "デザート" then Some(Dessert)
    else if s == "ドリンク" then Some(Drink)
    else None
  }

  lemma ParseRecipeTypeName(t: RecipeType)
    ensures ParseRecipeType(t.Name()) == Some(t)
    ensures t.Name() in RecipeTypeNames
  {
  }

  /** One line of a recipe: an ingredient name and how many of it. */
  datatype IngredientLine = IngredientLine(name: string, quantity: int)

  /**
   * A recipe record as read. `power` is the recipe's own strength value.
   * `effect` is `None` when the record has no such field, which validation
   * rejects; `imageUrl` may legitimately be absent.
   */
  datatype Recipe = Recipe(
    id: int,
    name: string,
    recipeType: RecipeType,
    power: int,
    ingredients: seq<IngredientLine>,
    effect: Option<string>,
    imageUrl: Option<string>)

  predicate ValidLine(line: IngredientLine) {
    line.quantity > 0
  }

  /** What schema validation guarantees about a recipe record. */
  predicate ValidRecipe(r: Recipe) {
    && r.id > 0
    && |r.name| >= 1
    && r.power > 0
    && r.effect.Some?
    && forall i :: 0 <= i < |r.ingredients| ==> ValidLine(r.ingredients[i])
  }
}
