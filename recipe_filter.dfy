/**
 * The recipe filter panel: the ingredient checkboxes, the type and pot-capacity
 * buttons, and the summary of active filters.
 */
module RecipeFilter {
  import opened Wrappers
  import opened Seqs
  import opened RecipeSchema
  import opened Recipes
  import opened RecipeUtils
  import opened PotCapacity

  /** `handleIngredientToggle`: a chosen ingredient is removed, any other one is appended. */
  function ToggleIngredient(selected: seq<string>, ingredient: string): (r: seq<string>)
    ensures ingredient in r <==> ingredient !in selected
    ensures forall i :: i != ingredient ==> (i in r <==> i in selected)
  {
    if ingredient in selected then Filter(selected, (i: string) => i != ingredient)
    else selected + [ingredient]
  }

  /** `clearIngredients`: the list handed on when the selection is cleared. */
  function ClearedIngredients(): (r: seq<string>)
    ensures |r| == 0
    ensures forall recipes :: FilterRecipesByIngredients(recipes, r) == recipes
    ensures forall ingredient :: ToggleIngredient(r, ingredient) == [ingredient]
  {
    []
  }

  /**
   * Clearing lets every recipe through the ingredient filter, hides the
   * summary when no other filter is set, and a later toggle starts afresh.
   */
  lemma ClearingResetsIngredientFilter(recipes: seq<Recipe>, ingredient: string)
    ensures FilterRecipesByIngredients(recipes, ClearedIngredients()) == recipes
    ensures FilterRecipes(recipes, FilterOptions(None, Some(ClearedIngredients()))) == recipes
    ensures !ShowActiveSummary(None, ClearedIngredients(), None)
    ensures ToggleIngredient(ClearedIngredients(), ingredient) == [ingredient]
  {
  }

  lemma ToggleAbsentAppends(selected: seq<string>, ingredient: string)
    requires ingredient !in selected
    ensures ToggleIngredient(selected, ingredient) == selected + [ingredient]
  {
  }

  lemma TogglePresentRemoves(selected: seq<string>, ingredient: string)
    requires ingredient in selected
    ensures forall i :: i in ToggleIngredient(selected, ingredient) <==> i in selected && i != ingredient
    ensures IsSubsequence(ToggleIngredient(selected, ingredient), selected)
    ensures |ToggleIngredient(selected, ingredient)| < |selected|
  {
    FilterShortens(selected, (i: string) => i != ingredient, ingredient);
  }

  lemma ToggleKeepsNoDup(selected: seq<string>, ingredient: string)
    requires NoDup(selected)
    ensures NoDup(ToggleIngredient(selected, ingredient))
  {
    if ingredient in selected {
      FilterNoDup(selected, (i: string) => i != ingredient);
    }
  }

  /**
   * Toggling twice gives back the list when the ingredient was not chosen; when
   * it was, the same ingredients are chosen, with it moved to the end.
   */
  lemma ToggleTwice(selected: seq<string>, ingredient: string)
    ensures ingredient !in selected ==> ToggleIngredient(ToggleIngredient(selected, ingredient), ingredient) == selected
    ensures ingredient in selected ==>
              ToggleIngredient(ToggleIngredient(selected, ingredient), ingredient) ==
              Filter(selected, (i: string) => i != ingredient) + [ingredient]
    ensures forall i :: i in ToggleIngredient(ToggleIngredient(selected, ingredient), ingredient) <==> i in selected
  {
    var p := (i: string) => i != ingredient;
    if ingredient !in selected {
      FilterAppend(selected, [ingredient], p);
      FilterAll(selected, p);
      assert Filter([ingredient], p) == [];
    }
  }

  /** The order is not always restored: toggling "a" twice in ["a", "b"] gives ["b", "a"]. */
  lemma ToggleTwiceReorders()
    ensures ToggleIngredient(ToggleIngredient(["a", "b"], "a"), "a") == ["b", "a"]
  {
    var p := (i: string) => i != "a";
    assert ["a", "b"][1..] == ["b"] && ["b"][1..] == [];
    assert Filter(["a", "b"], p) == ["b"];
  }

  /** One type button: the type it selects and its caption. */
  datatype TypeButton = TypeButton(value: RecipeType, displayLabel: string)

  /** `RECIPE_TYPES`: the type buttons shown after "すべて". There is none for drinks. */
  const RecipeTypeButtons: seq<TypeButton> := [
    TypeButton(Curry, "カレー・シチュー"),
    TypeButton(Salad, "サラダ"),
    TypeButton(Dessert, "デザート")
  ]

  predicate TypeAllPressed(selectedType: Option<RecipeType>) {
    selectedType == None
  }

  predicate TypeButtonPressed(selectedType: Option<RecipeType>, button: TypeButton) {
    selectedType == Some(button.value)
  }

  predicate PotAllPressed(potCapacity: Option<int>) {
    potCapacity == None
  }

  predicate PotPresetPressed(potCapacity: Option<int>, preset: PotCapacityPreset) {
    potCapacity == Some(preset.capacity)
  }

  /** Whether the "フィルター:" summary line is shown. */
  predicate ShowActiveSummary(selectedType: Option<RecipeType>, selectedIngredients: seq<string>,
                              potCapacity: Option<int>) {
    selectedType.Some? || |selectedIngredients| > 0 || potCapacity.Some?
  }

  /** Every type button selects a value of the recipe-type enumeration, each a different one. */
  lemma TypeButtonsAreRecipeTypes()
    ensures forall b :: b in RecipeTypeButtons ==> b.value.Name() in RecipeTypeNames
    ensures forall i, j :: 0 <= i < j < |RecipeTypeButtons| ==> RecipeTypeButtons[i].value != RecipeTypeButtons[j].value
  {
  }

  /**
   * Exactly one type button is pressed for every selection the buttons can
   * make; a drink selection would leave all of them unpressed.
   */
  lemma TypeButtonsPressedExactlyOnce(selectedType: Option<RecipeType>)
    ensures selectedType != Some(Drink) ==>
              (TypeAllPressed(selectedType) ==> forall b :: b in RecipeTypeButtons ==> !TypeButtonPressed(selectedType, b)) &&
              (!TypeAllPressed(selectedType) ==> exists b :: b in RecipeTypeButtons && TypeButtonPressed(selectedType, b))
    ensures forall i, j :: 0 <= i < |RecipeTypeButtons| && 0 <= j < |RecipeTypeButtons| ==>
              TypeButtonPressed(selectedType, RecipeTypeButtons[i]) ==> TypeButtonPressed(selectedType, RecipeTypeButtons[j]) ==> i == j
    ensures selectedType == Some(Drink) ==>
              !TypeAllPressed(selectedType) && forall b :: b in RecipeTypeButtons ==> !TypeButtonPressed(selectedType, b)
  {
    if selectedType.Some? && selectedType != Some(Drink) {
      var t := selectedType.value;
      var k := if t == Curry then 0 else if t == Salad then 1 else 2;
      assert RecipeTypeButtons[k] in RecipeTypeButtons && TypeButtonPressed(selectedType, RecipeTypeButtons[k]);
    }
  }

  /** At most one pot-capacity button is pressed: "すべて" when unset, else the preset of that capacity. */
  lemma PotButtonsPressedAtMostOnce(potCapacity: Option<int>)
    ensures PotAllPressed(potCapacity) ==>
              forall p :: p in PotCapacityPresets ==> !PotPresetPressed(potCapacity, p)
    ensures forall i, j :: 0 <= i < |PotCapacityPresets| && 0 <= j < |PotCapacityPresets| ==>
              PotPresetPressed(potCapacity, PotCapacityPresets[i]) ==>
              PotPresetPressed(potCapacity, PotCapacityPresets[j]) ==> i == j
  {
    CapacitiesStrictlyIncrease();
  }

  /** The summary is hidden exactly when both "すべて" buttons are pressed and no ingredient is chosen. */
  lemma SummaryShownUnlessAllCleared(selectedType: Option<RecipeType>, selectedIngredients: seq<string>,
                                     potCapacity: Option<int>)
    ensures ShowActiveSummary(selectedType, selectedIngredients, potCapacity) <==>
            !(TypeAllPressed(selectedType) && PotAllPressed(potCapacity) && selectedIngredients == [])
  {
  }

  /** With the summary hidden, the filters the panel controls let every recipe through. */
  lemma HiddenSummaryFiltersNothing(recipes: seq<Recipe>, selectedType: Option<RecipeType>,
                                    selectedIngredients: seq<string>, potCapacity: Option<int>)
    requires !ShowActiveSummary(selectedType, selectedIngredients, potCapacity)
    ensures FilterRecipesByPotCapacity(FilterRecipes(recipes, FilterOptions(selectedType, Some(selectedIngredients))),
                                       potCapacity) == recipes
  {
  }

  /** The panel's own state: whether the ingredient checkboxes are expanded. */
  class IngredientPanel {
    var showIngredients: bool

    constructor ()
      ensures !showIngredients
    {
      showIngredients := false;
    }

    /** The open/close button. */
    method ToggleShowIngredients()
      modifies this
      ensures showIngredients == !old(showIngredients)
    {
      showIngredients := !showIngredients;
    }
  }
}
