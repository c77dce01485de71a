/**
 * The pot-capacity filter and the recipe helpers as the unit tests of the
 * recipe utilities pin them down, with the tests' sample catalogue.
 */
module RecipeUtils {
  import opened Wrappers
  import opened Seqs
  import opened StringOrder
  import opened RecipeSchema
  import opened Recipes

  /** A recipe fits in a pot of `capacity` when its ingredient count is at most `capacity`. */
  predicate FitsPot(recipe: Recipe, capacity: int) {
    TotalIngredientCount(recipe) <= capacity
  }

  /**
   * `filterRecipesByPotCapacity`: no capacity, or one of zero or less, leaves the
   * list alone; a positive capacity keeps the recipes that fit, in order.
   */
  function FilterRecipesByPotCapacity(recipes: seq<Recipe>, potCapacity: Option<int>): (r: seq<Recipe>)
    ensures potCapacity.None? || potCapacity.value <= 0 ==> r == recipes
    ensures potCapacity.Some? && potCapacity.value > 0 ==>
              forall x :: x in r <==> x in recipes && FitsPot(x, potCapacity.value)
    ensures IsSubsequence(r, recipes)
  {
    match potCapacity
    case None => SubsequenceReflexive(recipes); recipes
    case Some(capacity) =>
      if capacity <= 0 then SubsequenceReflexive(recipes); recipes else Filter(recipes, (x: Recipe) => FitsPot(x, capacity))
  }

  /** The bound is inclusive: a recipe whose count equals the capacity is kept, one above it is not. */
  lemma PotCapacityBoundary(recipes: seq<Recipe>, x: Recipe)
    requires x in recipes && TotalIngredientCount(x) > 0
    ensures x in FilterRecipesByPotCapacity(recipes, Some(TotalIngredientCount(x)))
    ensures TotalIngredientCount(x) > 1 ==>
              x !in FilterRecipesByPotCapacity(recipes, Some(TotalIngredientCount(x) - 1))
  {
  }

  /** A capacity at least every recipe's count filters nothing out. */
  lemma LargePotKeepsAll(recipes: seq<Recipe>, capacity: int)
    requires forall x :: x in recipes ==> TotalIngredientCount(x) <= capacity
    ensures FilterRecipesByPotCapacity(recipes, Some(capacity)) == recipes
  {
    if capacity > 0 {
      FilterAll(recipes, (x: Recipe) => FitsPot(x, capacity));
    }
  }

  /** The type filter followed by the pot filter keeps the recipes passing both, in either order. */
  lemma TypeAndPotFiltersCommute(recipes: seq<Recipe>, t: RecipeType, potCapacity: Option<int>)
    ensures FilterRecipesByPotCapacity(FilterRecipesByType(recipes, t), potCapacity)
         == FilterRecipesByType(FilterRecipesByPotCapacity(recipes, potCapacity), t)
    ensures forall x :: x in FilterRecipesByPotCapacity(FilterRecipesByType(recipes, t), potCapacity) <==>
              x in recipes && x.recipeType == t &&
              (potCapacity.None? || potCapacity.value <= 0 || FitsPot(x, potCapacity.value))
  {
    if potCapacity.Some? && potCapacity.value > 0 {
      FilterCommutes(recipes, (x: Recipe) => x.recipeType == t,
                     (x: Recipe) => FitsPot(x, potCapacity.value));
    }
  }

  function Line(name: string, quantity: int): IngredientLine {
    IngredientLine(name, quantity)
  }

  /** The sample catalogue of the tests: ingredient counts 7, 11, 50 and 0. */
  const MockRecipes: seq<Recipe> := [
    Recipe(1, "とくせんリンゴジュース", Dessert, 85, [Line("あまいミツ", 7)], None, None),
    Recipe(2, "マメバーグカレー", Curry, 1560,
           [Line("マメミート", 7), Line("とくせんエッグ", 4)], None, None),
    Recipe(3, "ニンジャカレー", Curry, 9445,
           [Line("ワカクサ大豆", 24), Line("マメミート", 9), Line("ふといながねぎ", 12), Line("あじわいキノコ", 5)],
           None, None),
    Recipe(4, "ごちゃまぜカレー", Curry, 0, [], None, None)
  ]

  lemma MockCounts()
    ensures TotalIngredientCount(MockRecipes[0]) == 7
    ensures TotalIngredientCount(MockRecipes[1]) == 11
    ensures TotalIngredientCount(MockRecipes[2]) == 50
    ensures TotalIngredientCount(MockRecipes[3]) == 0
  {
    var l2 := MockRecipes[2].ingredients;
    assert l2[..1][..0] == [];
    assert SumQuantities(l2[..1]) == 24;
    assert l2[..2][..1] == l2[..1];
    assert SumQuantities(l2[..2]) == 33;
    assert l2[..3][..2] == l2[..2];
    assert SumQuantities(l2[..3]) == 45;
    assert l2[..3] == l2[..|l2| - 1];
  }

  /**
   * No sample recipe passes recipe validation: none has an `effect` field. With
   * an effect added the first three would pass, while the fourth would still
   * fail on its power of 0.
   */
  lemma MockRecipesAreNotValid()
    ensures forall i :: 0 <= i < |MockRecipes| ==> MockRecipes[i].effect.None? && !ValidRecipe(MockRecipes[i])
    ensures forall i :: 0 <= i < 3 ==> ValidRecipe(MockRecipes[i].(effect := Some("")))
    ensures !ValidRecipe(MockRecipes[3].(effect := Some(""))) && MockRecipes[3].power == 0
  {
  }

  lemma PotCapacityUnsetKeepsAll()
    ensures FilterRecipesByPotCapacity(MockRecipes, None) == MockRecipes
    ensures FilterRecipesByPotCapacity(MockRecipes, Some(0)) == MockRecipes
    ensures FilterRecipesByPotCapacity(MockRecipes, Some(-10)) == MockRecipes
  {
  }

  /** The pot filter on the sample catalogue, recipe by recipe. */
  lemma MockPotFilter(capacity: int)
    requires capacity > 0
    ensures FilterRecipesByPotCapacity(MockRecipes, Some(capacity)) ==
            (if 7 <= capacity then [MockRecipes[0]] else []) +
            (if 11 <= capacity then [MockRecipes[1]] else []) +
            (if 50 <= capacity then [MockRecipes[2]] else []) +
            [MockRecipes[3]]
  {
    MockCounts();
    assert MockRecipes == [MockRecipes[0], MockRecipes[1], MockRecipes[2], MockRecipes[3]];
    FilterUnfold4(MockRecipes[0], MockRecipes[1], MockRecipes[2], MockRecipes[3],
                  (x: Recipe) => FitsPot(x, capacity));
  }

  lemma PotCapacityTenKeepsSevenAndZero()
    ensures FilterRecipesByPotCapacity(MockRecipes, Some(10)) == [MockRecipes[0], MockRecipes[3]]
  {
    MockPotFilter(10);
  }

  lemma PotCapacityElevenIncludesExactMatch()
    ensures FilterRecipesByPotCapacity(MockRecipes, Some(11)) == [MockRecipes[0], MockRecipes[1], MockRecipes[3]]
  {
    MockPotFilter(11);
  }

  lemma PotCapacityOneKeepsOnlyEmptyRecipe()
    ensures FilterRecipesByPotCapacity(MockRecipes, Some(1)) == [MockRecipes[3]]
    ensures FilterRecipesByPotCapacity(MockRecipes, Some(1))[0].name == "ごちゃまぜカレー"
  {
    MockPotFilter(1);
  }

  lemma PotCapacityLargeKeepsAll()
    ensures FilterRecipesByPotCapacity(MockRecipes, Some(999)) == MockRecipes
  {
    MockCounts();
    LargePotKeepsAll(MockRecipes, 999);
  }

  /** An empty catalogue stays empty whatever the capacity, 50 included. */
  lemma PotCapacityEmptyCatalogue(potCapacity: Option<int>)
    ensures FilterRecipesByPotCapacity([], potCapacity) == []
    ensures FilterRecipesByPotCapacity([], Some(50)) == []
  {
  }

  lemma IngredientFilterMameMeat()
    ensures FilterRecipesByIngredients(MockRecipes, ["マメミート"]) == [MockRecipes[1], MockRecipes[2]]
    ensures FilterRecipesByIngredients(MockRecipes, []) == MockRecipes
  {
    var names := ["マメミート"];
    MameMeatMatches();
    assert MockRecipes == [MockRecipes[0], MockRecipes[1], MockRecipes[2], MockRecipes[3]];
    FilterUnfold4(MockRecipes[0], MockRecipes[1], MockRecipes[2], MockRecipes[3],
                  (x: Recipe) => HasAllIngredients(x, names));
  }

  /** Of the sample recipes, exactly the second and third use マメミート. */
  lemma MameMeatMatches()
    ensures !HasAllIngredients(MockRecipes[0], ["マメミート"])
    ensures HasAllIngredients(MockRecipes[1], ["マメミート"])
    ensures HasAllIngredients(MockRecipes[2], ["マメミート"])
    ensures !HasAllIngredients(MockRecipes[3], ["マメミート"])
  {
    var names := ["マメミート"];
    assert names[0] in names;
    assert "マメミート"[0] != "あまいミツ"[0];
    assert LineNames(MockRecipes[0].ingredients) == ["あまいミツ"];
    assert names[0] !in LineNames(MockRecipes[0].ingredients);
    assert LineNames(MockRecipes[1].ingredients)[0] == "マメミート";
    assert LineNames(MockRecipes[2].ingredients)[1] == "マメミート";
    assert LineNames(MockRecipes[3].ingredients) == [];
  }

  /**
   * The page-level example: with capacity 21 and the curry type the sample
   * catalogue (without its fourth recipe) shows only the count-11 curry, and
   * capacity 15 alone keeps the counts 7 and 11.
   */
  lemma CurryWithinTwentyOne()
    ensures FilterRecipesByPotCapacity(FilterRecipesByType(MockRecipes[..3], Curry), Some(21)) == [MockRecipes[1]]
    ensures FilterRecipesByPotCapacity(MockRecipes[..3], Some(15)) == [MockRecipes[0], MockRecipes[1]]
  {
    MockCounts();
    var m := MockRecipes[..3];
    assert m == [MockRecipes[0], MockRecipes[1], MockRecipes[2]];
    CurriesOfFirstThree();
    var curries := [MockRecipes[1], MockRecipes[2]];
    assert curries[1..] == [MockRecipes[2]];
    assert FilterRecipesByPotCapacity(curries, Some(21)) == [MockRecipes[1]];
    FilterUnfold3(MockRecipes[0], MockRecipes[1], MockRecipes[2], (x: Recipe) => FitsPot(x, 15));
  }

  lemma CurriesOfFirstThree()
    ensures FilterRecipesByType(MockRecipes[..3], Curry) == [MockRecipes[1], MockRecipes[2]]
  {
    assert MockRecipes[..3] == [MockRecipes[0], MockRecipes[1], MockRecipes[2]];
    FilterUnfold3(MockRecipes[0], MockRecipes[1], MockRecipes[2], (x: Recipe) => x.recipeType == Curry);
  }

  /** The sample catalogue's ingredient names in character order. */
  const MockIngredientNames: seq<string> :=
    ["あじわいキノコ", "あまいミツ", "とくせんエッグ", "ふといながねぎ", "マメミート", "ワカクサ大豆"]

  lemma MockIngredientNamesSorted()
    ensures StrictlySorted(MockIngredientNames)
  {
    var e := MockIngredientNames;
    forall i | 0 <= i < |e| - 1 ensures Less(e[i], e[i + 1]) {
    }
    forall i, j | 0 <= i < j < |e| ensures Less(e[i], e[j]) {
      var k := i;
      while k + 1 < j
        invariant i <= k < j && Less(e[i], e[k + 1])
      {
        LessTransitive(e[i], e[k + 1], e[k + 2]);
        k := k + 1;
      }
    }
  }

  lemma MockIngredientNamesOccur()
    ensures forall n :: n in NamesIn(MockRecipes) <==> n in MockIngredientNames
  {
    var r0, r1, r2, r3 := MockRecipes[0], MockRecipes[1], MockRecipes[2], MockRecipes[3];
    assert MockRecipes == [r0, r1, r2, r3];
    forall n | n in NamesIn(MockRecipes) ensures n in MockIngredientNames {
      var r, line :| r in MockRecipes && line in r.ingredients && line.name == n;
      assert r == r0 || r == r1 || r == r2 || r == r3;
    }
    forall n | n in MockIngredientNames ensures n in NamesIn(MockRecipes) {
      var k :| 0 <= k < |MockIngredientNames| && MockIngredientNames[k] == n;
      if k == 0 { assert r2 in MockRecipes && r2.ingredients[3] in r2.ingredients; }
      if k == 1 { assert r0 in MockRecipes && r0.ingredients[0] in r0.ingredients; }
      if k == 2 { assert r1 in MockRecipes && r1.ingredients[1] in r1.ingredients; }
      if k == 3 { assert r2 in MockRecipes && r2.ingredients[2] in r2.ingredients; }
      if k == 4 { assert r1 in MockRecipes && r1.ingredients[0] in r1.ingredients; }
      if k == 5 { assert r2 in MockRecipes && r2.ingredients[0] in r2.ingredients; }
    }
  }

  /** `extractIngredients` on the sample catalogue: each name once, in character order. */
  method ExtractMockIngredients() returns (names: seq<string>)
    ensures names == MockIngredientNames
    ensures "あまいミツ" in names && "マメミート" in names
  {
    names := ExtractIngredients(MockRecipes);
    MockIngredientNamesSorted();
    MockIngredientNamesOccur();
    StrictlySortedUnique(names, MockIngredientNames);
    assert MockIngredientNames[1] == "あまいミツ" && MockIngredientNames[4] == "マメミート";
  }

  /** `extractIngredients([])` is empty. */
  method ExtractNoIngredients() returns (names: seq<string>)
    ensures names == []
  {
    names := ExtractIngredients([]);
    assert NamesIn([]) == {};
  }
}
