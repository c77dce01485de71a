/** The recipe catalogue operations: ingredient counts, the ingredient list and the filters. */
module Recipes {
  import opened Wrappers
  import opened Seqs
  import opened StringOrder
  import opened RecipeSchema

  /** The quantities of `lines` added up from the left, starting at 0. */
  function SumQuantities(lines: seq<IngredientLine>): (n: int)
    ensures lines == [] ==> n == 0
    ensures (forall i :: 0 <= i < |lines| ==> ValidLine(lines[i])) ==> n >= |lines|
  {
    if lines == [] then 0
    else SumQuantities(lines[..|lines| - 1]) + lines[|lines| - 1].quantity
  }

  lemma {:induction false} SumQuantitiesAppend(a: seq<IngredientLine>, b: seq<IngredientLine>)
    ensures SumQuantities(a + b) == SumQuantities(a) + SumQuantities(b)
    decreases |b|
  {
    if b == [] {
      assert a + b == a;
    } else {
      var b' := b[..|b| - 1];
      assert (a + b)[..|a + b| - 1] == a + b';
      SumQuantitiesAppend(a, b');
    }
  }

  /** The total number of ingredients a recipe needs. */
  function TotalIngredientCount(recipe: Recipe): (n: int)
    ensures recipe.ingredients == [] ==> n == 0
    ensures ValidRecipe(recipe) ==> n >= |recipe.ingredients|
    ensures ValidRecipe(recipe) && recipe.ingredients != [] ==> n > 0
  {
    SumQuantities(recipe.ingredients)
  }

  /** Adding a line to a recipe adds its quantity to the count, whatever its position. */
  lemma TotalIngredientCountSplit(recipe: Recipe, k: nat)
    requires k <= |recipe.ingredients|
    ensures TotalIngredientCount(recipe) ==
            SumQuantities(recipe.ingredients[..k]) + SumQuantities(recipe.ingredients[k..])
  {
    assert recipe.ingredients == recipe.ingredients[..k] + recipe.ingredients[k..];
    SumQuantitiesAppend(recipe.ingredients[..k], recipe.ingredients[k..]);
  }

  /** `recipe.ingredients.map(i => i.name)` */
  function LineNames(lines: seq<IngredientLine>): (names: seq<string>)
    ensures |names| == |lines|
    ensures forall i :: 0 <= i < |lines| ==> names[i] == lines[i].name
    ensures forall n :: n in names <==> exists line :: line in lines && line.name == n
  {
    seq(|lines|, i requires 0 <= i < |lines| => lines[i].name)
  }

  /** Every name that occurs in some ingredient line of some recipe. */
  ghost function NamesIn(recipes: seq<Recipe>): set<string> {
    set r, line | r in recipes && line in r.ingredients :: line.name
  }

  /**
   * `extractIngredients`: collects the names into a set (a list without
   * repetitions, in first-seen order) and sorts it.
   */
  method ExtractIngredients(recipes: seq<Recipe>) returns (names: seq<string>)
    ensures StrictlySorted(names)
    ensures NoDup(names)
    ensures forall n :: n in names <==> n in NamesIn(recipes)
    ensures names == [] <==> NamesIn(recipes) == {}
  {
    var ingredientSet: seq<string> := [];
    for i := 0 to |recipes|
      invariant NoDup(ingredientSet)
      invariant forall n :: n in ingredientSet <==> n in NamesIn(recipes[..i])
    {
      var lines := recipes[i].ingredients;
      for j := 0 to |lines|
        invariant NoDup(ingredientSet)
        invariant forall n :: n in ingredientSet <==>
                    n in NamesIn(recipes[..i]) || exists k :: 0 <= k < j && lines[k].name == n
      {
        if lines[j].name !in ingredientSet {
          ingredientSet := ingredientSet + [lines[j].name];
        }
      }
      assert recipes[..i + 1] == recipes[..i] + [recipes[i]];
      forall n ensures n in NamesIn(recipes[..i + 1]) <==>
                       n in NamesIn(recipes[..i]) || exists k :: 0 <= k < |lines| && lines[k].name == n
      {
        if n in NamesIn(recipes[..i + 1]) {
          var r, line :| r in recipes[..i + 1] && line in r.ingredients && line.name == n;
          if r == recipes[i] {
            var k :| 0 <= k < |lines| && lines[k] == line;
          } else {
            assert r in recipes[..i];
          }
        }
        if exists k :: 0 <= k < |lines| && lines[k].name == n {
          var k :| 0 <= k < |lines| && lines[k].name == n;
          assert recipes[i] in recipes[..i + 1] && lines[k] in recipes[i].ingredients;
        }
      }
    }
    assert recipes[..|recipes|] == recipes;
    names := [];
    for k := 0 to |ingredientSet|
      invariant StrictlySorted(names)
      invariant forall n :: n in names <==> n in ingredientSet[..k]
    {
      assert ingredientSet[..k + 1] == ingredientSet[..k] + [ingredientSet[k]];
      names := Insert(names, ingredientSet[k]);
    }
    assert ingredientSet[..|ingredientSet|] == ingredientSet;
    StrictlySortedNoDup(names);
    assert names != [] ==> names[0] in names;
  }

  /** `filterRecipesByType`: the recipes of type `t`, as a subsequence in catalogue order. */
  function FilterRecipesByType(recipes: seq<Recipe>, t: RecipeType): (r: seq<Recipe>)
    ensures forall x :: x in r <==> x in recipes && x.recipeType == t
    ensures IsSubsequence(r, recipes)
  {
    Filter(recipes, (x: Recipe) => x.recipeType == t)
  }

  /** Every requested name is among the recipe's ingredient-line names. */
  predicate HasAllIngredients(recipe: Recipe, ingredientNames: seq<string>) {
    forall n :: n in ingredientNames ==> n in LineNames(recipe.ingredients)
  }

  /**
   * `filterRecipesByIngredients`: the recipes that contain every requested name
   * (AND), in catalogue order; the input itself when nothing is requested.
   */
  function FilterRecipesByIngredients(recipes: seq<Recipe>, ingredientNames: seq<string>): (r: seq<Recipe>)
    ensures ingredientNames == [] ==> r == recipes
    ensures forall x :: x in r <==> x in recipes && HasAllIngredients(x, ingredientNames)
    ensures IsSubsequence(r, recipes)
  {
    if |ingredientNames| == 0 then
      assert forall x :: HasAllIngredients(x, ingredientNames);
      FilterAll(recipes, (x: Recipe) => HasAllIngredients(x, ingredientNames));
      recipes
    else
      Filter(recipes, (x: Recipe) => HasAllIngredients(x, ingredientNames))
  }

  /** A recipe without ingredient lines never survives a non-empty ingredient request. */
  lemma NoLinesDropped(recipes: seq<Recipe>, ingredientNames: seq<string>, x: Recipe)
    requires x.ingredients == [] && ingredientNames != []
    ensures x !in FilterRecipesByIngredients(recipes, ingredientNames)
  {
    assert ingredientNames[0] in ingredientNames;
  }

  /** `FilterOptions`: each option may be left out. */
  datatype FilterOptions = FilterOptions(recipeType: Option<RecipeType>, ingredients: Option<seq<string>>)

  /** The combined condition that `filterRecipes` applies to each recipe. */
  predicate MatchesOptions(recipe: Recipe, options: FilterOptions) {
    && (options.recipeType.Some? ==> recipe.recipeType == options.recipeType.value)
    && (options.ingredients.Some? ==> HasAllIngredients(recipe, options.ingredients.value))
  }

  /**
   * `filterRecipes`: the type filter when a type is given, then the ingredient
   * filter when a non-empty ingredient list is given.
   */
  function FilterRecipes(recipes: seq<Recipe>, options: FilterOptions): (r: seq<Recipe>)
    ensures forall x :: x in r <==> x in recipes && MatchesOptions(x, options)
    ensures options.recipeType.None? && (options.ingredients.None? || options.ingredients.value == []) ==>
              r == recipes
  {
    var byType :=
      if options.recipeType.Some? then FilterRecipesByType(recipes, options.recipeType.value) else recipes;
    if options.ingredients.Some? && |options.ingredients.value| > 0 then
      FilterRecipesByIngredients(byType, options.ingredients.value)
    else
      byType
  }

  /** `filterRecipes` is one filter by the combined condition. */
  lemma FilterRecipesIsFilter(recipes: seq<Recipe>, options: FilterOptions)
    ensures FilterRecipes(recipes, options) == Filter(recipes, (x: Recipe) => MatchesOptions(x, options))
  {
    if options.ingredients.Some? && |options.ingredients.value| > 0 {
      if options.recipeType.Some? {
        FilterBothIsFilter(recipes, options);
      } else {
        FilterIngredientsOnlyIsFilter(recipes, options);
      }
    } else {
      if options.recipeType.Some? {
        FilterTypeOnlyIsFilter(recipes, options);
      } else {
        FilterAll(recipes, (x: Recipe) => MatchesOptions(x, options));
      }
    }
  }

  lemma FilterBothIsFilter(recipes: seq<Recipe>, options: FilterOptions)
    requires options.recipeType.Some? && options.ingredients.Some? && |options.ingredients.value| > 0
    ensures FilterRecipes(recipes, options) == Filter(recipes, (x: Recipe) => MatchesOptions(x, options))
  {
    var byType := (x: Recipe) => x.recipeType == options.recipeType.value;
    var byIngredients := (x: Recipe) => HasAllIngredients(x, options.ingredients.value);
    assert FilterRecipes(recipes, options) == Filter(Filter(recipes, byType), byIngredients);
    FilterTwiceIsFilter(recipes, byType, byIngredients, options);
  }

  lemma FilterTwiceIsFilter(recipes: seq<Recipe>, p: Recipe -> bool, q: Recipe -> bool, options: FilterOptions)
    requires forall x :: p(x) && q(x) <==> MatchesOptions(x, options)
    ensures Filter(Filter(recipes, p), q) == Filter(recipes, (x: Recipe) => MatchesOptions(x, options))
  {
    FilterFilter(recipes, p, q);
    FilterCongruent(recipes, (x: Recipe) => p(x) && q(x), (x: Recipe) => MatchesOptions(x, options));
  }

  lemma FilterTypeOnlyIsFilter(recipes: seq<Recipe>, options: FilterOptions)
    requires options.recipeType.Some? && (options.ingredients.None? || options.ingredients.value == [])
    ensures FilterRecipes(recipes, options) == Filter(recipes, (x: Recipe) => MatchesOptions(x, options))
  {
    FilterCongruent(recipes, (x: Recipe) => x.recipeType == options.recipeType.value,
                    (x: Recipe) => MatchesOptions(x, options));
  }

  lemma FilterIngredientsOnlyIsFilter(recipes: seq<Recipe>, options: FilterOptions)
    requires options.recipeType.None? && options.ingredients.Some? && |options.ingredients.value| > 0
    ensures FilterRecipes(recipes, options) == Filter(recipes, (x: Recipe) => MatchesOptions(x, options))
  {
    FilterCongruent(recipes, (x: Recipe) => HasAllIngredients(x, options.ingredients.value),
                    (x: Recipe) => MatchesOptions(x, options));
  }

  /** The result of `filterRecipes` keeps the catalogue order. */
  lemma FilterRecipesSubsequence(recipes: seq<Recipe>, options: FilterOptions)
    ensures IsSubsequence(FilterRecipes(recipes, options), recipes)
    ensures |FilterRecipes(recipes, options)| <= |recipes|
  {
    FilterRecipesIsFilter(recipes, options);
  }

  /** The type filter and the ingredient filter may be applied in either order. */
  lemma TypeAndIngredientFiltersCommute(recipes: seq<Recipe>, t: RecipeType, ingredientNames: seq<string>)
    ensures FilterRecipesByType(FilterRecipesByIngredients(recipes, ingredientNames), t)
         == FilterRecipesByIngredients(FilterRecipesByType(recipes, t), ingredientNames)
  {
    if ingredientNames != [] {
      FilterCommutes(recipes, (x: Recipe) => x.recipeType == t,
                     (x: Recipe) => HasAllIngredients(x, ingredientNames));
    }
  }

  lemma FilterRecipesByTypeIdempotent(recipes: seq<Recipe>, t: RecipeType)
    ensures FilterRecipesByType(FilterRecipesByType(recipes, t), t) == FilterRecipesByType(recipes, t)
  {
    FilterIdempotent(recipes, (x: Recipe) => x.recipeType == t);
  }

  lemma FilterRecipesByIngredientsIdempotent(recipes: seq<Recipe>, ingredientNames: seq<string>)
    ensures FilterRecipesByIngredients(FilterRecipesByIngredients(recipes, ingredientNames), ingredientNames)
         == FilterRecipesByIngredients(recipes, ingredientNames)
  {
    if ingredientNames != [] {
      FilterIdempotent(recipes, (x: Recipe) => HasAllIngredients(x, ingredientNames));
    }
  }
}
