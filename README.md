# hashibiroko web catalogue — a Dafny model

This project models the catalogue and UI logic of the hashibiroko web app, a guide
site for a sleep-tracking game. It covers:

- the recipe schema;
- the recipe queries: ingredient extraction, total ingredient count, and the filters
  by type, by ingredients and combined;
- the pot-capacity preset table, the user-settings schema and the rank presets;
- the settings dialog: the rank stepper, the rank slider and the pot-capacity select;
- the calculator's selection state (quantities per chosen recipe, pot capacity,
  one-time take-over of the saved default);
- the recipe filter panel: ingredient toggling, which buttons show as pressed, and
  the active-filter summary;
- the sidebar's active-link rule.

Modules follow the source files:

| module | source |
|---|---|
| `RecipeSchema` | `apps/web/src/lib/schemas/recipe.ts` |
| `Recipes` | `apps/web/src/lib/data/recipes.ts` |
| `RecipeUtils` | the pot-capacity filter and the sample catalogue, as `apps/web/tests/unit/lib/utils/recipe-utils.test.ts` describes them |
| `PotCapacity` | `apps/web/src/lib/constants/pot-capacity.ts` |
| `UserSettingsSchema` | `apps/web/src/lib/schemas/user-settings.ts` |
| `AccountMenu` | `apps/web/src/components/account-menu.tsx` |
| `IngredientCalculator` | `apps/web/src/components/calculator/ingredient-calculator.tsx` |
| `RecipeFilter` | `apps/web/src/components/recipes/recipe-filter.tsx` |
| `AppSidebar` | `apps/web/src/components/app-sidebar.tsx` |

Four helper modules hold shared pieces:

- `Wrappers`: the `Option` type, which stands for a nullable value.
- `Seqs`: `Filter`, which models `Array.prototype.filter`, with its laws (membership,
  order, length, multiplicities, composition, commutation, idempotence).
- `StringOrder`: the default string order and the insertion step that builds a sorted,
  duplicate-free list.
- `Decimal`: numbers written as decimal strings and parsed back.

The parts of a component that change state are classes with the component's state
as fields: `AccountMenu.AccountMenu`, `IngredientCalculator.IngredientCalculator` and
`RecipeFilter.IngredientPanel`. `extractIngredients` loops over the catalogue to build
a set and then sorts it, so it is a method with loop invariants. It is proved against
a ghost specification (`NamesIn`) and against the sorted-order predicate.

Points where the model fixes a reading of the code:

- **Sort order.** `extractIngredients` calls `sort()` with no comparator. That orders
  by UTF-16 code units, not by locale, and the model orders by character.
- **What `filterRecipes` covers.** `filterRecipes` applies only the type and ingredient
  filters. The pot-capacity filter is applied separately. `RecipeUtils.TypeAndPotFiltersCommute`
  shows that the order in which the type and pot-capacity filters are applied does not
  matter.
- **No drink button.** `RECIPE_TYPES` in the filter panel has three buttons. The schema's
  fourth type, ドリンク, has none. `RecipeFilter.TypeButtonsPressedExactlyOnce` states
  what happens when drink is selected: no button, not even "すべて", shows as pressed.
- **The sample recipes break the schema.** None of the four recipes in the utility tests'
  sample catalogue has an `effect` field, which the schema requires. The fourth also has
  power 0, which the schema rejects even with an effect added. The model keeps the
  missing field as `None` (`RecipeUtils.MockRecipesAreNotValid`).
- **Toggling twice.** Toggling an ingredient twice keeps the same ingredients chosen, but
  a chosen ingredient is moved to the end of the list. On `["a", "b"]`, toggling `"a"`
  twice gives `["b", "a"]` (`RecipeFilter.ToggleTwiceReorders`).
- **Power when rendering.** The recipe card falls back from `power` to a legacy `energy`
  field, and it is an open question which one the data carries. `energy` is not in the
  schema, so the model has only `power`.

## Model

| member | source | states |
|---|---|---|
| RecipeSchema.ParseRecipeType | apps/web/src/lib/schemas/recipe.ts:3 | the type enum accepts exactly the four names カレー, サラダ, デザート, ドリンク, and the accepted type names the input |
| RecipeSchema.ParseRecipeTypeName | apps/web/src/lib/schemas/recipe.ts:3 | every type's name parses back to that type |
| RecipeSchema.ValidRecipe | apps/web/src/lib/schemas/recipe.ts:5-16 | what validation demands of a record: positive id, non-empty name, positive power, an effect text, positive quantities |
| Recipes.SumQuantities | apps/web/src/lib/data/recipes.ts:52-54 | the quantity sum is 0 for no lines and at least the number of lines when every quantity is positive |
| Recipes.SumQuantitiesAppend | apps/web/src/lib/data/recipes.ts:53 | the sum of a concatenation is the sum of the two parts |
| Recipes.TotalIngredientCount | apps/web/src/lib/data/recipes.ts:52-54 | a recipe without lines counts 0; a schema-valid recipe counts at least its number of lines, and more than 0 when it has lines |
| Recipes.TotalIngredientCountSplit | apps/web/src/lib/data/recipes.ts:52-54 | the count of a recipe is the count of its first k lines plus the count of the rest |
| Recipes.LineNames | apps/web/src/lib/data/recipes.ts:72 | a name is among a recipe's line names exactly when some line carries it, which is what `includes` tests; one name per line, in line order |
| Recipes.ExtractIngredients | apps/web/src/lib/data/recipes.ts:37-47 | the result is strictly ascending and duplicate-free; a name is in it exactly when some line of some recipe has that name; it is empty exactly when no recipe has a line |
| StringOrder.Insert | apps/web/src/lib/data/recipes.ts:46 | inserting into a strictly sorted list keeps it strictly sorted, adds exactly the new name, and adds one element only when the name was absent |
| StringOrder.StrictlySortedUnique | apps/web/src/lib/data/recipes.ts:46 | two strictly sorted lists with the same members are equal, so the sorted result is determined by the set of names |
| StringOrder.LessTransitive | apps/web/src/lib/data/recipes.ts:46 | the string order is transitive |
| StringOrder.LessTotal | apps/web/src/lib/data/recipes.ts:46 | any two different strings are ordered one way or the other |
| StringOrder.LessIrreflexive | apps/web/src/lib/data/recipes.ts:46 | no string is less than itself |
| StringOrder.StrictlySortedNoDup | apps/web/src/lib/data/recipes.ts:46 | a strictly sorted list has no duplicates |
| Decimal.ParseNatToString | apps/web/src/components/account-menu.tsx:123-132 | a number written as the option value of a select and read back with `Number` is that number |
| Seqs.Filter | apps/web/src/lib/data/recipes.ts:60 | the filtered list holds exactly the elements that pass, in their original order, and is no longer than the input |
| Seqs.FilterMultiset | apps/web/src/lib/data/recipes.ts:60 | each passing element keeps its number of occurrences, and each failing one has none |
| Seqs.FilterFilter | apps/web/src/lib/data/recipes.ts:88-100 | filtering twice is filtering once by the conjunction |
| Seqs.FilterCommutes | apps/web/src/lib/data/recipes.ts:88-100 | two filters can be applied in either order |
| Recipes.FilterRecipesByType | apps/web/src/lib/data/recipes.ts:59-61 | keeps exactly the recipes of the given type, in catalogue order |
| Recipes.FilterRecipesByIngredients | apps/web/src/lib/data/recipes.ts:66-75 | an empty ingredient list keeps the catalogue unchanged; otherwise it keeps exactly the recipes that use every listed ingredient, in catalogue order |
| Recipes.HasAllIngredients | apps/web/src/lib/data/recipes.ts:72-73 | the AND condition: every requested name is among the recipe's line names |
| Recipes.NoLinesDropped | apps/web/src/lib/data/recipes.ts:71-74 | a recipe with no ingredient lines is never kept by a non-empty ingredient request |
| Recipes.FilterRecipes | apps/web/src/lib/data/recipes.ts:88-100 | keeps exactly the recipes that match the options (type when set, ingredients when set and non-empty); with no options set, the catalogue is unchanged |
| Recipes.FilterRecipesIsFilter | apps/web/src/lib/data/recipes.ts:88-100 | the combined filter is a single filter by the options predicate, so it never reorders or duplicates |
| Recipes.FilterRecipesSubsequence | apps/web/src/lib/data/recipes.ts:88-100 | the combined filter returns a subsequence of the catalogue |
| Recipes.TypeAndIngredientFiltersCommute | apps/web/src/lib/data/recipes.ts:59-75 | filtering by type then ingredients gives the same list as ingredients then type |
| Recipes.FilterRecipesByTypeIdempotent | apps/web/src/lib/data/recipes.ts:59-61 | filtering twice by the same type changes nothing more |
| Recipes.FilterRecipesByIngredientsIdempotent | apps/web/src/lib/data/recipes.ts:66-75 | filtering twice by the same ingredients changes nothing more |
| RecipeUtils.FilterRecipesByPotCapacity | apps/web/tests/unit/lib/utils/recipe-utils.test.ts:102-146 | an unset, zero or negative capacity keeps the catalogue; otherwise it keeps exactly the recipes whose ingredient count fits the pot, in order |
| RecipeUtils.PotCapacityBoundary | apps/web/tests/unit/lib/utils/recipe-utils.test.ts:125-129 | a recipe whose count equals the capacity is kept, and one count more is dropped |
| RecipeUtils.LargePotKeepsAll | apps/web/tests/unit/lib/utils/recipe-utils.test.ts:137-140 | a capacity at least every recipe's count keeps the whole catalogue |
| RecipeUtils.TypeAndPotFiltersCommute | apps/web/tests/unit/components/recipes/recipes-page-content.test.tsx:99-118 | the type filter and the pot-capacity filter can be applied in either order |
| RecipeUtils.MockCounts | apps/web/tests/unit/lib/utils/recipe-utils.test.ts:59-71 | the sample recipes count 7, 11, 50 and 0 ingredients |
| RecipeUtils.MockRecipesAreNotValid | apps/web/tests/unit/lib/utils/recipe-utils.test.ts:12-55 | no sample recipe has an effect field, so none passes validation; with an effect added the first three would pass and the fourth would still fail on power 0 |
| RecipeUtils.PotCapacityUnsetKeepsAll | apps/web/tests/unit/lib/utils/recipe-utils.test.ts:103-116 | with no capacity, 0 or -10, all four sample recipes are kept |
| RecipeUtils.PotCapacityTenKeepsSevenAndZero | apps/web/tests/unit/lib/utils/recipe-utils.test.ts:118-123 | capacity 10 keeps exactly the recipes counting 7 and 0 |
| RecipeUtils.PotCapacityElevenIncludesExactMatch | apps/web/tests/unit/lib/utils/recipe-utils.test.ts:125-129 | capacity 11 keeps exactly the recipes counting 7, 11 and 0 |
| RecipeUtils.PotCapacityOneKeepsOnlyEmptyRecipe | apps/web/tests/unit/lib/utils/recipe-utils.test.ts:131-135 | capacity 1 keeps only the recipe without ingredients |
| RecipeUtils.PotCapacityLargeKeepsAll | apps/web/tests/unit/lib/utils/recipe-utils.test.ts:137-140 | capacity 999 keeps all four recipes |
| RecipeUtils.PotCapacityEmptyCatalogue | apps/web/tests/unit/lib/utils/recipe-utils.test.ts:142-145 | an empty catalogue stays empty for every capacity, 50 (the tested one) included |
| RecipeUtils.IngredientFilterMameMeat | apps/web/tests/unit/lib/utils/recipe-utils.test.ts:88-100 | asking for マメミート keeps exactly recipes 2 and 3, and an empty list keeps all four |
| RecipeUtils.CurryWithinTwentyOne | apps/web/tests/unit/components/recipes/recipes-page-content.test.tsx:54-118 | on the page's three-recipe catalogue, curries within capacity 21 give only the 11-ingredient curry, and capacity 15 alone keeps the recipes counting 7 and 11 |
| RecipeUtils.ExtractMockIngredients | apps/web/tests/unit/lib/utils/recipe-utils.test.ts:74-80 | the sample catalogue's ingredient list includes あまいミツ and マメミート and has no duplicates; it is exactly the six names, and their ascending order comes from the sort in `extractIngredients` |
| RecipeUtils.ExtractNoIngredients | apps/web/tests/unit/lib/utils/recipe-utils.test.ts:82-85 | an empty catalogue has no ingredients |
| PotCapacity.PresetsFollowPattern | apps/web/src/lib/constants/pot-capacity.ts:12-21 | there are eight presets, level i+1 at position i, with capacity 15 + 6 per level above 1 |
| PotCapacity.PresetLabelsSpellLevelAndCapacity | apps/web/src/lib/constants/pot-capacity.ts:12-21 | each label reads "Lv.{level} ({capacity})", and levels and capacities are positive |
| PotCapacity.CapacitiesStrictlyIncrease | apps/web/src/lib/constants/pot-capacity.ts:12-21 | capacities strictly increase with the level, so no two presets share a capacity |
| PotCapacity.LabelsDistinct | apps/web/src/lib/constants/pot-capacity.ts:12-21 | no two presets share a label |
| UserSettingsSchema.ValidRank | apps/web/src/lib/schemas/user-settings.ts:31 | a rank is unset or a whole number from 1 to 60 |
| UserSettingsSchema.ValidPotCapacity | apps/web/src/lib/schemas/user-settings.ts:33 | a pot capacity is unset or a positive whole number |
| UserSettingsSchema.ValidSettings | apps/web/src/lib/schemas/user-settings.ts:29-34 | settings are valid when both fields are |
| UserSettingsSchema.DefaultSettingsValid | apps/web/src/lib/schemas/user-settings.ts:41-44 | the default settings (both unset) satisfy the schema |
| UserSettingsSchema.RankPresetsFollowPattern | apps/web/src/lib/schemas/user-settings.ts:7-14 | six rank bands, each labelled "ランク {10k-9}-{10k}" with value 10k, all valid ranks |
| UserSettingsSchema.PotCapacityValues | apps/web/src/lib/schemas/user-settings.ts:21-24 | one value per preset, in preset order, non-empty exactly when the presets are |
| UserSettingsSchema.PotCapacityValuesValid | apps/web/src/lib/schemas/user-settings.ts:21-33 | when every preset value is positive, each listed value is a valid pot-capacity setting |
| AccountMenu.IncrementedRank | apps/web/src/components/account-menu.tsx:36-41 | "+" always leaves a rank set, never lowers it, and never goes past 60 from a rank of at most 60 |
| AccountMenu.DecrementedRank | apps/web/src/components/account-menu.tsx:43-50 | "-" either unsets the rank or leaves one that is at least 1 and below the old rank |
| AccountMenu.IncrementDisabled | apps/web/src/components/account-menu.tsx:93 | the "+" button is disabled at rank 60 |
| AccountMenu.DecrementDisabled | apps/web/src/components/account-menu.tsx:80 | the "-" button is disabled when no rank is set |
| AccountMenu.SliderPosition | apps/web/src/components/account-menu.tsx:104 | the slider shows a set rank as itself and an unset one as 1, so a valid rank always lies on the slider's 1..60 range |
| AccountMenu.IncrementSteps | apps/web/src/components/account-menu.tsx:36-41 | "+" from unset gives 1, below 60 adds one, and at 60 stays at 60 |
| AccountMenu.DecrementSteps | apps/web/src/components/account-menu.tsx:43-50 | "-" above 1 subtracts one, and at 1 or unset gives unset |
| AccountMenu.StepsPreserveValidRank | apps/web/src/components/account-menu.tsx:36-50 | both steps keep a rank within the schema's 1..60 or unset |
| AccountMenu.StepsUndoEachOther | apps/web/src/components/account-menu.tsx:36-50 | "-" undoes "+" below the top rank and from unset; "+" undoes "-" on every set valid rank |
| AccountMenu.DisabledExactlyWhenNoEffect | apps/web/src/components/account-menu.tsx:80-93 | on a valid rank, a stepper button is disabled exactly when pressing it would change nothing |
| AccountMenu.PotCapacityOption | apps/web/src/components/account-menu.tsx:123 | the select shows "" exactly for an unset capacity, and a decimal numeral otherwise |
| AccountMenu.ParsePotCapacityOption | apps/web/src/components/account-menu.tsx:126 | the empty option unsets the capacity, and a numeral sets a non-negative one |
| AccountMenu.PotCapacityOptionInjective | apps/web/src/components/account-menu.tsx:123-132 | two different valid settings never show as the same option |
| AccountMenu.PotCapacityOptionRoundTrip | apps/web/src/components/account-menu.tsx:123-132 | choosing the option shown for a setting saves that same setting |
| AccountMenu.AccountMenu.constructor | apps/web/src/components/account-menu.tsx:19 | the dialog starts from the saved settings |
| AccountMenu.AccountMenu.HandleRankChange | apps/web/src/components/account-menu.tsx:21-24 | saves the rank and keeps the pot capacity |
| AccountMenu.AccountMenu.HandlePotCapacityChange | apps/web/src/components/account-menu.tsx:26-29 | saves the pot capacity and keeps the rank |
| AccountMenu.AccountMenu.IncrementRank | apps/web/src/components/account-menu.tsx:36-41 | the rank becomes the incremented rank, the pot capacity is kept, and valid settings stay valid |
| AccountMenu.AccountMenu.DecrementRank | apps/web/src/components/account-menu.tsx:43-50 | the rank becomes the decremented rank, the pot capacity is kept, and valid settings stay valid |
| AccountMenu.AccountMenu.HandleRankSlider | apps/web/src/components/account-menu.tsx:105-108 | the slider's decimal value becomes the rank, the pot capacity is kept, and a value within 1..60 keeps valid settings valid |
| AccountMenu.AccountMenu.HandlePotCapacitySelect | apps/web/src/components/account-menu.tsx:124-127 | "" unsets the pot capacity, a numeral sets it to its value, and the rank is kept |
| IngredientCalculator.FindEntry | apps/web/src/components/calculator/ingredient-calculator.tsx:63 | an entry is found exactly when the selection has one for the recipe, and the found entry is the first one for that recipe |
| IngredientCalculator.UpdateSelection | apps/web/src/components/calculator/ingredient-calculator.tsx:57-75 | after a non-positive quantity no entry for the recipe is left; after a positive one the recipe is there with the clamped quantity; entries for other recipes are exactly those before |
| IngredientCalculator.UpdateNonPositiveRemoves | apps/web/src/components/calculator/ingredient-calculator.tsx:58-61 | a quantity of 0 or less drops the recipe and keeps every other entry in order |
| IngredientCalculator.UpdateExistingReplaces | apps/web/src/components/calculator/ingredient-calculator.tsx:63-70 | a positive quantity for a chosen recipe sets its clamped quantity in place and keeps length and the other entries |
| IngredientCalculator.UpdateNewAppends | apps/web/src/components/calculator/ingredient-calculator.tsx:74 | a positive quantity for an unchosen recipe appends it with the clamped quantity |
| IngredientCalculator.RemoveEntryKeepsDistinct | apps/web/src/components/calculator/ingredient-calculator.tsx:60 | dropping a recipe keeps the selection free of repeated recipes |
| IngredientCalculator.UpdateKeepsDistinct | apps/web/src/components/calculator/ingredient-calculator.tsx:55-78 | an update never makes a recipe appear twice |
| IngredientCalculator.UpdateKeepsQuantitiesPositive | apps/web/src/components/calculator/ingredient-calculator.tsx:55-78 | with a clamp that keeps positives positive, every stored quantity stays positive |
| IngredientCalculator.FindAfterRemove | apps/web/src/components/calculator/ingredient-calculator.tsx:60 | dropping one recipe does not change the lookup of another |
| IngredientCalculator.FindAfterSet | apps/web/src/components/calculator/ingredient-calculator.tsx:65-69 | setting one recipe's quantity changes only that recipe's lookup |
| IngredientCalculator.FindAfterAppend | apps/web/src/components/calculator/ingredient-calculator.tsx:74 | appending a new recipe changes only that recipe's lookup |
| IngredientCalculator.UpdateLookup | apps/web/src/components/calculator/ingredient-calculator.tsx:55-78 | after an update the recipe is absent (non-positive quantity) or has the clamped quantity, and every other recipe looks up as before |
| IngredientCalculator.IngredientCalculator.constructor | apps/web/src/components/calculator/ingredient-calculator.tsx:24-26 | starts with no chosen recipes, no pot capacity and the default not yet taken over |
| IngredientCalculator.IngredientCalculator.InitializeFromSettings | apps/web/src/components/calculator/ingredient-calculator.tsx:29-34 | the first call after loading takes over the saved pot capacity; every other call changes nothing |
| IngredientCalculator.IngredientCalculator.HandleQuantityChange | apps/web/src/components/calculator/ingredient-calculator.tsx:55-78 | the selection becomes the updated selection, no recipe appears twice, and the pot capacity is kept |
| IngredientCalculator.IngredientCalculator.HandlePotCapacityChange | apps/web/src/components/calculator/ingredient-calculator.tsx:81-83 | sets the pot capacity and keeps the selection |
| IngredientCalculator.IngredientCalculator.HandleReset | apps/web/src/components/calculator/ingredient-calculator.tsx:86-88 | empties the selection and keeps the pot capacity |
| IngredientCalculator.InitializedOnce | apps/web/src/components/calculator/ingredient-calculator.tsx:29-34 | a calculator keeps the pot capacity of the first loaded settings when later settings arrive |
| RecipeFilter.ToggleIngredient | apps/web/src/components/recipes/recipe-filter.tsx:36-42 | after a toggle the ingredient is chosen exactly when it was not before, and every other ingredient keeps its state |
| RecipeFilter.ClearedIngredients | apps/web/src/components/recipes/recipe-filter.tsx:44-46 | the cleared list lets every recipe through the ingredient filter, and toggling any ingredient on it gives a list of just that ingredient |
| RecipeFilter.ClearingResetsIngredientFilter | apps/web/src/components/recipes/recipe-filter.tsx:44-46 | after clearing (`ClearedIngredients`), the ingredient filter and the combined filter keep every recipe, the summary is hidden when no other filter is set, and the next toggle starts a one-element list |
| RecipeFilter.ToggleAbsentAppends | apps/web/src/components/recipes/recipe-filter.tsx:39-40 | toggling an unchosen ingredient appends it |
| RecipeFilter.TogglePresentRemoves | apps/web/src/components/recipes/recipe-filter.tsx:37-38 | toggling a chosen ingredient removes it and keeps the rest in order |
| RecipeFilter.ToggleKeepsNoDup | apps/web/src/components/recipes/recipe-filter.tsx:36-42 | toggling never makes an ingredient appear twice |
| RecipeFilter.ToggleTwice | apps/web/src/components/recipes/recipe-filter.tsx:36-42 | toggling twice restores the list for an unchosen ingredient, moves a chosen one to the end, and always keeps the same members |
| RecipeFilter.ToggleTwiceReorders | apps/web/src/components/recipes/recipe-filter.tsx:36-42 | on ["a", "b"], toggling "a" twice gives ["b", "a"] |
| RecipeFilter.TypeAllPressed | apps/web/src/components/recipes/recipe-filter.tsx:60 | "すべて" shows as pressed when no type is selected |
| RecipeFilter.TypeButtonPressed | apps/web/src/components/recipes/recipe-filter.tsx:71 | a type button shows as pressed when its type is selected |
| RecipeFilter.PotAllPressed | apps/web/src/components/recipes/recipe-filter.tsx:91 | the pot "すべて" shows as pressed when no capacity is chosen |
| RecipeFilter.PotPresetPressed | apps/web/src/components/recipes/recipe-filter.tsx:103 | a preset button shows as pressed when its capacity is chosen |
| RecipeFilter.ShowActiveSummary | apps/web/src/components/recipes/recipe-filter.tsx:186-188 | the summary shows when a type, an ingredient or a capacity is chosen |
| RecipeFilter.TypeButtonsAreRecipeTypes | apps/web/src/components/recipes/recipe-filter.tsx:19-23 | each type button selects a distinct schema type |
| RecipeFilter.TypeButtonsPressedExactlyOnce | apps/web/src/components/recipes/recipe-filter.tsx:59-79 | for every selection except drink, exactly one of "すべて" and the type buttons shows as pressed; drink leaves all unpressed |
| RecipeFilter.PotButtonsPressedAtMostOnce | apps/web/src/components/recipes/recipe-filter.tsx:90-112 | "すべて" pressed means no preset is, and at most one preset is pressed |
| RecipeFilter.SummaryShownUnlessAllCleared | apps/web/src/components/recipes/recipe-filter.tsx:186-188 | the summary is hidden exactly when no type, no ingredient and no capacity is chosen |
| RecipeFilter.HiddenSummaryFiltersNothing | apps/web/src/components/recipes/recipe-filter.tsx:186-188 | with the summary hidden, the panel's filters keep the whole catalogue |
| RecipeFilter.IngredientPanel.constructor | apps/web/src/components/recipes/recipe-filter.tsx:34 | the ingredient list starts collapsed |
| RecipeFilter.IngredientPanel.ToggleShowIngredients | apps/web/src/components/recipes/recipe-filter.tsx:125 | the open/close button flips whether the ingredient list is shown |
| AppSidebar.IsActive | apps/web/src/components/app-sidebar.tsx:24-29 | an active link's href is a prefix of the path, ending at the path's end or at a "/" unless it is the root |
| AppSidebar.RootActiveOnlyAtRoot | apps/web/src/components/app-sidebar.tsx:25-27 | the root link is active exactly on "/" |
| AppSidebar.ActiveOnPageOrBelow | apps/web/src/components/app-sidebar.tsx:28 | a non-root link is active on its own page and on every page below it |
| AppSidebar.SegmentBoundary | apps/web/src/components/app-sidebar.tsx:28 | examples of the "/" boundary: "/recipes" is inactive on "/recipes-list" and active on "/recipes" and "/recipes/3", and the root link is inactive on "/recipes" |

## Left out

- Loading the catalogue (`getAllRecipes`, `getRecipeById`): it reads a JSON file and validates it with the schema library. File I/O and JSON parsing are not part of this model.
- The schema's string-length rule (`min(1)`) counts UTF-16 code units. The model counts characters, which agrees on non-emptiness.
- The calculator's utility functions (`calculateIngredientTotals`, `calculateTotalEnergy`, `getGrandTotal`, `clampQuantity`) and its preset table are not part of this model. `clampQuantity` is a parameter of the update. `UserSettingsSchema.PotCapacityValues` takes the preset table as a parameter.
- UserSettingsSchema.PotCapacityValues: non-emptiness, which the source asserts with a type cast, is proved only relative to the preset list passed in, because the calculator's preset table is not part of this model.
- RecipeUtils.FilterRecipesByPotCapacity: its implementation file is not part of this model. The function is written from the behaviour its unit tests fix: with no capacity, 0 or a negative one, every recipe is kept; otherwise recipes whose ingredient count is at most the capacity are kept, in order.
- Settings persistence (the `useUserSettings` hook, local storage, `resetSettings`, the dialog's reset button). `setSettings` is modelled as replacing the named field and keeping the other.
- Rendering, toasts, dialog open/close state, icons, and React's recomputation of memoised values. The display-only components (cards, lists, berry and island pages) are not modelled.
- Number semantics: JavaScript numbers are doubles but are modelled as unbounded integers. Ids and quantities are whole numbers, as the schema demands. Power is modelled as an integer, although the schema accepts any positive number.
- RecipeUtils.ExtractMockIngredients: the utility tests import `extractIngredients`, `filterRecipesByIngredients`, `filterRecipesByPotCapacity` and `getTotalIngredientCount` from a `recipe-utils` module that is not part of this model. The model checks those tests against its versions of the `recipes.ts` functions of the same names, on the assumption that the two modules agree. The same holds for `RecipeUtils.MockCounts`, `RecipeUtils.IngredientFilterMameMeat` and `RecipeUtils.ExtractNoIngredients`.
- RecipeUtils.MockRecipes: the test fixtures carry `ingredientCount` and `energy` fields, which the schema does not know and the model drops.
- AccountMenu.AccountMenu.HandleRankSlider: requires the slider's value to be a decimal numeral, which a range input between 1 and 60 always delivers. `parseInt` on other text (NaN, partial parses) is not modelled.
- AccountMenu.AccountMenu.HandlePotCapacitySelect: requires the value to be "" or a decimal numeral, which every option of the select is. `Number` on other text is not modelled.
- String order: JavaScript sorts by UTF-16 code units, while the model compares Unicode characters. The two orders agree on the Basic Multilingual Plane, which holds every ingredient name in the sources and test fixtures. They differ only between characters above U+FFFF and characters in U+E000–U+FFFF.
- The selected type's truthiness test in `filterRecipes` is modelled as "a type is set". Every type name is a non-empty string, so the two agree.
- The legacy `energy` field that the recipe card falls back to is not in the schema and is not modelled.
