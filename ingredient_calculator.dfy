/**
 * The calculator's state: the chosen recipes with their quantities, the pot
 * capacity, and whether the saved default pot capacity has been taken over.
 */
module IngredientCalculator {
  import opened Wrappers
  import opened Seqs
  import opened UserSettingsSchema

  /** One chosen recipe and how many times it is to be cooked. */
  datatype SelectedRecipe = SelectedRecipe(recipeId: int, quantity: int)

  /** No recipe is chosen twice. */
  predicate DistinctIds(selection: seq<SelectedRecipe>) {
    forall i, j :: 0 <= i < j < |selection| ==> selection[i].recipeId != selection[j].recipeId
  }

  /** `selection.find(sr => sr.recipeId === recipeId)`: the first entry for the recipe. */
  function FindEntry(selection: seq<SelectedRecipe>, recipeId: int): (r: Option<SelectedRecipe>)
    ensures r.Some? <==> exists i :: 0 <= i < |selection| && selection[i].recipeId == recipeId
    ensures r.Some? ==> r.value.recipeId == recipeId && r.value in selection
    ensures r.Some? ==> exists i :: 0 <= i < |selection| && selection[i] == r.value &&
                                    forall j :: 0 <= j < i ==> selection[j].recipeId != recipeId
  {
    if selection == [] then None
    else if selection[0].recipeId == recipeId then Some(selection[0])
    else
      var r := FindEntry(selection[1..], recipeId);
      assert forall i :: 0 < i < |selection| ==> selection[i] == selection[1..][i - 1];
      if r.Some? then
        var k :| 0 <= k < |selection[1..]| && selection[1..][k] == r.value &&
                 forall j :: 0 <= j < k ==> selection[1..][j].recipeId != recipeId;
        assert selection[k + 1] == r.value;
        assert forall j :: 0 <= j < k + 1 ==> selection[j].recipeId != recipeId;
        r
      else
        r
  }

  /** Drops every entry for the recipe. */
  function RemoveEntry(selection: seq<SelectedRecipe>, recipeId: int): seq<SelectedRecipe> {
    Filter(selection, (sr: SelectedRecipe) => sr.recipeId != recipeId)
  }

  /** Gives every entry for the recipe the quantity `quantity`, leaving the rest untouched. */
  function SetQuantity(selection: seq<SelectedRecipe>, recipeId: int, quantity: int): seq<SelectedRecipe> {
    seq(|selection|, i requires 0 <= i < |selection| =>
      if selection[i].recipeId == recipeId then selection[i].(quantity := quantity) else selection[i])
  }

  /**
   * The selection after the quantity of a recipe is set to `quantity`: removed
   * when `quantity` is 0 or less, otherwise updated in place or appended, with
   * the quantity passed through `clamp` (the calculator's `clampQuantity`).
   */
  function UpdateSelection(selection: seq<SelectedRecipe>, recipeId: int, quantity: int, clamp: int -> int)
    : (r: seq<SelectedRecipe>)
    ensures quantity <= 0 ==> forall sr :: sr in r ==> sr.recipeId != recipeId
    ensures quantity > 0 ==> SelectedRecipe(recipeId, clamp(quantity)) in r
    ensures forall sr: SelectedRecipe :: sr.recipeId != recipeId ==> (sr in r <==> sr in selection)
  {
    if quantity <= 0 then RemoveEntry(selection, recipeId)
    else if FindEntry(selection, recipeId).Some? then
      var r := SetQuantity(selection, recipeId, clamp(quantity));
      var i :| 0 <= i < |selection| && selection[i].recipeId == recipeId;
      assert r[i] == SelectedRecipe(recipeId, clamp(quantity));
      assert forall k :: 0 <= k < |selection| && selection[k].recipeId != recipeId ==> r[k] == selection[k];
      r
    else selection + [SelectedRecipe(recipeId, clamp(quantity))]
  }

  /** A quantity of 0 or less removes the recipe and keeps every other entry, in order. */
  lemma UpdateNonPositiveRemoves(selection: seq<SelectedRecipe>, recipeId: int, quantity: int, clamp: int -> int)
    requires quantity <= 0
    ensures forall sr :: sr in UpdateSelection(selection, recipeId, quantity, clamp) <==>
              sr in selection && sr.recipeId != recipeId
    ensures IsSubsequence(UpdateSelection(selection, recipeId, quantity, clamp), selection)
    ensures FindEntry(UpdateSelection(selection, recipeId, quantity, clamp), recipeId) == None
  {
  }

  /** A positive quantity for a chosen recipe replaces only that recipe's quantity, in place. */
  lemma UpdateExistingReplaces(selection: seq<SelectedRecipe>, recipeId: int, quantity: int, clamp: int -> int)
    requires quantity > 0
    requires exists i :: 0 <= i < |selection| && selection[i].recipeId == recipeId
    ensures |UpdateSelection(selection, recipeId, quantity, clamp)| == |selection|
    ensures forall i :: 0 <= i < |selection| ==>
              var sr := UpdateSelection(selection, recipeId, quantity, clamp)[i];
              sr.recipeId == selection[i].recipeId &&
              sr.quantity == if selection[i].recipeId == recipeId then clamp(quantity) else selection[i].quantity
  {
  }

  /** A positive quantity for a recipe not yet chosen appends one entry at the end. */
  lemma UpdateNewAppends(selection: seq<SelectedRecipe>, recipeId: int, quantity: int, clamp: int -> int)
    requires quantity > 0
    requires forall i :: 0 <= i < |selection| ==> selection[i].recipeId != recipeId
    ensures UpdateSelection(selection, recipeId, quantity, clamp) == selection + [SelectedRecipe(recipeId, clamp(quantity))]
  {
  }

  lemma {:induction false} RemoveEntryKeepsDistinct(selection: seq<SelectedRecipe>, recipeId: int)
    requires DistinctIds(selection)
    ensures DistinctIds(RemoveEntry(selection, recipeId))
  {
    var p := (sr: SelectedRecipe) => sr.recipeId != recipeId;
    if selection != [] {
      var tail := selection[1..];
      assert DistinctIds(tail) by {
        forall i, j | 0 <= i < j < |tail| ensures tail[i].recipeId != tail[j].recipeId {
          assert tail[i] == selection[i + 1] && tail[j] == selection[j + 1];
        }
      }
      RemoveEntryKeepsDistinct(tail, recipeId);
      var rest := Filter(tail, p);
      if p(selection[0]) {
        var r := [selection[0]] + rest;
        forall i, j | 0 <= i < j < |r| ensures r[i].recipeId != r[j].recipeId {
          if i == 0 {
            assert r[j] in tail;
            var k :| 0 <= k < |tail| && tail[k] == r[j];
            assert selection[k + 1] == r[j];
          } else {
            assert r[i] == rest[i - 1] && r[j] == rest[j - 1];
          }
        }
      }
    }
  }

  /** Every update keeps the recipes of the selection distinct. */
  lemma UpdateKeepsDistinct(selection: seq<SelectedRecipe>, recipeId: int, quantity: int, clamp: int -> int)
    requires DistinctIds(selection)
    ensures DistinctIds(UpdateSelection(selection, recipeId, quantity, clamp))
  {
    if quantity <= 0 {
      RemoveEntryKeepsDistinct(selection, recipeId);
    }
  }

  /**
   * Non-positive requests are never stored: when `clamp` turns positive numbers
   * into positive numbers, all stored quantities stay positive.
   */
  lemma UpdateKeepsQuantitiesPositive(selection: seq<SelectedRecipe>, recipeId: int, quantity: int, clamp: int -> int)
    requires forall q :: q > 0 ==> clamp(q) > 0
    requires forall i :: 0 <= i < |selection| ==> selection[i].quantity > 0
    ensures forall sr :: sr in UpdateSelection(selection, recipeId, quantity, clamp) ==> sr.quantity > 0
  {
  }

  lemma {:induction false} FindAfterRemove(selection: seq<SelectedRecipe>, recipeId: int, other: int)
    requires other != recipeId
    ensures FindEntry(RemoveEntry(selection, recipeId), other) == FindEntry(selection, other)
  {
    if selection != [] {
      FindAfterRemove(selection[1..], recipeId, other);
    }
  }

  lemma {:induction false} FindAfterSet(selection: seq<SelectedRecipe>, recipeId: int, quantity: int, other: int)
    ensures FindEntry(SetQuantity(selection, recipeId, quantity), other) ==
            if other == recipeId then
              (if FindEntry(selection, recipeId).Some? then Some(SelectedRecipe(recipeId, quantity)) else None)
            else FindEntry(selection, other)
  {
    if selection != [] {
      assert SetQuantity(selection, recipeId, quantity)[1..] == SetQuantity(selection[1..], recipeId, quantity);
      FindAfterSet(selection[1..], recipeId, quantity, other);
    }
  }

  lemma {:induction false} FindAfterAppend(selection: seq<SelectedRecipe>, entry: SelectedRecipe, other: int)
    ensures FindEntry(selection + [entry], other) ==
            if FindEntry(selection, other).Some? then FindEntry(selection, other)
            else if entry.recipeId == other then Some(entry) else None
  {
    if selection != [] {
      assert (selection + [entry])[1..] == selection[1..] + [entry];
      FindAfterAppend(selection[1..], entry, other);
    }
  }

  /**
   * Seen as a lookup from recipe to entry, an update changes the looked-up
   * recipe only: it is gone after a non-positive quantity and has the clamped
   * quantity after a positive one; every other recipe looks up as before.
   */
  lemma UpdateLookup(selection: seq<SelectedRecipe>, recipeId: int, quantity: int, clamp: int -> int, other: int)
    ensures FindEntry(UpdateSelection(selection, recipeId, quantity, clamp), other) ==
            if other != recipeId then FindEntry(selection, other)
            else if quantity <= 0 then None
            else Some(SelectedRecipe(recipeId, clamp(quantity)))
  {
    if quantity <= 0 {
      if other != recipeId {
        FindAfterRemove(selection, recipeId, other);
      }
    } else if FindEntry(selection, recipeId).Some? {
      FindAfterSet(selection, recipeId, clamp(quantity), other);
    } else {
      FindAfterAppend(selection, SelectedRecipe(recipeId, clamp(quantity)), other);
    }
  }

  class IngredientCalculator {
    var selectedRecipes: seq<SelectedRecipe>
    var potCapacity: Option<int>
    var hasInitialized: bool

    ghost predicate Valid()
      reads this
    {
      DistinctIds(selectedRecipes)
    }

    constructor ()
      ensures Valid()
      ensures selectedRecipes == [] && potCapacity == None && !hasInitialized
    {
      selectedRecipes := [];
      potCapacity := None;
      hasInitialized := false;
    }

    /**
     * Takes over the saved default pot capacity, once: on the first call after
     * the settings have loaded. Later calls change nothing.
     */
    method InitializeFromSettings(isLoaded: bool, settings: UserSettings)
      requires Valid()
      modifies this
      ensures Valid()
      ensures selectedRecipes == old(selectedRecipes)
      ensures if isLoaded && !old(hasInitialized)
              then potCapacity == settings.potCapacity && hasInitialized
              else potCapacity == old(potCapacity) && hasInitialized == old(hasInitialized)
    {
      if isLoaded && !hasInitialized {
        potCapacity := settings.potCapacity;
        hasInitialized := true;
      }
    }

    /** `handleQuantityChange` */
    method HandleQuantityChange(recipeId: int, quantity: int, clamp: int -> int)
      requires Valid()
      modifies this
      ensures Valid()
      ensures selectedRecipes == UpdateSelection(old(selectedRecipes), recipeId, quantity, clamp)
      ensures potCapacity == old(potCapacity) && hasInitialized == old(hasInitialized)
    {
      UpdateKeepsDistinct(selectedRecipes, recipeId, quantity, clamp);
      selectedRecipes := UpdateSelection(selectedRecipes, recipeId, quantity, clamp);
    }

    /** `handlePotCapacityChange` */
    method HandlePotCapacityChange(capacity: Option<int>)
      requires Valid()
      modifies this
      ensures Valid()
      ensures potCapacity == capacity
      ensures selectedRecipes == old(selectedRecipes) && hasInitialized == old(hasInitialized)
    {
      potCapacity := capacity;
    }

    /** `handleReset`: empties the selection and keeps the pot capacity. */
    method HandleReset()
      requires Valid()
      modifies this
      ensures Valid()
      ensures selectedRecipes == []
      ensures potCapacity == old(potCapacity) && hasInitialized == old(hasInitialized)
    {
      selectedRecipes := [];
    }
  }

  /**
   * A fresh calculator takes the pot capacity of the first loaded settings and
   * keeps it when the settings change afterwards.
   */
  method InitializedOnce(first: UserSettings, later: UserSettings) returns (potCapacity: Option<int>)
    ensures potCapacity == first.potCapacity
  {
    var calculator := new IngredientCalculator();
    calculator.InitializeFromSettings(false, later);
    calculator.InitializeFromSettings(true, first);
    calculator.InitializeFromSettings(true, later);
    potCapacity := calculator.potCapacity;
  }
}
