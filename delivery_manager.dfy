/**
 * `DeliveryManager` of `delivery_manager.py`: a bounded list of waiting
 * recipes filled by a countdown, and deliveries that remove the first
 * waiting recipe whose ingredients a plate holds with the same
 * multiplicities. The elapsed time since the previous frame and the
 * recipe `random.choice` picks are parameters; events are returned as
 * outcomes instead of being invoked.
 */
module Delivery {
  import opened Wrappers
  import opened Kitchen

  /** What `update` did. */
  datatype UpdateOutcome =
    | Waited                    // nothing spawned
    | Spawned(recipe: Recipe)   // `on_recipe_spawned` fired with this recipe
    | NoRecipes                 // `random.choice` on an empty list raised `IndexError`

  /** The reasons `on_recipe_failed` reports. */
  datatype FailReason = NoPlate | EmptyPlate | NoMatchingRecipe | Unhashable

  /** What `deliver_recipe` reported. */
  datatype Delivery =
    | Delivered(recipe: Recipe)   // `on_recipe_completed` and `on_recipe_success`
    | Failed(reason: FailReason)  // `on_recipe_failed`

  /** The bound on the waiting list: `len(...) < waiting_recipes_max` never admits more. */
  function Capacity(waitingMax: int): nat {
    if waitingMax < 0 then 0 else waitingMax
  }

  /**
   * `deliver_recipe` as written. `KitchenObjectSO` is a mutable dataclass
   * with `eq=True`, which sets its `__hash__` to `None`, so `Counter` on a
   * non-empty plate raises `TypeError`; the `except` turns that into a
   * failure. No delivery can succeed.
   */
  function DeliverAsWritten(waiting: seq<Recipe>, plate: Option<seq<KitchenObject>>): (d: Delivery)
    ensures d.Failed?
  {
    if plate.None? then Failed(NoPlate)
    else if |plate.value| == 0 then Failed(EmptyPlate)
    else Failed(Unhashable)
  }

  /** The plate of the demo's sandwich fails as written although the sandwich is waiting. */
  lemma SandwichFailsAsWritten()
    ensures var sandwich := Recipe("Sandwich", [KitchenObject("Bread", 3), KitchenObject("Lettuce", 2), KitchenObject("Tomato", 1)]);
      && DeliverAsWritten([sandwich], Some(sandwich.ingredients)) == Failed(Unhashable)
      && IntendedDelivery([sandwich], Some(sandwich.ingredients)) == Delivered(sandwich)
  {
    var sandwich := Recipe("Sandwich", [KitchenObject("Bread", 3), KitchenObject("Lettuce", 2), KitchenObject("Tomato", 1)]);
    assert Matches(ByMultiset, sandwich, sandwich.ingredients);
  }

  /** The delivery outcome intended by `deliver_recipe`, as a function of the waiting list and the plate. */
  function IntendedDelivery(waiting: seq<Recipe>, plate: Option<seq<KitchenObject>>): (d: Delivery)
    ensures d.Delivered? <==> plate.Some? && |plate.value| > 0 && FirstMatch(ByMultiset, waiting, plate.value).Some?
    ensures d.Delivered? ==> d.recipe == waiting[FirstMatch(ByMultiset, waiting, plate.value).value]
    ensures d.Failed? ==> d.reason != Unhashable
  {
    if plate.None? then Failed(NoPlate)
    else if |plate.value| == 0 then Failed(EmptyPlate)
    else
      var m := FirstMatch(ByMultiset, waiting, plate.value);
      if m.None? then Failed(NoMatchingRecipe) else Delivered(waiting[m.value])
  }

  /** The delivery as written agrees with the intended one exactly when there is no plate or an empty one. */
  lemma AsWrittenAgreesOnlyWithoutIngredients(waiting: seq<Recipe>, plate: Option<seq<KitchenObject>>)
    ensures DeliverAsWritten(waiting, plate) == IntendedDelivery(waiting, plate) <==> plate.None? || |plate.value| == 0
  {
  }

  class DeliveryManager {
    /** `_recipe_list_so.recipe_so_list`: the recipes that can be spawned. */
    const recipeList: seq<Recipe>
    /** `_spawn_recipe_timer_max`. */
    const spawnTimerMax: real
    /** `_waiting_recipes_max`. */
    const waitingMax: int
    /** `_waiting_recipe_so_list`. */
    var waiting: seq<Recipe>
    /** `_spawn_recipe_timer`. */
    var spawnTimer: real
    /** `_successful_recipes_amount`. */
    var successCount: nat

    /** The waiting list stays within its bound and holds only recipes of the list. */
    ghost predicate Valid()
      reads this
    {
      && |waiting| <= Capacity(waitingMax)
      && forall r :: r in waiting ==> r in recipeList
    }

    /** `__init__` (the defaults of the source are 4.0 seconds and 4 recipes). */
    constructor (recipeList: seq<Recipe>, spawnTimerMax: real, waitingMax: int)
      ensures Valid()
      ensures this.recipeList == recipeList && this.spawnTimerMax == spawnTimerMax && this.waitingMax == waitingMax
      ensures waiting == [] && spawnTimer == 0.0 && successCount == 0
    {
      this.recipeList := recipeList;
      this.spawnTimerMax := spawnTimerMax;
      this.waitingMax := waitingMax;
      waiting := [];
      spawnTimer := 0.0;
      successCount := 0;
    }

    /** `reset`: empties the list and zeroes the countdown and the count. */
    method Reset()
      modifies this
      ensures Valid()
      ensures waiting == [] && spawnTimer == 0.0 && successCount == 0
    {
      waiting := [];
      spawnTimer := 0.0;
      successCount := 0;
    }

    /**
     * `update`, given the time elapsed since the previous frame, whether
     * the game is playing, and the index `random.choice` picks. A recipe
     * is spawned, and the countdown reloaded, only when the countdown has
     * run out, the game is playing and the list has room; an empty recipe
     * list then raises after the countdown was reloaded.
     */
    method Update(delta: real, playing: bool, pick: nat) returns (outcome: UpdateOutcome)
      requires Valid()
      requires |recipeList| > 0 ==> pick < |recipeList|
      modifies this
      ensures Valid()
      ensures successCount == old(successCount)
      ensures var due := old(spawnTimer) - delta <= 0.0 && playing && |old(waiting)| < waitingMax;
        && (!due ==> outcome == Waited && waiting == old(waiting) && spawnTimer == old(spawnTimer) - delta)
        && (due && |recipeList| == 0 ==> outcome == NoRecipes && waiting == old(waiting) && spawnTimer == spawnTimerMax)
        && (due && |recipeList| > 0 ==>
              outcome == Spawned(recipeList[pick]) && waiting == old(waiting) + [recipeList[pick]]
              && spawnTimer == spawnTimerMax)
    {
      spawnTimer := spawnTimer - delta;
      if spawnTimer <= 0.0 && playing && |waiting| < waitingMax {
        spawnTimer := spawnTimerMax;
        if |recipeList| == 0 {
          return NoRecipes;
        }
        var chosen := recipeList[pick];
        waiting := waiting + [chosen];
        return Spawned(chosen);
      }
      outcome := Waited;
    }

    /**
     * `deliver_recipe` with the intended multiset comparison: the first
     * waiting recipe of the plate's length whose ingredients the plate holds
     * with the same multiplicities is removed and counted.
     */
    method DeliverRecipe(plate: PlateKitchenObject?) returns (outcome: Delivery)
      requires Valid()
      modifies this
      ensures Valid()
      ensures outcome == IntendedDelivery(old(waiting), if plate == null then None else Some(plate.items))
      ensures outcome.Failed? ==> waiting == old(waiting) && successCount == old(successCount)
      ensures outcome.Delivered? ==>
        var i := FirstMatch(ByMultiset, old(waiting), plate.items).value;
        waiting == RemoveAt(old(waiting), i) && successCount == old(successCount) + 1
      ensures spawnTimer == old(spawnTimer)
    {
      if plate == null {
        return Failed(NoPlate);
      }
      var ingredients := plate.GetKitchenObjectList();
      if |ingredients| == 0 {
        return Failed(EmptyPlate);
      }
      var i := 0;
      while i < |waiting|
        invariant 0 <= i <= |waiting|
        invariant forall j :: 0 <= j < i ==> !Matches(ByMultiset, waiting[j], ingredients)
      {
        var recipe := waiting[i];
        if |recipe.ingredients| != |ingredients| {
          assert !Matches(ByMultiset, recipe, ingredients) by {
            if Matches(ByMultiset, recipe, ingredients) {
              MultisetMatchHasEqualLength(recipe, ingredients);
            }
          }
        } else if multiset(recipe.ingredients) == multiset(ingredients) {
          successCount := successCount + 1;
          FirstMatchAt(ByMultiset, waiting, ingredients, i);
          RemoveAtSubset(waiting, i);
          waiting := RemoveAt(waiting, i);
          return Delivered(recipe);
        }
        i := i + 1;
      }
      outcome := Failed(NoMatchingRecipe);
    }

    /** `get_waiting_recipe_so_list`: a copy, so a value. */
    function GetWaitingRecipeList(): seq<Recipe>
      reads this
    {
      waiting
    }

    /** `get_successful_recipes_amount`. */
    function GetSuccessfulRecipesAmount(): nat
      reads this
    {
      successCount
    }
  }

  /** A plate holding a recipe's three ingredients in another order is its first match. */
  lemma ReorderedPlateMatches(recipe: Recipe, a: KitchenObject, b: KitchenObject, c: KitchenObject)
    requires recipe.ingredients == [b, c, a]
    ensures FirstMatch(ByMultiset, [recipe], [a, b, c]) == Some(0)
  {
    assert [a, b, c] == [a] + [b, c] && [b, c, a] == [b, c] + [a];
    assert multiset([a, b, c]) == multiset([b, c, a]);
    assert Matches(ByMultiset, recipe, [a, b, c]);
  }

  /** A fresh manager after one frame that spawns `first`: only `first` waits. */
  method ManagerWithOneWaiting(first: Recipe, second: Recipe) returns (m: DeliveryManager)
    ensures fresh(m) && m.Valid()
    ensures m.waiting == [first] && m.successCount == 0
  {
    m := new DeliveryManager([first, second], 4.0, 4);
    var spawned := m.Update(0.1, true, 0);
  }

  /** A fresh plate holding `a`, `b` and `c`, in that order. */
  method PlateOf(a: KitchenObject, b: KitchenObject, c: KitchenObject) returns (plate: PlateKitchenObject)
    ensures fresh(plate) && plate.items == [a, b, c]
  {
    plate := new PlateKitchenObject();
    plate.AddKitchenObject(a);
    plate.AddKitchenObject(b);
    plate.AddKitchenObject(c);
  }

  /**
   * The demo of the source with the intended matching: a sandwich of
   * bread, lettuce and tomato is spawned on the first frame, and a plate of
   * tomato, bread and lettuce delivers it.
   */
  method SandwichScenario(tomato: KitchenObject, lettuce: KitchenObject, bread: KitchenObject, salad: Recipe)
    returns (first: Delivery, count: nat, left: seq<Recipe>)
    ensures first == Delivered(Recipe("Sandwich", [bread, lettuce, tomato]))
    ensures count == 1 && left == []
  {
    var sandwich := Recipe("Sandwich", [bread, lettuce, tomato]);
    var m := ManagerWithOneWaiting(sandwich, salad);
    var plate := PlateOf(tomato, bread, lettuce);
    ReorderedPlateMatches(sandwich, tomato, bread, lettuce);
    assert IntendedDelivery([sandwich], Some([tomato, bread, lettuce])) == Delivered(sandwich);
    assert RemoveAt([sandwich], 0) == [];
    first := m.DeliverRecipe(plate);
    count, left := m.successCount, m.waiting;
  }

  /** With nothing waiting, a plate with an ingredient fails for want of a matching recipe and changes nothing. */
  method NothingWaitingScenario(k: KitchenObject, recipes: seq<Recipe>) returns (outcome: Delivery, count: nat)
    ensures outcome == Failed(NoMatchingRecipe) && count == 0
  {
    var m := new DeliveryManager(recipes, 4.0, 4);
    var plate := new PlateKitchenObject();
    plate.AddKitchenObject(k);
    outcome := m.DeliverRecipe(plate);
    count := m.successCount;
  }

  /** With the game playing, the countdown reaches zero every frame and the list still stops at its bound. */
  method CapacityScenario(r: Recipe) returns (sizes: seq<nat>)
    ensures sizes == [1, 2, 2]
  {
    var m := new DeliveryManager([r], 0.0, 2);
    var o := m.Update(1.0, true, 0);
    sizes := [|m.waiting|];
    o := m.Update(1.0, true, 0);
    sizes := sizes + [|m.waiting|];
    o := m.Update(1.0, true, 0);
    sizes := sizes + [|m.waiting|];
  }
}
