/**
 * `DeliveryManager` of `deliverManager.py`: the same waiting list as in
 * `delivery_manager.py`, with a fixed 4-second countdown and a limit of 4
 * waiting recipes, and deliveries matched by ingredient sets. The elapsed
 * time, the game state and the pick of `random.choice` are parameters;
 * events are returned as outcomes.
 */
module SetDelivery {
  import opened Wrappers
  import opened Kitchen

  /** `_spawn_recipe_timer_max`. */
  const SpawnTimerMax: real := 4.0
  /** `_waiting_recipes_max`. */
  const WaitingMax: nat := 4

  /** What `update` did. */
  datatype UpdateOutcome =
    | Waited                    // nothing spawned
    | Spawned(recipe: Recipe)   // `on_recipe_spawned` fired with this recipe
    | NoRecipes                 // `random.choice` on an empty list raised `IndexError`

  /** What `deliver_recipe` did. */
  datatype Delivery =
    | Delivered(recipe: Recipe)   // `on_recipe_completed` and `on_recipe_success`
    | Failed                      // `on_recipe_failed` with the plate
    | RaisedTypeError             // `set(...)` raised and nothing caught it

  /**
   * `deliver_recipe` as written. `KitchenObjectSO` is unhashable (a
   * mutable dataclass with `eq=True`), so `set(...)` raises on a non-empty
   * plate, and on the first non-empty recipe it reaches; only empty sets
   * can be compared.
   */
  function DeliverAsWritten(waiting: seq<Recipe>, plate: seq<KitchenObject>): (d: Delivery)
    ensures d.Delivered? ==> |plate| == 0 && |waiting| > 0 && d.recipe == waiting[0] && |waiting[0].ingredients| == 0
  {
    if |plate| > 0 then RaisedTypeError
    else if |waiting| == 0 then Failed
    else if |waiting[0].ingredients| > 0 then RaisedTypeError
    else Delivered(waiting[0])
  }

  /** The delivery intended by `deliver_recipe`: the first recipe with the plate's set of ingredients. */
  function IntendedDelivery(waiting: seq<Recipe>, plate: seq<KitchenObject>): (d: Delivery)
    ensures !d.RaisedTypeError?
    ensures d.Delivered? <==> FirstMatch(BySet, waiting, plate).Some?
    ensures d.Delivered? ==> d.recipe == waiting[FirstMatch(BySet, waiting, plate).value]
  {
    var m := FirstMatch(BySet, waiting, plate);
    if m.None? then Failed else Delivered(waiting[m.value])
  }

  /** A one-bread plate for a waiting one-bread recipe raises as written, where the intended rule delivers it. */
  lemma ToastRaisesAsWritten()
    ensures var toast := Recipe("Toast", [KitchenObject("Bread", 3)]);
      && DeliverAsWritten([toast], [KitchenObject("Bread", 3)]) == RaisedTypeError
      && IntendedDelivery([toast], [KitchenObject("Bread", 3)]) == Delivered(toast)
  {
    var toast := Recipe("Toast", [KitchenObject("Bread", 3)]);
    assert Matches(BySet, toast, [KitchenObject("Bread", 3)]);
  }

  /** As written, a plate with anything on it never completes a delivery. */
  lemma AsWrittenNeverDeliversFood(waiting: seq<Recipe>, plate: seq<KitchenObject>)
    requires |plate| > 0
    ensures DeliverAsWritten(waiting, plate) == RaisedTypeError
  {
  }

  class DeliveryManager {
    /** `recipe_manager._recipe_list_so.recipe_so_list`. */
    const recipeList: seq<Recipe>
    /** `_waiting_recipe_so_list`. */
    var waiting: seq<Recipe>
    /** `_spawn_recipe_timer`. */
    var spawnTimer: real
    /** `_successful_recipes_amount`. */
    var successCount: nat

    /** At most four waiting recipes, all from the recipe list. */
    ghost predicate Valid()
      reads this
    {
      && |waiting| <= WaitingMax
      && forall r :: r in waiting ==> r in recipeList
    }

    /** The first `__init__` of the singleton. */
    constructor (recipeList: seq<Recipe>)
      ensures Valid() && this.recipeList == recipeList
      ensures waiting == [] && spawnTimer == 0.0 && successCount == 0
    {
      this.recipeList := recipeList;
      waiting := [];
      spawnTimer := 0.0;
      successCount := 0;
    }

    /**
     * `update`: the countdown is reloaded every time it runs out, whether
     * or not a recipe is spawned; one is spawned only while the game is
     * playing and fewer than four wait.
     */
    method Update(delta: real, playing: bool, pick: nat) returns (outcome: UpdateOutcome)
      requires Valid()
      requires |recipeList| > 0 ==> pick < |recipeList|
      modifies this
      ensures Valid()
      ensures successCount == old(successCount)
      ensures spawnTimer == if old(spawnTimer) - delta <= 0.0 then SpawnTimerMax else old(spawnTimer) - delta
      ensures var due := old(spawnTimer) - delta <= 0.0 && playing && |old(waiting)| < WaitingMax;
        && (!due ==> outcome == Waited && waiting == old(waiting))
        && (due && |recipeList| == 0 ==> outcome == NoRecipes && waiting == old(waiting))
        && (due && |recipeList| > 0 ==>
              outcome == Spawned(recipeList[pick]) && waiting == old(waiting) + [recipeList[pick]])
    {
      spawnTimer := spawnTimer - delta;
      outcome := Waited;
      if spawnTimer <= 0.0 {
        spawnTimer := SpawnTimerMax;
        if playing && |waiting| < WaitingMax {
          if |recipeList| == 0 {
            return NoRecipes;
          }
          var chosen := recipeList[pick];
          waiting := waiting + [chosen];
          outcome := Spawned(chosen);
        }
      }
    }

    /**
     * `deliver_recipe` with the intended set comparison: the first waiting
     * recipe whose set of ingredients is the plate's is removed and counted.
     */
    method DeliverRecipe(plate: PlateKitchenObject) returns (outcome: Delivery)
      requires Valid()
      modifies this
      ensures Valid()
      ensures outcome == IntendedDelivery(old(waiting), plate.items)
      ensures outcome.Failed? ==> waiting == old(waiting) && successCount == old(successCount)
      ensures outcome.Delivered? ==>
        waiting == RemoveAt(old(waiting), FirstMatch(BySet, old(waiting), plate.items).value)
        && successCount == old(successCount) + 1
      ensures spawnTimer == old(spawnTimer)
    {
      var ingredients := plate.GetKitchenObjectList();
      var plateSet := IngredientSet(ingredients);
      var i := 0;
      while i < |waiting|
        invariant 0 <= i <= |waiting|
        invariant forall j :: 0 <= j < i ==> !Matches(BySet, waiting[j], ingredients)
      {
        var recipe := waiting[i];
        if plateSet == IngredientSet(recipe.ingredients) {
          successCount := successCount + 1;
          FirstMatchAt(BySet, waiting, ingredients, i);
          RemoveAtSubset(waiting, i);
          waiting := RemoveAt(waiting, i);
          return Delivered(recipe);
        }
        i := i + 1;
      }
      outcome := Failed;
    }

    /** `get_waiting_recipe_so_list`: a copy, so a value. */
    function GetWaitingRecipeList(): seq<Recipe>
      reads this
    {
      waiting
    }

    /** `get_successful_recipes_amount`. */
    function GetSuccessfulRecipesAmount(): nat
      reads this
    {
      successCount
    }
  }

  /**
   * While the game is stopped the countdown still reloads: after 5 seconds
   * it is back at 4, and nothing waits.
   */
  method StoppedGameScenario(r: Recipe) returns (timer: real, count: nat)
    ensures timer == SpawnTimerMax && count == 0
  {
    var m := new DeliveryManager([r]);
    var o := m.Update(5.0, false, 0);
    timer, count := m.spawnTimer, |m.waiting|;
  }

  /** With the intended set rule, two breads deliver a one-bread recipe and the count rises to 1. */
  method DuplicateBreadScenario() returns (outcome: Delivery, count: nat, left: nat)
    ensures outcome.Delivered? && count == 1 && left == 0
  {
    var bread := KitchenObject("Bread", 3);
    var toast := Recipe("Toast", [bread]);
    var m := new DeliveryManager([toast]);
    var o := m.Update(0.0, true, 0);
    var plate := new PlateKitchenObject();
    plate.AddKitchenObject(bread);
    plate.AddKitchenObject(bread);
    SetMatchIgnoresDuplicates();
    assert plate.items == [bread, bread];
    assert FirstMatch(BySet, [toast], plate.items) == Some(0);
    outcome := m.DeliverRecipe(plate);
    count, left := m.successCount, |m.waiting|;
  }
}
