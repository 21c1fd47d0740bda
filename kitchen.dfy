/**
 * The data shared by the two recipe-delivery managers (`delivery_manager.py`
 * and `deliverManager.py`, which define the same `Event`,
 * `KitchenObjectSO`, `RecipeSO` and `PlateKitchenObject`), and the matching
 * rules they use to pick the recipe a plate fulfils.
 */
module Kitchen {
  import opened Wrappers

  /** `KitchenObjectSO`: a dataclass, so two are equal when name and id are. */
  datatype KitchenObject = KitchenObject(name: string, objectId: int)

  /** `RecipeSO`. */
  datatype Recipe = Recipe(name: string, ingredients: seq<KitchenObject>)

  /** An event handler, identified as Python identifies a callable: by identity. */
  type HandlerId = nat

  /** No value occurs twice in `s`. */
  predicate NoDuplicates<T(==)>(s: seq<T>) {
    forall i, j :: 0 <= i < j < |s| ==> s[i] != s[j]
  }

  /** `s` without its element at index `i`; the rest keep their order (`list.pop(i)`). */
  function RemoveAt<T>(s: seq<T>, i: nat): (r: seq<T>)
    requires i < |s|
    ensures |r| == |s| - 1
    ensures forall j :: 0 <= j < i ==> r[j] == s[j]
    ensures forall j :: i <= j < |r| ==> r[j] == s[j + 1]
    ensures multiset(r) == multiset(s) - multiset{s[i]}
  {
    assert s == s[..i] + [s[i]] + s[i + 1..];
    s[..i] + s[i + 1..]
  }

  /** The index of the first occurrence of `x` in `s` (`list.index`). */
  function IndexOf<T(==)>(s: seq<T>, x: T): (i: nat)
    requires x in s
    ensures i < |s| && s[i] == x
    ensures forall j :: 0 <= j < i ==> s[j] != x
  {
    if s[0] == x then 0 else 1 + IndexOf(s[1..], x)
  }

  /** `list.remove(x)` guarded by `x in list`: the first occurrence goes, an absent value is ignored. */
  function RemoveFirst<T(==)>(s: seq<T>, x: T): (r: seq<T>)
    ensures x !in s ==> r == s
    ensures x in s ==> |r| == |s| - 1 && multiset(r) == multiset(s) - multiset{x}
  {
    if x in s then RemoveAt(s, IndexOf(s, x)) else s
  }

  /** Removing from a list without duplicates keeps it so, and the removed value is gone. */
  lemma RemoveFirstKeepsNoDuplicates<T>(s: seq<T>, x: T)
    requires NoDuplicates(s)
    ensures NoDuplicates(RemoveFirst(s, x))
    ensures x !in RemoveFirst(s, x)
  {
    if x in s {
      var k := IndexOf(s, x);
      var r := RemoveFirst(s, x);
      assert r == RemoveAt(s, k);
      forall i, j | 0 <= i < j < |r|
        ensures r[i] != r[j]
      {
        var si := if i < k then i else i + 1;
        var sj := if j < k then j else j + 1;
        assert r[i] == s[si] && r[j] == s[sj] && si < sj;
      }
    }
  }

  /** `Event`: the list of registered handlers. */
  class Event {
    var handlers: seq<HandlerId>

    /** A handler is registered at most once. */
    ghost predicate Valid()
      reads this
    {
      NoDuplicates(handlers)
    }

    constructor ()
      ensures Valid() && handlers == []
    {
      handlers := [];
    }

    /** `add_handler`: appends a handler that is not yet registered. */
    method AddHandler(h: HandlerId)
      requires Valid()
      modifies this
      ensures Valid()
      ensures handlers == if h in old(handlers) then old(handlers) else old(handlers) + [h]
    {
      if h !in handlers {
        handlers := handlers + [h];
      }
    }

    /** `remove_handler`: drops a registered handler, ignores an unknown one. */
    method RemoveHandler(h: HandlerId)
      requires Valid()
      modifies this
      ensures Valid()
      ensures handlers == RemoveFirst(old(handlers), h)
      ensures h !in handlers
    {
      RemoveFirstKeepsNoDuplicates(handlers, h);
      if h in handlers {
        handlers := RemoveAt(handlers, IndexOf(handlers, h));
      }
    }
  }

  /**
   * Registering the same handler twice keeps one copy; removing it, and then
   * an unknown handler, leaves the other handlers in order.
   */
  method HandlerScenario(a: HandlerId, b: HandlerId) returns (afterAdds: seq<HandlerId>, afterRemoves: seq<HandlerId>)
    requires a != b
    ensures afterAdds == [a, b]
    ensures afterRemoves == [b]
  {
    var e := new Event();
    e.AddHandler(a);
    assert e.handlers == [a];
    e.AddHandler(b);
    assert e.handlers == [a, b];
    assert a in e.handlers;
    e.AddHandler(a);
    afterAdds := e.handlers;
    e.RemoveHandler(a);
    assert IndexOf([a, b], a) == 0;
    assert e.handlers == [b];
    e.RemoveHandler(a);
    afterRemoves := e.handlers;
  }

  /** `PlateKitchenObject`: the ingredients put on a plate, in order. */
  class PlateKitchenObject {
    var items: seq<KitchenObject>

    constructor ()
      ensures items == []
    {
      items := [];
    }

    /** `add_kitchen_object`. */
    method AddKitchenObject(k: KitchenObject)
      modifies this
      ensures items == old(items) + [k]
    {
      items := items + [k];
    }

    /** `get_kitchen_object_so_list`: a copy, so a value. */
    function GetKitchenObjectList(): seq<KitchenObject>
      reads this
    {
      items
    }
  }

  /** How a plate is compared with a recipe. */
  datatype MatchRule =
    | ByMultiset   // `Counter` equality: order ignored, multiplicities counted
    | BySet        // `set` equality: order and multiplicities ignored

  /** `set(items)`: the distinct ingredients. */
  function IngredientSet(items: seq<KitchenObject>): set<KitchenObject> {
    set k | k in items
  }

  /** Whether `plate` fulfils `recipe` under `rule`. */
  predicate Matches(rule: MatchRule, recipe: Recipe, plate: seq<KitchenObject>) {
    match rule
    case ByMultiset => multiset(recipe.ingredients) == multiset(plate)
    case BySet => IngredientSet(recipe.ingredients) == IngredientSet(plate)
  }

  /** The lowest index of a waiting recipe the plate fulfils, if any. */
  function FirstMatch(rule: MatchRule, waiting: seq<Recipe>, plate: seq<KitchenObject>): (r: Option<nat>)
    ensures r.Some? ==> r.value < |waiting| && Matches(rule, waiting[r.value], plate)
    ensures r.Some? ==> forall j :: 0 <= j < r.value ==> !Matches(rule, waiting[j], plate)
    ensures r.None? <==> forall j :: 0 <= j < |waiting| ==> !Matches(rule, waiting[j], plate)
  {
    if |waiting| == 0 then None
    else if Matches(rule, waiting[0], plate) then Some(0)
    else
      var rest := FirstMatch(rule, waiting[1..], plate);
      if rest.None? then None else Some(rest.value + 1)
  }

  /** A scan that finds its first match at `i` finds what `FirstMatch` names. */
  lemma FirstMatchAt(rule: MatchRule, waiting: seq<Recipe>, plate: seq<KitchenObject>, i: nat)
    requires i < |waiting| && Matches(rule, waiting[i], plate)
    requires forall j :: 0 <= j < i ==> !Matches(rule, waiting[j], plate)
    ensures FirstMatch(rule, waiting, plate) == Some(i)
  {
  }

  /** Removing one element keeps every remaining one among the original ones. */
  lemma RemoveAtSubset<T>(s: seq<T>, i: nat)
    requires i < |s|
    ensures forall x :: x in RemoveAt(s, i) ==> x in s
  {
    forall x | x in RemoveAt(s, i)
      ensures x in s
    {
      assert x in multiset(RemoveAt(s, i));
    }
  }

  /** A multiset match needs a plate as long as the recipe, which is why the length test may come first. */
  lemma MultisetMatchHasEqualLength(recipe: Recipe, plate: seq<KitchenObject>)
    requires Matches(ByMultiset, recipe, plate)
    ensures |recipe.ingredients| == |plate|
  {
    assert |multiset(recipe.ingredients)| == |multiset(plate)|;
  }

  /** Every multiset match is a set match. */
  lemma MultisetMatchIsSetMatch(recipe: Recipe, plate: seq<KitchenObject>)
    requires Matches(ByMultiset, recipe, plate)
    ensures Matches(BySet, recipe, plate)
  {
    forall k | k in recipe.ingredients
      ensures k in plate
    {
      assert k in multiset(recipe.ingredients);
    }
    forall k | k in plate
      ensures k in recipe.ingredients
    {
      assert k in multiset(plate);
    }
  }

  /** The order of the ingredients on a plate never changes which recipe it fulfils. */
  lemma {:induction false} FirstMatchIgnoresOrder(rule: MatchRule, waiting: seq<Recipe>, p: seq<KitchenObject>, q: seq<KitchenObject>)
    requires multiset(p) == multiset(q)
    ensures FirstMatch(rule, waiting, p) == FirstMatch(rule, waiting, q)
  {
    if |waiting| > 0 {
      if rule == BySet {
        assert forall k :: k in p <==> k in multiset(p);
        assert forall k :: k in q <==> k in multiset(q);
        assert IngredientSet(p) == IngredientSet(q);
      }
      assert Matches(rule, waiting[0], p) == Matches(rule, waiting[0], q);
      FirstMatchIgnoresOrder(rule, waiting[1..], p, q);
    }
  }

  /** Set matching ignores repetitions: two breads fulfil a recipe of one bread, which counting refuses. */
  lemma SetMatchIgnoresDuplicates()
    ensures Matches(BySet, Recipe("Toast", [KitchenObject("Bread", 3)]), [KitchenObject("Bread", 3), KitchenObject("Bread", 3)])
    ensures !Matches(ByMultiset, Recipe("Toast", [KitchenObject("Bread", 3)]), [KitchenObject("Bread", 3), KitchenObject("Bread", 3)])
  {
    var bread := KitchenObject("Bread", 3);
    assert IngredientSet([bread]) == {bread};
    assert IngredientSet([bread, bread]) == {bread};
    assert multiset([bread, bread])[bread] == 2;
  }
}
