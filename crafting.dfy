/** Crafting: a recipe is used up from the inventory only when every ingredient is there in full. */
module Crafting {
  import opened Wrappers
  import opened Inventories

  /** A recipe: ingredient names, each once, with the amount each takes. */
  predicate WellFormed(recipe: seq<(string, int)>)
  {
    (forall i, j :: 0 <= i < j < |recipe| ==> recipe[i].0 != recipe[j].0)
    && forall i :: 0 <= i < |recipe| ==> recipe[i].1 > 0
  }

  predicate IsIngredient(recipe: seq<(string, int)>, n: string)
  {
    exists i :: 0 <= i < |recipe| && recipe[i].0 == n
  }

  /** The check of `craft_item`: every ingredient is held in at least the recipe's amount, a missing one counting 0. */
  predicate CanCraft(amounts: map<string, int>, recipe: seq<(string, int)>)
  {
    forall i :: 0 <= i < |recipe| ==> Held(amounts, recipe[i].0) >= recipe[i].1
  }

  /**
   * `craft_item`: either nothing changes, or every ingredient drops by its
   * amount and then one unit of the product is added (as far as its stack has
   * room); no other stack changes.
   */
  method CraftItem(inv: SpriteInventory, name: string, recipe: seq<(string, int)>) returns (crafted: bool)
    requires inv.Valid() && WellFormed(recipe) && !IsIngredient(recipe, name)
    requires name !in inv.amounts && inv.lastIdxWithItem >= NUM_SLOTS ==>
      inv.holding.Some? && forall i :: 0 <= i < |recipe| ==> inv.Count(recipe[i].0) - recipe[i].1 >= 1
    modifies inv
    ensures inv.Valid()
    ensures crafted == CanCraft(old(inv.amounts), recipe)
    ensures !crafted ==> inv.keys == old(inv.keys) && inv.amounts == old(inv.amounts) && inv.holding == old(inv.holding)
    ensures crafted ==> forall i :: 0 <= i < |recipe| ==> inv.Count(recipe[i].0) == old(inv.Count(recipe[i].0)) - recipe[i].1
    ensures crafted ==> forall n :: n != name && !IsIngredient(recipe, n) ==> inv.Count(n) == old(inv.Count(n))
    ensures crafted && name in old(inv.amounts) ==>
      inv.Count(name) == old(inv.Count(name)) + Increase(name, 1, old(inv.Count(name)))
    ensures crafted && name !in old(inv.amounts) ==>
      inv.Count(name) == if old(inv.lastIdxWithItem) < NUM_SLOTS then 1 else 0
  {
    crafted := forall i :: 0 <= i < |recipe| ==> inv.Count(recipe[i].0) >= recipe[i].1;
    if crafted {
      Produce(inv, name, recipe);
    }
  }

  /** The successful branch of `craft_item`: the removals, then the addition. */
  method Produce(inv: SpriteInventory, name: string, recipe: seq<(string, int)>)
    requires inv.Valid() && WellFormed(recipe) && !IsIngredient(recipe, name) && CanCraft(inv.amounts, recipe)
    requires name !in inv.amounts && inv.lastIdxWithItem >= NUM_SLOTS ==>
      inv.holding.Some? && forall i :: 0 <= i < |recipe| ==> inv.Count(recipe[i].0) - recipe[i].1 >= 1
    modifies inv
    ensures inv.Valid()
    ensures forall i :: 0 <= i < |recipe| ==> inv.Count(recipe[i].0) == old(inv.Count(recipe[i].0)) - recipe[i].1
    ensures forall n :: n != name && !IsIngredient(recipe, n) ==> inv.Count(n) == old(inv.Count(n))
    ensures name in old(inv.amounts) ==>
      inv.Count(name) == old(inv.Count(name)) + Increase(name, 1, old(inv.Count(name)))
    ensures name !in old(inv.amounts) ==>
      inv.Count(name) == if old(inv.lastIdxWithItem) < NUM_SLOTS then 1 else 0
  {
    ghost var amounts0 := inv.amounts;
    RemoveRecipe(inv, recipe);
    Crafted(amounts0, recipe, name, inv.lastIdxWithItem);
    inv.AddItem(name, 1);
  }

  /** The stacks after the removals and then the addition of one unit of the product. */
  lemma Crafted(amounts: map<string, int>, recipe: seq<(string, int)>, name: string, lastIdx: int)
    requires WellFormed(recipe) && CanCraft(amounts, recipe) && !IsIngredient(recipe, name)
    ensures name in Spend(amounts, recipe, |recipe|) <==> name in amounts
    ensures var a := AddAmount(Spend(amounts, recipe, |recipe|), name, 1, lastIdx);
      (forall i :: 0 <= i < |recipe| ==> Held(a, recipe[i].0) == Held(amounts, recipe[i].0) - recipe[i].1)
      && (forall n :: n != name && !IsIngredient(recipe, n) ==> Held(a, n) == Held(amounts, n))
      && (name in amounts ==> Held(a, name) == Held(amounts, name) + Increase(name, 1, Held(amounts, name)))
      && (name !in amounts ==> Held(a, name) == if lastIdx < NUM_SLOTS then 1 else 0)
  {
    SpendFacts(amounts, recipe, |recipe|);
    AllNames(recipe, name);
    forall n | !IsIngredient(recipe, n)
      ensures n !in Names(recipe, |recipe|)
    {
      AllNames(recipe, n);
    }
  }

  /** Each of the first `k` ingredients leaves at least one unit behind, so its entry stays. */
  predicate LeavesAll(amounts: map<string, int>, recipe: seq<(string, int)>, k: int)
    requires 0 <= k <= |recipe|
  {
    forall i :: 0 <= i < k ==> Held(amounts, recipe[i].0) - recipe[i].1 >= 1
  }

  /** The names of the first `k` ingredients. */
  function Names(recipe: seq<(string, int)>, k: int): set<string>
    requires 0 <= k <= |recipe|
  {
    set i | 0 <= i < k :: recipe[i].0
  }

  /** The amounts after the first `k` removals of the loop. */
  function Spend(amounts: map<string, int>, recipe: seq<(string, int)>, k: int): map<string, int>
    requires 0 <= k <= |recipe|
  {
    if k == 0 then amounts else Take(Spend(amounts, recipe, k - 1), recipe[k - 1].0, recipe[k - 1].1)
  }

  /**
   * After the first `k` removals of a recipe the check passed, those
   * ingredients have dropped by exactly their amounts, the rest of the recipe is
   * still there untouched, and every other stack is as it was.
   */
  lemma {:induction false} SpendFacts(amounts: map<string, int>, recipe: seq<(string, int)>, k: int)
    requires WellFormed(recipe) && CanCraft(amounts, recipe) && 0 <= k <= |recipe|
    ensures forall i :: 0 <= i < k ==> Held(Spend(amounts, recipe, k), recipe[i].0) == Held(amounts, recipe[i].0) - recipe[i].1
    ensures forall i :: k <= i < |recipe| ==>
      recipe[i].0 in Spend(amounts, recipe, k) && Held(Spend(amounts, recipe, k), recipe[i].0) == Held(amounts, recipe[i].0)
    ensures forall n :: n !in Names(recipe, k) ==>
      (n in Spend(amounts, recipe, k) <==> n in amounts) && Held(Spend(amounts, recipe, k), n) == Held(amounts, n)
  {
    SpendOthers(amounts, recipe, k);
    SpendSpent(amounts, recipe, k);
    forall i | k <= i < |recipe|
      ensures recipe[i].0 !in Names(recipe, k)
    {
      assert forall j :: 0 <= j < k ==> recipe[j].0 != recipe[i].0;
    }
  }

  /** The removals touch only the names of the ingredients removed so far. */
  lemma {:induction false} SpendOthers(amounts: map<string, int>, recipe: seq<(string, int)>, k: int)
    requires 0 <= k <= |recipe|
    ensures forall n :: n !in Names(recipe, k) ==>
      (n in Spend(amounts, recipe, k) <==> n in amounts) && Held(Spend(amounts, recipe, k), n) == Held(amounts, n)
  {
    if k > 0 {
      SpendOthers(amounts, recipe, k - 1);
      assert Names(recipe, k) == Names(recipe, k - 1) + {recipe[k - 1].0};
    }
  }

  /** Each of the first `k` ingredients has dropped by exactly its amount. */
  lemma {:induction false} SpendSpent(amounts: map<string, int>, recipe: seq<(string, int)>, k: int)
    requires WellFormed(recipe) && CanCraft(amounts, recipe) && 0 <= k <= |recipe|
    ensures forall i :: 0 <= i < k ==> Held(Spend(amounts, recipe, k), recipe[i].0) == Held(amounts, recipe[i].0) - recipe[i].1
  {
    if k > 0 {
      SpendSpent(amounts, recipe, k - 1);
      SpendOthers(amounts, recipe, k - 1);
      var item := recipe[k - 1].0;
      assert forall i :: 0 <= i < k - 1 ==> recipe[i].0 != item;
      assert item !in Names(recipe, k - 1);
    }
  }

  /** The next ingredient of the loop is still untouched, and keeping it decides whether all so far are kept. */
  lemma SpendNext(amounts: map<string, int>, recipe: seq<(string, int)>, k: int)
    requires WellFormed(recipe) && CanCraft(amounts, recipe) && 0 <= k < |recipe|
    ensures recipe[k].0 in Spend(amounts, recipe, k)
    ensures Held(Spend(amounts, recipe, k), recipe[k].0) == Held(amounts, recipe[k].0)
    ensures LeavesAll(amounts, recipe, k + 1) <==>
      LeavesAll(amounts, recipe, k) && Held(amounts, recipe[k].0) - recipe[k].1 >= 1
  {
    SpendFacts(amounts, recipe, k);
  }

  /** An ingredient of the whole recipe is one of its first `|recipe|` names. */
  lemma AllNames(recipe: seq<(string, int)>, n: string)
    ensures IsIngredient(recipe, n) <==> n in Names(recipe, |recipe|)
  {
  }

  /** The removal loop of `craft_item`, once the check has passed. */
  method RemoveRecipe(inv: SpriteInventory, recipe: seq<(string, int)>)
    requires inv.Valid() && WellFormed(recipe) && CanCraft(inv.amounts, recipe)
    modifies inv
    ensures inv.Valid() && inv.amounts == Spend(old(inv.amounts), recipe, |recipe|)
    ensures inv.lastIdxWithItem == old(inv.lastIdxWithItem)
    ensures inv.holding == if LeavesAll(old(inv.amounts), recipe, |recipe|) then old(inv.holding) else None
  {
    ghost var amounts0 := inv.amounts;
    var k := 0;
    while k < |recipe|
      invariant 0 <= k <= |recipe| && inv.Valid()
      invariant inv.amounts == Spend(amounts0, recipe, k)
      invariant inv.lastIdxWithItem == old(inv.lastIdxWithItem)
      invariant inv.holding == if LeavesAll(amounts0, recipe, k) then old(inv.holding) else None
    {
      SpendNext(amounts0, recipe, k);
      Consume(inv, recipe[k].0, recipe[k].1);
      k := k + 1;
    }
  }

  /** One `remove_item(item, amt)` of the loop, in terms of `Take`. */
  method Consume(inv: SpriteInventory, item: string, amt: int)
    requires inv.Valid() && item in inv.amounts
    modifies inv
    ensures inv.Valid() && inv.amounts == Take(old(inv.amounts), item, amt)
    ensures inv.lastIdxWithItem == old(inv.lastIdxWithItem)
    ensures inv.holding == if Held(old(inv.amounts), item) - amt >= 1 then old(inv.holding) else None
  {
    var _ := inv.RemoveItem(Some(item), amt);
  }
}
