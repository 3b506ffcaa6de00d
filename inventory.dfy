/**
 * A sprite's inventory: an insertion-ordered dictionary from item name to its
 * amount and slot index, the selected slot, and the item the owning sprite
 * holds, which adding and removing items also change.
 */
module Inventories {
  import opened Wrappers
  import opened Settings
  import opened PyNum

  const NUM_SLOTS := 50

  /** The value `slot_capacity['item']` reads: 'item' is no key the table sets, so the default. */
  const DEFAULT_CAPACITY := 999

  /** `set_slot_capacity`: 9999 for terrain tiles, 99 for tools, the default for anything else. */
  function SlotCapacity(item: string): int
  {
    if item in TOOL_NAMES then 99 else if item in TILE_NAMES then 9999 else DEFAULT_CAPACITY
  }

  /** The names with their own entry in `slot_capacity`. */
  predicate HasSlotCapacity(item: string)
  {
    item in TILE_NAMES || item in TOOL_NAMES
  }

  /** How much `add_item` adds to a stack of `current`, as written: the cap reads the literal key 'item'. */
  function IncreaseAsWritten(item: string, amount: int, current: int): int
  {
    if HasSlotCapacity(item) then Min(amount, DEFAULT_CAPACITY - current) else amount
  }

  /**
   * How much adding `amount` to a stack of `current` should add: never past
   * the item's own capacity, so a stack within it stays within it.
   */
  function Increase(item: string, amount: int, current: int): (inc: int)
    ensures inc <= amount
    ensures HasSlotCapacity(item) && current <= SlotCapacity(item) ==>
      current + inc == Min(current + amount, SlotCapacity(item)) && (0 <= amount ==> 0 <= inc)
    ensures !HasSlotCapacity(item) ==> inc == amount
  {
    if HasSlotCapacity(item) then Min(amount, SlotCapacity(item) - current) else amount
  }

  /** A full stack of dirt stays full under the literal 'item' cap although a tile stack holds 9999. */
  lemma CapacityKeyCounterexample()
    ensures IncreaseAsWritten("dirt", 1, 999) == 0
    ensures Increase("dirt", 1, 999) == 1 && SlotCapacity("dirt") == 9999
  {
  }

  /** `keys` without `k`, order kept. */
  function Without(keys: seq<string>, k: string): (r: seq<string>)
    ensures forall n :: n in r <==> n in keys && n != k
    ensures |r| <= |keys|
  {
    if keys == [] then []
    else if keys[0] == k then Without(keys[1..], k)
    else [keys[0]] + Without(keys[1..], k)
  }

  predicate Distinct(keys: seq<string>)
  {
    forall i, j :: 0 <= i < j < |keys| ==> keys[i] != keys[j]
  }

  lemma {:induction false} WithoutDistinct(keys: seq<string>, k: string)
    requires Distinct(keys)
    ensures Distinct(Without(keys, k))
  {
    if keys != [] {
      var tail := keys[1..];
      assert forall i :: 0 <= i < |tail| ==> tail[i] == keys[i + 1];
      WithoutDistinct(tail, k);
      var r := Without(tail, k);
      var t := Without(keys, k);
      if keys[0] != k {
        assert keys[0] !in tail;
        assert keys[0] !in r;
        assert t == [keys[0]] + r;
        forall i, j | 0 <= i < j < |t|
          ensures t[i] != t[j]
        {
          assert t[j] == r[j - 1] && r[j - 1] in r;
          if i > 0 {
            assert t[i] == r[i - 1];
          }
        }
      } else {
        assert t == r;
      }
    }
  }

  /** The amount of `n` in a table of amounts, 0 when it has no entry. */
  function Held(amounts: map<string, int>, n: string): int
  {
    if n in amounts then amounts[n] else 0
  }

  /** Every stack in `amounts` that has its own capacity is within it. */
  ghost predicate CappedAmounts(amounts: map<string, int>)
  {
    forall n :: n in amounts && HasSlotCapacity(n) ==> amounts[n] <= SlotCapacity(n)
  }

  /** What `add_item(item, amount)` does to the amounts, given the slot counter. */
  function AddAmount(amounts: map<string, int>, item: string, amount: int, lastIdx: int): map<string, int>
  {
    if item !in amounts then (if lastIdx < NUM_SLOTS then amounts[item := amount] else amounts)
    else amounts[item := amounts[item] + Increase(item, amount, amounts[item])]
  }

  /** What `remove_item(item, amt)` does to the amounts: the stack shrinks, or its entry goes when under one unit is left. */
  function Take(amounts: map<string, int>, item: string, amt: int): map<string, int>
  {
    if Held(amounts, item) - amt >= 1 then amounts[item := Held(amounts, item) - amt] else amounts - {item}
  }

  /** Adding never pushes a stack past its capacity, as long as a new stack starts within it. */
  lemma AddKeepsCapped(amounts: map<string, int>, item: string, amount: int, lastIdx: int)
    requires CappedAmounts(amounts) && 0 <= amount
    requires HasSlotCapacity(item) ==> amount <= SlotCapacity(item)
    ensures CappedAmounts(AddAmount(amounts, item, amount, lastIdx))
    ensures Held(AddAmount(amounts, item, amount, lastIdx), item) >= Held(amounts, item)
  {
  }

  /** Removing a non-negative amount keeps every stack within its capacity. */
  lemma TakeKeepsCapped(amounts: map<string, int>, item: string, amt: int)
    requires CappedAmounts(amounts) && 0 <= amt
    ensures CappedAmounts(Take(amounts, item, amt))
  {
  }

  class SpriteInventory {
    /** The keys of `contents`, in insertion order. */
    var keys: seq<string>
    /** `contents[item]['amount']`. */
    var amounts: map<string, int>
    /** `contents[item]['index']`. */
    var slots: map<string, int>
    var index: int
    var lastIdxWithItem: int
    /** The owning sprite's `item_holding`, which the inventory sets and clears. */
    var holding: Option<string>

    /** The three views of `contents` agree and no key repeats. */
    ghost predicate Valid()
      reads this
    {
      Distinct(keys)
      && (forall n :: n in amounts <==> n in keys)
      && (forall n :: n in slots <==> n in keys)
    }

    /** Every stack that has its own capacity is within it. */
    ghost predicate Capped()
      reads this
    {
      CappedAmounts(amounts)
    }

    /** The amount of `item` held, 0 when it has no entry (`contents.get(item, {}).get('amount', 0)`). */
    function Count(item: string): int
      reads this
    {
      if item in amounts then amounts[item] else 0
    }

    /** `SpriteInventory(sprite)` with neither save data nor default contents. */
    constructor Empty(holding: Option<string>)
      ensures Valid() && Capped() && keys == [] && amounts == map[] && slots == map[]
      ensures index == 0 && lastIdxWithItem == 0 && this.holding == holding
    {
      keys, amounts, slots := [], map[], map[];
      index, lastIdxWithItem := 0, 0;
      this.holding := holding;
    }

    /** `SpriteInventory(sprite, default_contents=...)`: entry `i` gets slot index `i`; the slot counter still starts at 0. */
    constructor WithContents(names: seq<string>, amountsIn: seq<int>, holding: Option<string>)
      requires |names| == |amountsIn|
      requires Distinct(names)
      ensures Valid() && keys == names
      ensures forall i :: 0 <= i < |names| ==> amounts[names[i]] == amountsIn[i] && slots[names[i]] == i
      ensures index == 0 && lastIdxWithItem == 0 && this.holding == holding
    {
      var k := 0;
      var am: map<string, int> := map[];
      var sl: map<string, int> := map[];
      while k < |names|
        invariant 0 <= k <= |names|
        invariant forall n :: (n in am <==> n in names[..k]) && (n in sl <==> n in names[..k])
        invariant forall i :: 0 <= i < k ==> am[names[i]] == amountsIn[i] && sl[names[i]] == i
      {
        am := am[names[k] := amountsIn[k]];
        sl := sl[names[k] := k];
        assert names[..k + 1] == names[..k] + [names[k]];
        k := k + 1;
      }
      assert names[..k] == names;
      keys, amounts, slots := names, am, sl;
      index, lastIdxWithItem := 0, 0;
      this.holding := holding;
    }

    /**
     * `add_item`: a new item is stored, at slot `last_idx_with_item + 1`, only
     * while that counter is below the slot count; a known item grows by
     * `Increase`. A sprite holding nothing then holds the item.
     */
    method AddItem(item: string, amount: int)
      requires Valid()
      requires item !in amounts && lastIdxWithItem >= NUM_SLOTS ==> holding.Some?
      modifies this
      ensures Valid()
      ensures old(item !in amounts && lastIdxWithItem < NUM_SLOTS) ==>
        keys == old(keys) + [item] && amounts == old(amounts)[item := amount]
        && slots == old(slots)[item := old(lastIdxWithItem) + 1] && lastIdxWithItem == old(lastIdxWithItem) + 1
      ensures old(item !in amounts && lastIdxWithItem >= NUM_SLOTS) ==>
        keys == old(keys) && amounts == old(amounts) && slots == old(slots) && lastIdxWithItem == old(lastIdxWithItem)
      ensures old(item in amounts) ==>
        keys == old(keys) && slots == old(slots) && lastIdxWithItem == old(lastIdxWithItem)
        && amounts == old(amounts)[item := old(amounts[item]) + Increase(item, amount, old(amounts[item]))]
      ensures holding == if old(holding).None? then Some(item) else old(holding)
      ensures index == if old(holding).None? then slots[item] else old(index)
      ensures amounts == AddAmount(old(amounts), item, amount, old(lastIdxWithItem))
    {
      if item !in amounts {
        if lastIdxWithItem < NUM_SLOTS {
          Append(item, amount);
        }
      } else {
        amounts := amounts[item := amounts[item] + Increase(item, amount, amounts[item])];
      }
      if holding.None? {
        holding := Some(item);
        index := slots[item];
      }
    }

    /** The stores of a new entry: the next slot, at the end of the keys. */
    method Append(item: string, amount: int)
      modifies this`lastIdxWithItem, this`keys, this`amounts, this`slots
      ensures lastIdxWithItem == old(lastIdxWithItem) + 1 && keys == old(keys) + [item]
      ensures amounts == old(amounts)[item := amount] && slots == old(slots)[item := lastIdxWithItem]
    {
      lastIdxWithItem := lastIdxWithItem + 1;
      keys := keys + [item];
      amounts := amounts[item := amount];
      slots := slots[item := lastIdxWithItem];
    }

    /**
     * `remove_item`: the named item, or the held one. No item to name, or one
     * not in the contents, raises KeyError and changes nothing. More than
     * `amount` left means only the amount drops; otherwise the entry goes, the
     * sprite holds nothing, and the remaining items are re-numbered 0.. in
     * order.
     */
    method RemoveItem(item: Option<string>, amount: int) returns (err: Option<Error>)
      requires Valid()
      modifies this
      ensures Valid()
      ensures var key := if item.Some? then item else old(holding);
        err == if key.Some? && key.value in old(amounts) then None else Some(KeyError)
      ensures err.Some? ==> amounts == old(amounts) && keys == old(keys) && slots == old(slots) && holding == old(holding)
      ensures err.None? ==> var t := if item.Some? then item.value else old(holding).value;
        if old(amounts[t]) - amount >= 1 then
          amounts == old(amounts)[t := old(amounts[t]) - amount]
          && keys == old(keys) && slots == old(slots) && holding == old(holding)
        else
          keys == Without(old(keys), t) && amounts == old(amounts) - {t} && holding.None?
          && forall i :: 0 <= i < |keys| ==> slots[keys[i]] == i
      ensures index == old(index) && lastIdxWithItem == old(lastIdxWithItem)
      ensures err.None? ==> amounts == Take(old(amounts), if item.Some? then item.value else old(holding).value, amount)
    {
      var key := if item.Some? then item else holding;
      if key.None? || key.value !in amounts {
        return Some(KeyError);
      }
      err := None;
      var t := key.value;
      if amounts[t] - amount >= 1 {
        amounts := amounts[t := amounts[t] - amount];
      } else {
        DeleteEntry(t);
      }
    }

    /** The deleting branch of `remove_item`. */
    method DeleteEntry(t: string)
      requires Valid() && t in amounts
      modifies this
      ensures Valid()
      ensures keys == Without(old(keys), t) && amounts == old(amounts) - {t} && holding.None?
      ensures forall i :: 0 <= i < |keys| ==> slots[keys[i]] == i
      ensures index == old(index) && lastIdxWithItem == old(lastIdxWithItem)
    {
      WithoutDistinct(keys, t);
      Drop(t);
      Reindex();
    }

    /** The stores of the deleting branch before the slots are renumbered. */
    method Drop(t: string)
      modifies this`holding, this`keys, this`amounts
      ensures holding.None? && keys == Without(old(keys), t) && amounts == old(amounts) - {t}
    {
      holding := None;
      keys := Without(keys, t);
      amounts := amounts - {t};
    }

    /** The loop after a deletion: slot `i` for the `i`-th remaining key. */
    method Reindex()
      requires Distinct(keys)
      modifies this`slots
      ensures forall n :: n in slots <==> n in keys
      ensures forall i :: 0 <= i < |keys| ==> slots[keys[i]] == i
    {
      var sl: map<string, int> := map[];
      var i := 0;
      while i < |keys|
        invariant 0 <= i <= |keys|
        invariant forall n :: n in sl <==> n in keys[..i]
        invariant forall k :: 0 <= k < i ==> sl[keys[k]] == k
      {
        sl := sl[keys[i] := i];
        assert keys[..i + 1] == keys[..i] + [keys[i]];
        i := i + 1;
      }
      assert keys[..i] == keys;
      slots := sl;
    }

    /** `get_idx_selection` once a number key is pressed: that slot is selected and its item, if any, held. */
    method SelectIndex(k: nat)
      modifies this
      ensures index == k && holding == (if k < |keys| then Some(keys[k]) else None)
      ensures keys == old(keys) && amounts == old(amounts) && slots == old(slots)
      ensures lastIdxWithItem == old(lastIdxWithItem)
    {
      index := k;
      holding := if k < |keys| then Some(keys[k]) else None;
    }

    /** `contents.clear()` and `item_holding = None`, as a respawn does. */
    method Clear()
      modifies this
      ensures Valid() && Capped() && keys == [] && amounts == map[] && slots == map[] && holding.None?
      ensures index == old(index) && lastIdxWithItem == old(lastIdxWithItem)
    {
      keys, amounts, slots := [], map[], map[];
      holding := None;
    }
  }

  /** The player's starting contents, in order. */
  const PLAYER_START_NAMES: seq<string> :=
    ["wood", "copper", "stone pickaxe", "pipe 0", "burner inserter", "burner furnace", "assembler",
     "wood torch", "outlet pump", "burner drill"]
  const PLAYER_START_AMOUNTS: seq<int> := [100, 100, 1, 100, 10, 10, 10, 99, 10, 10]
}
