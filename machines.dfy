/**
 * What every machine shares: its inventory slots, the slot list the UI walks,
 * the tile it stands on, and the slot transfers of the machine UI: dropping
 * the held item into a slot, taking a slot's contents back, and the furnace's
 * per-tick slot update.
 */
module Machines {
  import opened Wrappers
  import opened PyNum
  import opened Rects
  import opened Settings
  import opened Inventories

  /** `max_capacity`'s default. */
  const MAX_CAPACITY := 99

  /** An item name as Python's truth test reads it: set and not empty. */
  predicate Truthy(item: Option<string>)
  {
    item.Some? && item.value != ""
  }

  /** `InvSlot`: one slot of a machine, changed in place by the UI and the machine. */
  class InvSlot {
    var item: Option<string>
    var rect: Option<Rect>
    var validInputs: Option<set<string>>
    var amount: int
    var maxCapacity: int

    /** `InvSlot(item, valid_inputs=..., max_capacity=...)`: no rect yet and nothing in it. */
    constructor (item: Option<string>, validInputs: Option<set<string>>, maxCapacity: int)
      ensures this.item == item && this.validInputs == validInputs && this.maxCapacity == maxCapacity
      ensures rect.None? && amount == 0
    {
      this.item := item;
      this.validInputs := validInputs;
      this.maxCapacity := maxCapacity;
      rect := None;
      amount := 0;
    }

    /** `InvSlot()`: every field at its default. */
    constructor Default()
      ensures item.None? && rect.None? && validInputs.None? && amount == 0 && maxCapacity == MAX_CAPACITY
    {
      item := None;
      rect := None;
      validInputs := None;
      amount := 0;
      maxCapacity := MAX_CAPACITY;
    }
  }

  /** The slots stored under `keys`, in that order. */
  function Values(keys: seq<string>, slots: map<string, InvSlot>): (r: seq<InvSlot>)
    requires forall k :: k in keys ==> k in slots
    ensures |r| == |keys|
    ensures forall i :: 0 <= i < |keys| ==> r[i] == slots[keys[i]]
  {
    if keys == [] then [] else [slots[keys[0]]] + Values(keys[1..], slots)
  }

  /** `Inv`: the input slots by name, in insertion order, and the output slot. */
  class Inv {
    /** The keys of `input_slots`, in insertion order; a missing dictionary has none. */
    var inputKeys: seq<string>
    var inputSlots: map<string, InvSlot>
    const output: InvSlot

    /** The keys and the dictionary agree, no key repeats, and the output slot is none of the inputs. */
    ghost predicate Valid()
      reads this
    {
      Distinct(inputKeys)
      && (forall k :: k in inputSlots <==> k in inputKeys)
      && (forall k :: k in inputSlots ==> inputSlots[k] != output)
    }

    /** `Inv(input_slots=...)`: the output slot is a fresh default slot of its own. */
    constructor (keys: seq<string>, slots: map<string, InvSlot>)
      requires Distinct(keys) && forall k :: k in slots <==> k in keys
      ensures Valid() && inputKeys == keys && inputSlots == slots && fresh(output)
      ensures output.item.None? && output.rect.None? && output.validInputs.None?
      ensures output.amount == 0 && output.maxCapacity == MAX_CAPACITY
    {
      inputKeys := keys;
      inputSlots := slots;
      output := new InvSlot.Default();
    }

    /** `__iter__`: the input slots in insertion order, then the output slot. */
    function Slots(): (s: seq<InvSlot>)
      requires Valid()
      reads this
      ensures |s| == |inputKeys| + 1 && s[|inputKeys|] == output
      ensures forall i :: 0 <= i < |inputKeys| ==> s[i] == inputSlots[inputKeys[i]]
    {
      Values(inputKeys, inputSlots) + [output]
    }

    /** Without input slots only the output slot is visited. */
    lemma OnlyOutputWithoutInputs()
      requires Valid() && inputKeys == []
      ensures Slots() == [output]
    {
    }

    /** Every slot is visited once: the output slot is last and nowhere else. */
    lemma OutputOnlyLast()
      requires Valid()
      ensures forall i :: 0 <= i < |Slots()| - 1 ==> Slots()[i] != output
    {
    }
  }

  /** `tile_xy`: the tile under a point, by floor division. */
  function TileXY(xy: Coord): (t: Coord)
    ensures TILE_SIZE * t.0 <= xy.0 < TILE_SIZE * t.0 + TILE_SIZE
    ensures TILE_SIZE * t.1 <= xy.1 < TILE_SIZE * t.1 + TILE_SIZE
  {
    (FloorDiv(xy.0, TILE_SIZE), FloorDiv(xy.1, TILE_SIZE))
  }

  /** A machine's `{'item': ..., 'amount': ...}` dictionaries. */
  datatype Stack = Stack(item: Option<string>, amount: int)

  const EMPTY_STACK := Stack(None, 0)

  /** The fields of a machine's save data that the base class reads. */
  datatype SaveData = SaveData(fuelInput: Stack, output: Stack, active: bool)

  /** A machine: its tile, its slots, the fuel and output stacks inserters use, and whether it runs. */
  class Machine {
    const tileXY: Coord
    const inv: Inv
    /** `fuel_input` and `output`; None where the machine has no UI and so no such attribute. */
    var fuelInput: Option<Stack>
    var output: Option<Stack>
    var active: bool

    /** `Machine.__init__` at top-left `xy`, with or without a UI, from save data or new. */
    constructor (xy: Coord, inv: Inv, hasUi: bool, saved: Option<SaveData>)
      ensures tileXY == TileXY(xy) && this.inv == inv
      ensures fuelInput == (if !hasUi then None else if saved.Some? then Some(saved.value.fuelInput) else Some(EMPTY_STACK))
      ensures output == (if !hasUi then None else if saved.Some? then Some(saved.value.output) else Some(EMPTY_STACK))
      ensures active == (saved.Some? && saved.value.active)
    {
      tileXY := TileXY(xy);
      this.inv := inv;
      if hasUi {
        fuelInput := Some(if saved.Some? then saved.value.fuelInput else EMPTY_STACK);
        output := Some(if saved.Some? then saved.value.output else EMPTY_STACK);
      } else {
        fuelInput, output := None, None;
      }
      active := saved.Some? && saved.value.active;
    }
  }

  // ---- The machine UI ----

  /** The mouse is over a slot that has a rect. */
  predicate Hit(s: InvSlot, p: (int, int))
    reads s
  {
    s.rect.Some? && CollidePoint(s.rect.value, p)
  }

  /** The position of the first slot under the mouse. */
  function FirstSlotAt(slots: seq<InvSlot>, p: (int, int)): (r: Option<nat>)
    reads slots
    ensures r.Some? ==> r.value < |slots| && Hit(slots[r.value], p)
    ensures r.Some? ==> forall j :: 0 <= j < r.value ==> !Hit(slots[j], p)
    ensures r.None? <==> forall j :: 0 <= j < |slots| ==> !Hit(slots[j], p)
  {
    if slots == [] then None
    else if Hit(slots[0], p) then Some(0)
    else
      var r := FirstSlotAt(slots[1..], p);
      assert forall j :: 1 <= j < |slots| ==> slots[j] == slots[1..][j - 1];
      if r.Some? then Some(r.value + 1) else None
  }

  /** How many units `extract_item` takes: all on a left click, half rounded down but at least one otherwise. */
  function ExtractAmount(amount: int, left: bool): (m: int)
    ensures left ==> m == amount
    ensures !left ==> m >= 1
    ensures !left && amount >= 2 ==> 2 * m <= amount < 2 * m + 2
    ensures !left && amount <= 1 ==> m == 1
  {
    if left then amount else Max(1, FloorDiv(amount, 2))
  }

  /** A click on a stocked slot never takes more than the slot holds, and a left click empties it. */
  lemma ExtractNeverOverdraws(amount: int, left: bool)
    requires amount >= 1
    ensures 1 <= ExtractAmount(amount, left) <= amount
    ensures left ==> amount - ExtractAmount(amount, left) == 0
    ensures !left ==> amount - ExtractAmount(amount, left) == (if amount == 1 then 0 else (amount + 1) / 2)
  {
  }

  class MachineUI {
    const inv: Inv
    /** Whether the UI window is open; `update_inv_slot` closes it. */
    var active: bool

    constructor (inv: Inv)
      ensures this.inv == inv && !active
    {
      this.inv := inv;
      active := false;
    }

    /** `get_slot_input`: the first slot, in iteration order, with a rect under the mouse at `p`. */
    function GetSlotInput(p: (int, int)): (r: Option<InvSlot>)
      requires inv.Valid()
      reads this, inv, inv.Slots()
      ensures r.None? <==> forall j :: 0 <= j < |inv.Slots()| ==> !Hit(inv.Slots()[j], p)
      ensures r.Some? ==>
        exists i :: 0 <= i < |inv.Slots()| && inv.Slots()[i] == r.value && Hit(r.value, p)
          && forall j :: 0 <= j < i ==> !Hit(inv.Slots()[j], p)
    {
      var k := FirstSlotAt(inv.Slots(), p);
      if k.Some? then Some(inv.Slots()[k.value]) else None
    }

    /**
     * `input_item`: only an item the slot accepts goes in; an empty slot takes
     * its name, the amount is added, and the player loses that amount of the
     * held item. A slot without a set of valid inputs raises a TypeError, and a
     * held item with no entry in the inventory a KeyError once the slot has
     * been filled. The result says whether the item went in.
     */
    method InputItem(slot: InvSlot, amount: int, player: SpriteInventory) returns (r: Result<bool>)
      requires player.Valid()
      modifies slot, player
      ensures player.Valid()
      ensures old(slot.validInputs).None? ==> r == Err(TypeError)
      ensures
        var accepted := old(slot.validInputs).Some? && old(player.holding).Some? && old(player.holding).value in old(slot.validInputs).value;
        && (!accepted ==>
              (old(slot.validInputs).Some? ==> r == Ok(false))
              && slot.item == old(slot.item) && slot.amount == old(slot.amount)
              && player.amounts == old(player.amounts) && player.holding == old(player.holding))
        && (accepted ==>
              slot.item == (if old(slot.item).None? then old(player.holding) else old(slot.item))
              && slot.amount == old(slot.amount) + amount)
        && (accepted && old(player.holding).value in old(player.amounts) ==>
            r == Ok(true) && player.amounts == Take(old(player.amounts), old(player.holding).value, amount))
        && (accepted && old(player.holding).value !in old(player.amounts) ==>
            r == Err(KeyError) && player.amounts == old(player.amounts))
      ensures slot.rect == old(slot.rect) && slot.validInputs == old(slot.validInputs) && slot.maxCapacity == old(slot.maxCapacity)
    {
      if slot.validInputs.None? {
        return Err(TypeError);
      }
      var holding := player.holding;
      if !(holding.Some? && holding.value in slot.validInputs.value) {
        return Ok(false);
      }
      if slot.item.None? {
        slot.item := holding;
      }
      slot.amount := slot.amount + amount;
      if holding.value !in player.amounts {
        return Err(KeyError);
      }
      var _ := player.RemoveItem(None, amount);
      r := Ok(true);
    }

    /**
     * `extract_item`: a left click takes the whole stack, any other click
     * half of it (at least one); the units go to the player's inventory and
     * a slot left at 0 forgets its item.
     */
    method ExtractItem(slot: InvSlot, left: bool, player: SpriteInventory)
      requires player.Valid() && slot.item.Some?
      requires slot.item.value !in player.amounts && player.lastIdxWithItem >= NUM_SLOTS ==> player.holding.Some?
      modifies slot, player
      ensures player.Valid()
      ensures slot.amount == old(slot.amount) - ExtractAmount(old(slot.amount), left)
      ensures slot.item == if slot.amount == 0 then None else old(slot.item)
      ensures player.amounts == AddAmount(old(player.amounts), old(slot.item).value, ExtractAmount(old(slot.amount), left), old(player.lastIdxWithItem))
      ensures player.holding == if old(player.holding).None? then old(slot.item) else old(player.holding)
      ensures slot.rect == old(slot.rect) && slot.validInputs == old(slot.validInputs) && slot.maxCapacity == old(slot.maxCapacity)
    {
      var amount := ExtractAmount(slot.amount, left);
      slot.amount := slot.amount - amount;
      player.AddItem(slot.item.value, amount);
      if slot.amount == 0 {
        slot.item := None;
      }
    }

    /**
     * `update_inv_slot`, with `canSmelt` the furnace's table from an ore to
     * its plate: one unit of the smelt (or fuel) slot is used up, a slot left
     * at 0 forgets its item and closes the window, and a smelt slot that
     * still holds an item adds one unit to the output, naming it after the
     * plate when the output is empty. A missing slot or an item the table does
     * not know raises a KeyError.
     */
    method UpdateInvSlot(smelt: bool, canSmelt: map<string, string>) returns (r: Result<bool>)
      requires inv.Valid()
      modifies this, inv.inputSlots.Values, inv.output
      ensures
        var key := if smelt then "smelt" else "burn fuel";
        && (key !in old(inv.inputSlots) ==> r == Err(KeyError) && active == old(active))
        && (key in old(inv.inputSlots) ==>
            var s := old(inv.inputSlots)[key];
            && s.amount == old(s.amount) - 1
            && s.item == (if s.amount == 0 then None else old(s.item))
            && active == (if s.amount == 0 then false else old(active))
            && (smelt && Truthy(s.item) && !Truthy(old(inv.output.item)) && s.item.value !in canSmelt ==>
                r == Err(KeyError) && inv.output.amount == old(inv.output.amount))
            && (smelt && Truthy(s.item) && (Truthy(old(inv.output.item)) || s.item.value in canSmelt) ==>
                r == Ok(true) && inv.output.amount == old(inv.output.amount) + 1
                && inv.output.item == (if Truthy(old(inv.output.item)) then old(inv.output.item) else Some(canSmelt[s.item.value])))
            && (!(smelt && Truthy(s.item)) ==>
                r == Ok(false) && inv.output.amount == old(inv.output.amount) && inv.output.item == old(inv.output.item)))
    {
      var key := if smelt then "smelt" else "burn fuel";
      if key !in inv.inputSlots {
        return Err(KeyError);
      }
      var s := inv.inputSlots[key];
      s.amount := s.amount - 1;
      if s.amount == 0 {
        s.item := None;
        active := false;
      }
      if !(smelt && Truthy(s.item)) {
        return Ok(false);
      }
      if !Truthy(inv.output.item) {
        if s.item.value !in canSmelt {
          return Err(KeyError);
        }
        inv.output.item := Some(canSmelt[s.item.value]);
      }
      inv.output.amount := inv.output.amount + 1;
      r := Ok(true);
    }
  }
}
