/**
 * The assembler: once an item of a category is chosen it gets one input slot,
 * one progress counter and one looping alarm per ingredient of the item's
 * recipe. While every slot is stocked, each ingredient alarm that ends takes a
 * unit from its slot and counts it; when every count reaches the recipe's
 * amount, one item goes to the output and the counts start again.
 */
module Assemblers {
  import opened Wrappers
  import opened PyNum
  import opened Inventories
  import opened Alarms
  import opened Machines

  /** Each ingredient alarm's length, in milliseconds. */
  const SLOT_ALARM_LENGTH := 2500

  /** A recipe: ingredient names with the units one item needs, in the recipe's order. */
  type Recipe = seq<(string, int)>

  function Names(r: Recipe): seq<string>
  {
    seq(|r|, i requires 0 <= i < |r| => r[i].0)
  }

  /** `max(recipe.values())`. */
  function MaxCount(r: Recipe): (m: int)
    requires r != []
    ensures forall i :: 0 <= i < |r| ==> r[i].1 <= m
    ensures exists i :: 0 <= i < |r| && r[i].1 == m
  {
    if |r| == 1 then r[0].1
    else
      var m := MaxCount(r[1..]);
      assert forall i :: 1 <= i < |r| ==> r[i] == r[1..][i - 1];
      if r[0].1 >= m then r[0].1 else m
  }

  /** A counter of 0 for every ingredient. */
  function Zeros(r: Recipe): (z: map<string, int>)
    ensures forall k :: k in z <==> k in Names(r)
    ensures forall k :: k in z ==> z[k] == 0
  {
    map k | k in Names(r) :: 0
  }

  /** Every ingredient has been counted at least as many times as the recipe asks. */
  predicate Complete(progress: map<string, int>, r: Recipe)
  {
    forall i :: 0 <= i < |r| ==> r[i].0 in progress && progress[r[i].0] >= r[i].1
  }

  /** After a reset nothing is complete, unless the recipe asks for no units at all. */
  lemma ResetIsIncomplete(r: Recipe)
    requires exists i :: 0 <= i < |r| && r[i].1 >= 1
    ensures !Complete(Zeros(r), r)
  {
    var i :| 0 <= i < |r| && r[i].1 >= 1;
    assert r[i].0 == Names(r)[i];
  }

  /** The counters after the ingredients in `fired` each took one unit. */
  function Counted(progress: map<string, int>, fired: set<string>): (p: map<string, int>)
    ensures forall k :: k in p <==> k in progress
    ensures forall k :: k in p ==> p[k] == progress[k] + (if k in fired then 1 else 0)
  {
    map k | k in progress :: progress[k] + (if k in fired then 1 else 0)
  }

  /** An ingredient reaches its count after exactly as many ticks as it is short of it. */
  lemma {:induction false} TicksToComplete(progress: map<string, int>, k: string, n: nat)
    requires k in progress
    ensures var p := Repeat(progress, k, n); k in p && p[k] == progress[k] + n
    ensures forall j :: j in Repeat(progress, k, n) <==> j in progress
  {
    if n > 0 {
      TicksToComplete(progress, k, n - 1);
    }
  }

  /** `n` ticks that each count ingredient `k`. */
  function Repeat(progress: map<string, int>, k: string, n: nat): map<string, int>
  {
    if n == 0 then progress else Counted(Repeat(progress, k, n - 1), {k})
  }

  /** The alarm was running and its length has passed by `now`. */
  predicate Due(running: bool, start: int, length: int, now: int)
  {
    running && now - start >= length
  }

  // ---- The state the loop of `assemble_item` changes, as values ----

  /** An alarm's `running` and `start_time`. */
  datatype AlarmState = AlarmState(running: bool, start: int)

  /** An input slot's `item` and `amount`. */
  datatype SlotState = SlotState(item: Option<string>, amount: int)

  /** `start` on a stopped alarm, `update` on a running one. */
  function Tick(a: AlarmState, length: int, loop: bool, now: int): (t: AlarmState)
    ensures !a.running ==> t == AlarmState(true, now)
    ensures Due(a.running, a.start, length, now) ==> t.running == loop && t.start == (if loop then now else 0)
    ensures a.running && !Due(a.running, a.start, length, now) ==> t == a
  {
    if !a.running then AlarmState(true, now)
    else if Due(a.running, a.start, length, now) then AlarmState(loop, if loop then now else 0)
    else a
  }

  /** A looping alarm is running after every tick. */
  lemma LoopingAlarmKeepsRunning(a: AlarmState, length: int, now: int)
    ensures Tick(a, length, true, now).running
  {
  }

  /** An alarm ends now and calls `update_slot`, judged on its state `a` before the loop. */
  predicate FiresFrom(a: AlarmState, callback: Option<Callback>, length: int, now: int)
  {
    callback == Some(Callback.UpdateSlot) && Due(a.running, a.start, length, now)
  }

  /** The ingredients whose alarm, in the states given, ends at `now` and calls `update_slot`. */
  function FiredIn(states: map<string, AlarmState>, alarms: map<string, Alarm>, now: int): (f: set<string>)
    requires forall k :: k in states ==> k in alarms
    ensures forall k :: k in f <==> k in states && FiresFrom(states[k], alarms[k].callback, alarms[k].length, now)
  {
    set k | k in states && FiresFrom(states[k], alarms[k].callback, alarms[k].length, now)
  }

  /** `update_slot` on a slot that holds its item: one unit gone, and the item forgotten at 0. */
  function Consumed(s: SlotState): (c: SlotState)
    ensures c.amount == s.amount - 1
    ensures c.item.None? <==> s.item.None? || s.amount == 1
  {
    SlotState(if s.amount - 1 == 0 then None else s.item, s.amount - 1)
  }

  /** The slots of the ingredients in `fired` each consumed once. */
  function ConsumeSome(slots: map<string, SlotState>, fired: set<string>): (c: map<string, SlotState>)
    ensures forall k :: k in c <==> k in slots
    ensures forall k :: k in c && k !in fired ==> c[k] == slots[k]
  {
    map k | k in slots :: if k in fired then Consumed(slots[k]) else slots[k]
  }

  /** Counting two disjoint sets of ingredients one after the other counts their union. */
  lemma CountedTwice(progress: map<string, int>, a: set<string>, b: set<string>)
    requires a !! b
    ensures Counted(Counted(progress, a), b) == Counted(progress, a + b)
  {
  }

  /**
   * Nothing is lost: every unit that leaves an ingredient's slot is counted
   * for that ingredient, so each slot's amount plus its count is kept.
   */
  lemma UnitsAreConserved(slots: map<string, SlotState>, progress: map<string, int>, fired: set<string>, k: string)
    requires k in slots && k in progress
    ensures ConsumeSome(slots, fired)[k].amount + Counted(progress, fired)[k] == slots[k].amount + progress[k]
  {
  }

  /** `dict[key] = value` on the key order: a new key goes last, a present one keeps its place. */
  function InsertKey(keys: seq<string>, k: string): (r: seq<string>)
    ensures Distinct(keys) ==> Distinct(r)
    ensures forall j :: j in r <==> j in keys || j == k
  {
    if k in keys then keys else keys + [k]
  }

  /** Some ingredient in `fired` has a slot, in the contents `c0`, without an item. */
  predicate Starved(fired: set<string>, c0: map<string, SlotState>)
  {
    exists k :: k in fired && k in c0 && c0[k].item.None?
  }

  /** Visiting one more key adds that key's slot to those checked for an item. */
  lemma StarvedStep(fired: set<string>, done: set<string>, k: string, c0: map<string, SlotState>)
    ensures Starved(fired * (done + {k}), c0) <==> Starved(fired * done, c0) || (k in fired && k in c0 && c0[k].item.None?)
  {
    if Starved(fired * (done + {k}), c0) {
      var j :| j in fired * (done + {k}) && j in c0 && c0[j].item.None?;
      if j != k {
        assert j in fired * done;
      }
    }
  }

  /** The keys a list holds. */
  function Elements(s: seq<string>): set<string>
  {
    set x | x in s
  }

  lemma PrefixElements(s: seq<string>, i: int)
    requires 0 <= i < |s|
    ensures Elements(s[..i + 1]) == Elements(s[..i]) + {s[i]}
  {
    assert s[..i + 1] == s[..i] + [s[i]];
  }

  lemma NotInPrefix(keys: seq<string>, i: int)
    requires Distinct(keys) && 0 <= i < |keys|
    ensures keys[i] !in keys[..i]
  {
  }

  /** An alarm's state. */
  ghost function StateOf(a: Alarm): AlarmState
    reads a
  {
    AlarmState(a.running, a.startTime)
  }

  /** A slot's state. */
  ghost function ContentsOf(s: InvSlot): SlotState
    reads s
  {
    SlotState(s.item, s.amount)
  }

  /** The state of every alarm, by key. */
  ghost function States(alarms: map<string, Alarm>): (m: map<string, AlarmState>)
    reads alarms.Values
    ensures forall k :: k in m <==> k in alarms
    ensures forall k :: k in alarms ==> m[k] == StateOf(alarms[k])
  {
    map k | k in alarms :: StateOf(alarms[k])
  }

  /** The contents of every slot, by key. */
  ghost function Contents(slots: map<string, InvSlot>): (m: map<string, SlotState>)
    reads slots.Values
    ensures forall k :: k in m <==> k in slots
    ensures forall k :: k in slots ==> m[k] == ContentsOf(slots[k])
  {
    map k | k in slots :: ContentsOf(slots[k])
  }

  /**
   * `update_slot`: one unit leaves the slot and is counted for the slot's
   * item in the assembler's `assemble_progress`, given and returned as
   * `progress`; a slot left at 0 forgets its item. A slot without an item,
   * or with one that has no counter, raises a KeyError after the unit is gone.
   */
  method UpdateSlot(slot: InvSlot, progress: map<string, int>) returns (r: Result<()>, progress': map<string, int>)
    modifies slot
    ensures slot.amount == old(slot.amount) - 1
    ensures old(slot.item).Some? && old(slot.item).value in progress ==>
      r.Ok? && progress' == Counted(progress, {old(slot.item).value})
      && slot.item == (if slot.amount == 0 then None else old(slot.item))
    ensures !(old(slot.item).Some? && old(slot.item).value in progress) ==>
      r.Err? && r.error == KeyError && progress' == progress && slot.item == old(slot.item)
    ensures slot.rect == old(slot.rect) && slot.validInputs == old(slot.validInputs) && slot.maxCapacity == old(slot.maxCapacity)
  {
    slot.amount := slot.amount - 1;
    if !(slot.item.Some? && slot.item.value in progress) {
      return Err(KeyError), progress;
    }
    progress' := Counted(progress, {slot.item.value});
    if slot.amount == 0 {
      slot.item := None;
    }
    r := Ok(());
  }

  /**
   * The turn of key `k` in the loop of `assemble_item`, on the assembler's
   * alarms, slots, the slots bound to its alarms, and its counters: a
   * stopped alarm starts, a running one is updated, and if it ends it calls
   * `update_slot` on its slot. Nothing but that alarm and that slot changes.
   */
  method TickKey(k: string, alarms: map<string, Alarm>, slots: map<string, InvSlot>, bound: map<string, InvSlot>,
                 progress: map<string, int>, now: int)
    returns (r: Result<()>, progress': map<string, int>)
    requires k in alarms
    requires alarms[k].callback == None || alarms[k].callback == Some(Callback.UpdateSlot)
    requires alarms[k].callback == Some(Callback.UpdateSlot) ==> k in slots && k in bound && bound[k] == slots[k]
    requires k in slots ==> (k in progress && (slots[k].item == None || slots[k].item == Some(k)))
    modifies alarms[k], (if k in slots then {slots[k]} else {})
    ensures r.Ok? ==> StateOf(alarms[k]) == Tick(old(StateOf(alarms[k])), alarms[k].length, alarms[k].loop, now)
    ensures r.Err? ==> r.error == KeyError && StateOf(alarms[k]) == AlarmState(false, 0)
    ensures var fires := alarms[k].callback == Some(Callback.UpdateSlot)
              && Due(old(alarms[k].running), old(alarms[k].startTime), alarms[k].length, now);
      && (r.Ok? ==> progress' == Counted(progress, if fires then {k} else {}))
      && (r.Ok? && k in slots ==>
            ContentsOf(slots[k]) == (if fires then Consumed(old(ContentsOf(slots[k]))) else old(ContentsOf(slots[k]))))
      && (r.Err? ==> progress' == progress)
      && (r.Err? <==> fires && k in slots && old(slots[k].item).None?)
    ensures k in slots ==> slots[k].item == None || slots[k].item == Some(k)
  {
    var a := alarms[k];
    progress' := progress;
    if !a.running {
      a.Start(now);
    } else {
      var c := a.Update(now);
      if c == Some(Callback.UpdateSlot) {
        r, progress' := UpdateSlot(bound[k], progress);
        if r.Err? {
          // `end` raises between stopping the alarm and restarting it
          a.Halt();
        }
        return;
      }
    }
    assert progress' == Counted(progress, {});
    r := Ok(());
  }

  /** The alarms under the keys in `done` have ticked from their states `a0`; the others are still in them. */
  ghost predicate AlarmsTicked(alarms: map<string, Alarm>, a0: map<string, AlarmState>, done: set<string>, now: int)
    reads alarms.Values
  {
    forall k :: k in alarms ==>
      k in a0 && StateOf(alarms[k]) == (if k in done then Tick(a0[k], alarms[k].length, alarms[k].loop, now) else a0[k])
  }

  /** The slots under the keys in `used` have each given one unit from their contents `c0`; the others are unchanged. */
  ghost predicate SlotsConsumed(slots: map<string, InvSlot>, c0: map<string, SlotState>, used: set<string>)
    reads slots.Values
  {
    forall k :: k in slots ==> k in c0 && ContentsOf(slots[k]) == (if k in used then Consumed(c0[k]) else c0[k])
  }

  /**
   * One turn of the loop, stated against the states `a0` and contents `c0`
   * before the loop, the counters `p0` before it and the keys `done` already
   * visited.
   */
  method TickStep(k: string, alarms: map<string, Alarm>, slots: map<string, InvSlot>, bound: map<string, InvSlot>,
                  progress: map<string, int>, now: int,
                  ghost aown: map<Alarm, string>, ghost sown: map<InvSlot, string>,
                  ghost a0: map<string, AlarmState>, ghost c0: map<string, SlotState>,
                  ghost p0: map<string, int>, ghost fired: set<string>, ghost done: set<string>)
    returns (r: Result<()>, progress': map<string, int>)
    requires k in alarms && k !in done
    requires forall j :: j in alarms ==> alarms[j] in aown && aown[alarms[j]] == j
    requires forall j :: j in slots ==> slots[j] in sown && sown[slots[j]] == j
    requires alarms[k].callback == None || alarms[k].callback == Some(Callback.UpdateSlot)
    requires alarms[k].callback == Some(Callback.UpdateSlot) ==> k in slots && k in bound && bound[k] == slots[k]
    requires forall j :: j in c0 ==> j in slots
    requires forall j :: j in slots ==> j in p0 && j in c0 && (c0[j].item == None || c0[j].item == Some(j))
    requires k in a0 && (k in fired <==> FiresFrom(a0[k], alarms[k].callback, alarms[k].length, now))
    requires AlarmsTicked(alarms, a0, done, now) && SlotsConsumed(slots, c0, fired * done)
    requires progress == Counted(p0, fired * done)
    requires forall j :: j in slots ==> slots[j].item == None || slots[j].item == Some(j)
    modifies alarms[k], (if k in slots then {slots[k]} else {})
    ensures forall j :: j in progress' <==> j in p0
    ensures forall j :: j in slots ==> slots[j].item == None || slots[j].item == Some(j)
    ensures r.Ok? ==> AlarmsTicked(alarms, a0, done + {k}, now)
    ensures r.Ok? ==> SlotsConsumed(slots, c0, fired * (done + {k})) && progress' == Counted(p0, fired * (done + {k}))
    ensures r.Err? ==> r.error == KeyError && progress' == progress && !alarms[k].running
    ensures r.Err? <==> k in fired && k in c0 && c0[k].item.None?
  {
    r, progress' := TickKey(k, alarms, slots, bound, progress, now);
    if r.Ok? {
      ghost var step := if k in fired then {k} else {};
      CountedTwice(p0, fired * done, step);
      assert fired * done + step == fired * (done + {k});
      forall j | j in slots
        ensures ContentsOf(slots[j]) == (if j in fired * (done + {k}) then Consumed(c0[j]) else c0[j])
      {
        if j != k && k in slots {
          assert sown[slots[j]] != sown[slots[k]];
        }
      }
    }
    forall j | j in alarms && j != k && r.Ok?
      ensures StateOf(alarms[j]) == (if j in done + {k} then Tick(a0[j], alarms[j].length, alarms[j].loop, now) else a0[j])
    {
      assert aown[alarms[j]] != aown[alarms[k]];
    }
    forall j | j in slots && j != k && k in slots
      ensures slots[j].item == None || slots[j].item == Some(j)
    {
      assert sown[slots[j]] != sown[slots[k]];
    }
  }

  /**
   * The loop of `assemble_item` over the alarms, in the order of their keys:
   * every alarm ticks, and the slot of every ingredient in `fired`, those
   * whose alarm ends now and calls `update_slot`, gives one unit to its
   * counter. The first such slot without an item stops the loop with a
   * KeyError, keeping what the earlier alarms did.
   */
  method TickAll(keys: seq<string>, alarms: map<string, Alarm>, slots: map<string, InvSlot>, bound: map<string, InvSlot>,
                 progress: map<string, int>, now: int,
                 ghost aown: map<Alarm, string>, ghost sown: map<InvSlot, string>,
                 ghost a0: map<string, AlarmState>, ghost c0: map<string, SlotState>, ghost fired: set<string>)
    returns (r: Result<()>, progress': map<string, int>)
    requires Distinct(keys) && forall k :: k in alarms <==> k in keys
    requires forall k :: k in alarms ==> alarms[k] in aown && aown[alarms[k]] == k
    requires forall k :: k in slots ==> slots[k] in sown && sown[slots[k]] == k
    requires forall k :: k in alarms ==> alarms[k].callback == None || alarms[k].callback == Some(Callback.UpdateSlot)
    requires forall k :: k in alarms && alarms[k].callback == Some(Callback.UpdateSlot) ==>
      k in slots && k in bound && bound[k] == slots[k]
    requires forall k :: k in c0 ==> k in slots
    requires forall k :: k in slots ==> k in progress && k in c0 && (c0[k].item == None || c0[k].item == Some(k))
    requires forall k :: k in a0 ==> k in alarms
    requires fired == FiredIn(a0, alarms, now)
    requires AlarmsTicked(alarms, a0, {}, now) && SlotsConsumed(slots, c0, {})
    requires forall k :: k in slots ==> slots[k].item == None || slots[k].item == Some(k)
    modifies alarms.Values, slots.Values
    ensures forall k :: k in progress' <==> k in progress
    ensures forall k :: k in slots ==> slots[k].item == None || slots[k].item == Some(k)
    ensures r.Ok? ==> AlarmsTicked(alarms, a0, alarms.Keys, now)
    ensures r.Ok? ==> SlotsConsumed(slots, c0, fired) && progress' == Counted(progress, fired)
    ensures r.Err? ==> r.error == KeyError
    ensures r.Err? <==> Starved(fired, c0)
  {
    ghost var done: set<string> := {};
    progress' := progress;
    r := Ok(());
    var i := 0;
    while i < |keys|
      invariant 0 <= i <= |keys| && r.Ok?
      invariant done == Elements(keys[..i])
      invariant AlarmsTicked(alarms, a0, done, now) && SlotsConsumed(slots, c0, fired * done)
      invariant progress' == Counted(progress, fired * done)
      invariant !Starved(fired * done, c0)
      invariant forall k :: k in slots ==> slots[k].item == None || slots[k].item == Some(k)
    {
      var k := keys[i];
      NotInPrefix(keys, i);
      PrefixElements(keys, i);
      r, progress' := TickStep(k, alarms, slots, bound, progress', now, aown, sown, a0, c0, progress, fired, done);
      if r.Err? {
        assert k in fired && k in c0 && c0[k].item.None?;
        return;
      }
      StarvedStep(fired, done, k, c0);
      done := done + {k};
      i := i + 1;
    }
    assert keys[..i] == keys;
    assert fired * done == fired;
    assert done == alarms.Keys;
  }

  /** What an item's record holds under `'recipe'`: no such key, `None`, or a recipe. */
  datatype RecipeField = Missing | NoRecipe | Given(recipe: Recipe)

  /** An item name with its record's recipe, in the category's order. */
  type Entry = (string, RecipeField)

  /**
   * `item_category_data[item_category]` and then `list(data.keys())[idx]`
   * with the record at the same position: a category that is not set or not
   * known raises a KeyError, an index outside the list (Python counts a
   * negative one from the end) an IndexError.
   */
  function Select(data: map<string, seq<Entry>>, category: Option<string>, idx: int): (r: Result<Entry>)
    ensures r == Err(KeyError) <==> category.None? || category.value !in data
    ensures r == Err(IndexError) <==>
      category.Some? && category.value in data && !(-|data[category.value]| <= idx < |data[category.value]|)
    ensures r.Ok? ==> exists i :: (0 <= i < |data[category.value]| && r.value == data[category.value][i]
      && (i == idx || i == idx + |data[category.value]|))
  {
    if category.None? || category.value !in data then Err(KeyError)
    else
      var es := data[category.value];
      if -|es| <= idx < |es| then Ok(es[NpIndex(idx, |es|)]) else Err(IndexError)
  }

  /** A recipe is a dictionary: no ingredient is named twice. */
  predicate RecipesAreDicts(data: map<string, seq<Entry>>)
  {
    forall c, i :: c in data && 0 <= i < |data[c]| && data[c][i].1.Given? ==> Distinct(Names(data[c][i].1.recipe))
  }

  lemma NamesSnoc(r: Recipe, i: int)
    requires 0 <= i < |r|
    ensures Names(r[..i + 1]) == Names(r[..i]) + [r[i].0]
  {
  }

  /** The names of a prefix of a recipe with distinct names are distinct. */
  lemma PrefixDistinct(r: Recipe, i: int)
    requires Distinct(Names(r)) && 0 <= i <= |r|
    ensures Distinct(Names(r[..i]))
  {
    forall a, b | 0 <= a < b < i ensures Names(r[..i])[a] != Names(r[..i])[b] {
      assert Names(r[..i])[a] == Names(r)[a] && Names(r[..i])[b] == Names(r)[b];
    }
  }

  /** `InvSlot(item, valid_inputs={item})` for an ingredient, untouched since. */
  ghost predicate IngredientSlot(s: InvSlot, k: string)
    reads s
  {
    s.item == Some(k) && s.validInputs == Some({k}) && s.amount == 0 && s.maxCapacity == MAX_CAPACITY && s.rect.None?
  }

  /** The 2500 ms looping alarm that calls `update_slot`, not yet started. */
  ghost predicate IngredientAlarm(a: Alarm)
    reads a
  {
    a.length == SLOT_ALARM_LENGTH && a.callback == Some(Callback.UpdateSlot) && a.loop && !a.running
  }

  /**
   * The ingredients of `names` have each a counter at 0, an ingredient slot
   * and an ingredient alarm bound to that slot, each object stored under its
   * own key only.
   */
  ghost predicate LaidOut(names: seq<string>, counts: map<string, int>, slots: map<string, InvSlot>,
                          als: map<string, Alarm>, bound: map<string, InvSlot>,
                          aown: map<Alarm, string>, sown: map<InvSlot, string>)
    reads slots.Values, als.Values
  {
    (forall k :: k in slots <==> k in names)
    && (forall k :: k in als <==> k in names)
    && (forall k :: k in bound <==> k in names)
    && (forall k :: k in counts <==> k in names)
    && (forall k :: k in names ==>
          counts[k] == 0 && bound[k] == slots[k] && IngredientSlot(slots[k], k) && IngredientAlarm(als[k]))
    && (forall k :: k in als ==> als[k] in aown && aown[als[k]] == k)
    && (forall k :: k in slots ==> slots[k] in sown && sown[slots[k]] == k)
  }

  /**
   * The `for item in self.recipe` loop of `assign_item`: for each ingredient,
   * in the recipe's order, a counter at 0, a new ingredient slot and a new
   * ingredient alarm, with the keys each object is stored under.
   */
  method Ingredients(rec: Recipe, now: int, out: InvSlot)
    returns (counts: map<string, int>, slots: map<string, InvSlot>, als: map<string, Alarm>, keys: seq<string>,
             ghost aown: map<Alarm, string>, ghost sown: map<InvSlot, string>)
    requires Distinct(Names(rec))
    ensures keys == Names(rec) && LaidOut(keys, counts, slots, als, slots, aown, sown)
    ensures forall k :: k in slots ==> slots[k] != out
  {
    counts, slots, als, keys := map[], map[], map[], [];
    aown, sown := map[], map[];
    var i := 0;
    while i < |rec|
      invariant 0 <= i <= |rec| && keys == Names(rec[..i])
      invariant forall k :: k in slots <==> k in keys
      invariant forall k :: k in als <==> k in keys
      invariant forall k :: k in counts <==> k in keys
      invariant forall k :: k in keys ==>
        counts[k] == 0 && fresh(slots[k]) && IngredientSlot(slots[k], k) && IngredientAlarm(als[k])
      invariant forall k :: k in als ==> als[k] in aown && aown[als[k]] == k
      invariant forall k :: k in slots ==> slots[k] in sown && sown[slots[k]] == k
    {
      var ing := rec[i].0;
      NamesSnoc(rec, i);
      counts := counts[ing := 0];
      var slot := new InvSlot(Some(ing), Some({ing}), MAX_CAPACITY);
      slots := slots[ing := slot];
      var alarm := new Alarm(AlarmConfig(SLOT_ALARM_LENGTH, Some(Callback.UpdateSlot), false, true), now);
      als := als[ing := alarm];
      keys := keys + [ing];
      aown, sown := aown[alarm := ing], sown[slot := ing];
      i := i + 1;
    }
    assert rec[..i] == rec;
    assert LaidOut(keys, counts, slots, als, slots, aown, sown);
  }

  class Assembler {
    const inv: Inv
    /** `item_category_data`: the item records of every category, by category name. */
    const categoryData: map<string, seq<Entry>>
    var category: Option<string>
    var item: Option<string>
    var recipe: Option<Recipe>
    /** `assemble_progress`. */
    var progress: map<string, int>
    /** The keys of `alarms`, in insertion order. */
    var alarmKeys: seq<string>
    var alarms: map<string, Alarm>
    /** The slot each alarm was given under the `slot` keyword. */
    var alarmSlot: map<string, InvSlot>
    /** The key each alarm and each slot is stored under: different keys hold different objects. */
    ghost var alarmOwner: map<Alarm, string>
    ghost var slotOwner: map<InvSlot, string>

    /**
     * The wiring: the dictionaries agree with their key lists; each alarm and
     * each slot is stored under one key only; the only callback is `update_slot`,
     * bound to the slot of the alarm's ingredient; and the slots follow the
     * recipe.
     */
    ghost predicate Wired()
      reads this`recipe, this`item, this`alarmKeys, this`alarms, this`alarmSlot, this`alarmOwner, this`slotOwner, inv
    {
      inv.Valid()
      && Distinct(alarmKeys) && (forall k :: k in alarms <==> k in alarmKeys)
      && (forall k :: k in alarms ==> alarms[k] in alarmOwner && alarmOwner[alarms[k]] == k)
      && (forall k :: k in inv.inputSlots ==> inv.inputSlots[k] in slotOwner && slotOwner[inv.inputSlots[k]] == k)
      && (forall k :: k in alarms ==> alarms[k].callback == None || alarms[k].callback == Some(Callback.UpdateSlot))
      && (forall k :: k in alarms && alarms[k].callback == Some(Callback.UpdateSlot) ==>
            k in inv.inputSlots && k in alarmSlot && alarmSlot[k] == inv.inputSlots[k])
      && (recipe.None? ==> inv.inputKeys == [])
      && (recipe.Some? ==> inv.inputKeys == Names(recipe.value) && item.Some?)
    }

    /** There is a counter for every input slot and for nothing else. */
    ghost predicate Counters()
      reads this`progress, inv`inputSlots
    {
      forall k :: k in inv.inputSlots <==> k in progress
    }

    /** Each slot holds its own ingredient or nothing. */
    ghost predicate SlotItems()
      reads inv`inputSlots, inv.inputSlots.Values
    {
      forall k :: k in inv.inputSlots ==> inv.inputSlots[k].item == None || inv.inputSlots[k].item == Some(k)
    }

    ghost predicate Valid()
      reads this, inv, inv.inputSlots.Values
    {
      Wired() && Counters() && SlotItems()
    }

    /** The ingredients whose alarm ends at `now` and calls `update_slot`. */
    ghost function Fired(now: int): set<string>
      reads this, alarms.Values
    {
      FiredIn(States(alarms), alarms, now)
    }

    /** A new assembler: no item chosen, no slots, counters or alarms. */
    constructor (categoryData: map<string, seq<Entry>>)
      ensures Valid() && fresh(inv) && inv.inputKeys == [] && category.None? && item.None? && recipe.None?
      ensures progress == map[] && alarmKeys == [] && alarms == map[] && this.categoryData == categoryData
    {
      inv := new Inv([], map[]);
      this.categoryData := categoryData;
      category, item, recipe := None, None, None;
      progress := map[];
      alarmKeys, alarms, alarmSlot := [], map[], map[];
      alarmOwner, slotOwner := map[], map[];
    }

    /**
     * The loop of `assemble_item` over the alarms: every alarm ticks, and
     * the slot of every ingredient whose alarm ends gives one unit to its
     * counter. The first such slot without an item stops the loop with a
     * KeyError, keeping what the earlier alarms did.
     */
    method TickAlarms(now: int) returns (r: Result<()>, progress': map<string, int>)
      requires Valid()
      modifies alarms.Values, inv.inputSlots.Values
      ensures Wired() && SlotItems() && (forall k :: k in inv.inputSlots <==> k in progress')
      ensures ContentsOf(inv.output) == old(ContentsOf(inv.output))
      ensures r.Ok? ==> AlarmsTicked(alarms, old(States(alarms)), alarms.Keys, now)
      ensures r.Ok? ==> progress' == Counted(progress, old(Fired(now)))
      ensures r.Ok? ==> SlotsConsumed(inv.inputSlots, old(Contents(inv.inputSlots)), old(Fired(now)))
      ensures r.Err? ==> r.error == KeyError
      ensures r.Err? <==> Starved(old(Fired(now)), old(Contents(inv.inputSlots)))
    {
      r, progress' := TickAll(alarmKeys, alarms, inv.inputSlots, alarmSlot, progress, now,
                              alarmOwner, slotOwner, States(alarms), Contents(inv.inputSlots), Fired(now));
    }

    /** The guard of `assemble_item`: there are input slots and every one holds at least one unit. */
    predicate Stocked()
      reads inv, inv.inputSlots.Values
    {
      inv.inputSlots != map[] && forall k :: k in inv.inputSlots ==> inv.inputSlots[k].amount > 0
    }

    /** The counters as the alarms left them when one of them raised. */
    method SetCounts(counts: map<string, int>)
      requires Wired() && SlotItems() && forall k :: k in inv.inputSlots <==> k in counts
      modifies this`progress
      ensures Valid() && progress == counts
    {
      progress := counts;
    }

    /**
     * The end of `assemble_item`, on the counts the alarms left: once every
     * ingredient is counted as often as the recipe asks, one item goes to the
     * output slot, which takes the item's name if it has none, and the counts
     * start again from 0.
     */
    method Produce(counts: map<string, int>, ghost a0: map<string, AlarmState>, ghost c0: map<string, SlotState>,
                   ghost used: set<string>, ghost now: int)
      requires Wired() && SlotItems() && recipe.Some? && forall k :: k in inv.inputSlots <==> k in counts
      requires AlarmsTicked(alarms, a0, alarms.Keys, now) && SlotsConsumed(inv.inputSlots, c0, used)
      modifies inv.output, this`progress
      ensures Valid()
      ensures AlarmsTicked(alarms, a0, alarms.Keys, now) && SlotsConsumed(inv.inputSlots, c0, used)
      ensures Complete(counts, recipe.value) ==>
        progress == Zeros(recipe.value) && inv.output.amount == old(inv.output.amount) + 1
        && inv.output.item == (if Truthy(old(inv.output.item)) then old(inv.output.item) else item)
      ensures !Complete(counts, recipe.value) ==> progress == counts && ContentsOf(inv.output) == old(ContentsOf(inv.output))
      ensures forall k :: k in inv.inputSlots <==> k in progress
    {
      var rec := recipe.value;
      if Complete(counts, rec) {
        Emit(c0, used);
        SetCounts(Zeros(rec));
      } else {
        SetCounts(counts);
      }
    }

    /** One item more in the output slot, which takes the item's name if it has none. */
    method Emit(ghost c0: map<string, SlotState>, ghost used: set<string>)
      requires Wired() && SlotItems() && SlotsConsumed(inv.inputSlots, c0, used)
      modifies inv.output
      ensures Wired() && SlotItems() && SlotsConsumed(inv.inputSlots, c0, used)
      ensures inv.output.amount == old(inv.output.amount) + 1
      ensures inv.output.item == (if Truthy(old(inv.output.item)) then old(inv.output.item) else item)
    {
      assert inv.output !in inv.inputSlots.Values;
      if !Truthy(inv.output.item) {
        inv.output.item := item;
      }
      inv.output.amount := inv.output.amount + 1;
    }

    /**
     * `assemble_item`: while every input slot is stocked, every alarm ticks
     * and the ingredients whose alarm ends take a unit from their slot, and
     * then `Produce` runs on the new counts. A slot without an item whose
     * alarm ends raises a KeyError, keeping the units counted before it.
     */
    method AssembleItem(now: int) returns (r: Result<()>)
      requires Valid()
      modifies alarms.Values, inv.inputSlots.Values, inv.output, this`progress
      ensures Valid()
      ensures !old(Stocked()) ==> r.Ok? && unchanged(this, inv.output, alarms.Values, inv.inputSlots.Values)
      ensures old(Stocked()) && r.Ok? ==>
        AlarmsTicked(alarms, old(States(alarms)), alarms.Keys, now)
        && SlotsConsumed(inv.inputSlots, old(Contents(inv.inputSlots)), old(Fired(now)))
      ensures old(Stocked()) && r.Ok? ==>
        var counts := Counted(old(progress), old(Fired(now)));
        recipe.Some? &&
        if Complete(counts, recipe.value) then
          progress == Zeros(recipe.value) && inv.output.amount == old(inv.output.amount) + 1
          && inv.output.item == (if Truthy(old(inv.output.item)) then old(inv.output.item) else item)
        else
          progress == counts && ContentsOf(inv.output) == old(ContentsOf(inv.output))
      ensures old(Stocked()) && r.Err? ==> r.error == KeyError && ContentsOf(inv.output) == old(ContentsOf(inv.output))
      ensures r.Err? <==> old(Stocked()) && Starved(old(Fired(now)), old(Contents(inv.inputSlots)))
    {
      r := Ok(());
      if !Stocked() {
        return;
      }
      var counts;
      r, counts := TickAlarms(now);
      if r.Err? {
        SetCounts(counts);
        return;
      }
      Produce(counts, old(States(alarms)), old(Contents(inv.inputSlots)), old(Fired(now)), now);
    }

    /** The ingredients of `names` are laid out in the assembler's dictionaries, in the recipe's order. */
    ghost predicate Laid(names: seq<string>)
      reads this, inv, inv.inputSlots.Values, alarms.Values
    {
      inv.Valid() && inv.inputKeys == names && alarmKeys == names
      && LaidOut(names, progress, inv.inputSlots, alarms, alarmSlot, alarmOwner, slotOwner)
    }

    /** `assign_item` after the dictionaries are cleared: the ingredients of `rec` laid out. */
    method LayOut(rec: Recipe, now: int)
      requires Valid() && item.Some? && Distinct(Names(rec))
      modifies this`recipe, this`progress, this`alarmKeys, this`alarms, this`alarmSlot, this`alarmOwner, this`slotOwner, inv
      ensures Valid() && recipe == Some(rec) && Stock(rec) && alarmKeys == Names(rec)
      ensures forall k :: k in alarms <==> k in Names(rec)
      ensures IngredientAlarms(Names(rec), item.value)
    {
      var counts, slots, als, keys, aown, sown := Ingredients(rec, now, inv.output);
      Install(Some(rec), counts, slots, als, keys, aown, sown);
      LaidIsValid(rec);
    }

    /** A laid-out recipe is a valid state, with a fresh counter, slot and alarm per ingredient. */
    lemma LaidIsValid(rec: Recipe)
      requires inv.output !in inv.inputSlots.Values && item.Some? && recipe == Some(rec) && Distinct(Names(rec))
      requires Laid(Names(rec))
      ensures Valid() && Stock(rec) && alarmKeys == Names(rec)
      ensures forall k :: k in alarms <==> k in Names(rec)
      ensures IngredientAlarms(Names(rec), item.value)
    {
      assert progress == Zeros(rec);
    }

    /** Stores the dictionaries of a layout. */
    method Install(rec: Option<Recipe>, counts: map<string, int>, slots: map<string, InvSlot>, als: map<string, Alarm>, keys: seq<string>,
                   ghost aown: map<Alarm, string>, ghost sown: map<InvSlot, string>)
      modifies this`recipe, this`progress, this`alarmKeys, this`alarms, this`alarmSlot, this`alarmOwner, this`slotOwner, inv
      ensures recipe == rec && progress == counts && alarms == als && alarmSlot == slots && alarmKeys == keys
      ensures inv.inputSlots == slots && inv.inputKeys == keys && alarmOwner == aown && slotOwner == sown
    {
      recipe := rec;
      progress, alarms, alarmSlot, alarmKeys := counts, als, slots, keys;
      inv.inputSlots, inv.inputKeys := slots, keys;
      alarmOwner, slotOwner := aown, sown;
    }

    /** Nothing is laid out: no counters, slots or alarms. */
    ghost predicate Cleared()
      reads this, inv
    {
      progress == map[] && alarms == map[] && alarmKeys == [] && inv.inputSlots == map[] && inv.inputKeys == []
    }

    /** The ingredients of `rec` have each a counter at 0 and an ingredient slot, in the recipe's order. */
    ghost predicate Stock(rec: Recipe)
      reads this, inv, inv.inputSlots.Values
    {
      progress == Zeros(rec) && inv.inputKeys == Names(rec)
      && (forall k :: k in inv.inputSlots <==> k in Names(rec))
      && (forall k :: k in inv.inputSlots ==> IngredientSlot(inv.inputSlots[k], k))
    }

    /** Every ingredient of `names` but `except` has an ingredient alarm bound to its slot. */
    ghost predicate IngredientAlarms(names: seq<string>, except: string)
      reads this, inv, alarms.Values
    {
      forall k :: k in names && k != except ==>
        k in alarms && IngredientAlarm(alarms[k]) && k in alarmSlot && k in inv.inputSlots && alarmSlot[k] == inv.inputSlots[k]
    }

    /** The alarm under `name` is the output alarm: `length` ms, looping, no callback, bound to the output slot. */
    ghost predicate OutputAlarm(name: string, length: int)
      reads this, alarms.Values
    {
      name in alarms && alarms[name].length == length && alarms[name].callback.None? && alarms[name].loop
      && !alarms[name].running && name in alarmSlot && alarmSlot[name] == inv.output
    }

    /**
     * What a recipe field leaves behind once the item is chosen. `None`: everything
     * cleared and a TypeError. A recipe: a counter at 0, an ingredient slot and an
     * ingredient alarm per ingredient; an empty one then raises a ValueError, and
     * any other adds the output alarm under the item's name, lasting 2500 ms per
     * unit of the largest count and overwriting the ingredient alarm of that name.
     */
    ghost predicate Reassigned(field: RecipeField, r: Result<()>)
      reads this, inv, inv.inputSlots.Values, alarms.Values
    {
      item.Some?
      && (field.NoRecipe? ==> r == Err(TypeError) && recipe.None? && Cleared())
      && (field.Given? ==> recipe == Some(field.recipe) && Stock(field.recipe))
      && (field.Given? && field.recipe == [] ==> r == Err(ValueError) && alarms == map[] && alarmKeys == [])
      && (field.Given? && field.recipe != [] ==>
            r == Ok(()) && alarmKeys == InsertKey(Names(field.recipe), item.value)
            && (forall k :: k in alarms <==> k in Names(field.recipe) || k == item.value)
            && IngredientAlarms(Names(field.recipe), item.value)
            && OutputAlarm(item.value, MaxCount(field.recipe) * SLOT_ALARM_LENGTH))
    }

    /** `self.item = ...` and `self.inv.output_slot.valid_inputs = {self.item}`. */
    method Choose(name: string)
      requires Valid()
      modifies this`item, inv.output
      ensures Valid() && item == Some(name) && inv.output.validInputs == Some({name})
    {
      item := Some(name);
      assert inv.output !in inv.inputSlots.Values;
      inv.output.validInputs := Some({name});
    }

    /** A recipe of `None`: the dictionaries are cleared and iterating it raises a TypeError. */
    method Clear()
      requires Valid()
      modifies this`recipe, this`progress, this`alarmKeys, this`alarms, this`alarmSlot, this`alarmOwner, this`slotOwner, inv
      ensures Valid() && recipe.None? && Cleared()
    {
      Install(None, map[], map[], map[], [], map[], map[]);
    }

    /** `self.alarms[self.item] = Alarm(...)`: the output alarm goes under the item's own name, bound to the output slot. */
    method AddOutputAlarm(length: int, now: int, ghost names: seq<string>)
      requires Valid() && item.Some? && IngredientAlarms(names, item.value)
      modifies this`alarms, this`alarmKeys, this`alarmSlot, this`alarmOwner
      ensures Valid() && OutputAlarm(item.value, length)
      ensures alarmKeys == InsertKey(old(alarmKeys), item.value)
      ensures forall k :: k in alarms <==> k in old(alarms) || k == item.value
      ensures IngredientAlarms(names, item.value)
    {
      var name := item.value;
      var a := new Alarm(AlarmConfig(length, None, false, true), now);
      Store(name, a);
    }

    /** Stores the alarm `a` under `name`, bound to the output slot. */
    method Store(name: string, a: Alarm)
      modifies this`alarms, this`alarmKeys, this`alarmSlot, this`alarmOwner
      ensures alarms == old(alarms)[name := a] && alarmKeys == InsertKey(old(alarmKeys), name)
      ensures alarmSlot == old(alarmSlot)[name := inv.output] && alarmOwner == old(alarmOwner)[a := name]
    {
      alarms := alarms[name := a];
      alarmKeys := InsertKey(alarmKeys, name);
      alarmSlot := alarmSlot[name := inv.output];
      alarmOwner := alarmOwner[a := name];
    }

    /**
     * `assign_item(idx)`: the item at `idx` of the chosen category becomes
     * the assembler's item and the only valid input of the output slot. Its
     * record's recipe replaces the slots, counters and alarms: one slot,
     * counter and ingredient alarm per ingredient, and one output alarm under
     * the item's name that lasts 2500 ms per unit of the largest count. A
     * record without a recipe raises a KeyError before anything is cleared; a
     * recipe of None clears everything and raises a TypeError; an empty
     * recipe raises a ValueError once there is nothing to take the maximum of.
     */
    method AssignItem(idx: int, now: int) returns (r: Result<()>)
      requires Valid() && RecipesAreDicts(categoryData)
      modifies this, inv, inv.output
      ensures Valid()
      ensures Select(categoryData, old(category), idx).Err? ==>
        r == Err(Select(categoryData, old(category), idx).error) && unchanged(this, inv, inv.output)
      ensures Select(categoryData, old(category), idx).Ok? ==>
        var e := Select(categoryData, old(category), idx).value;
        item == Some(e.0) && inv.output.validInputs == Some({e.0})
        && (e.1.Missing? ==>
              r == Err(KeyError) && recipe == old(recipe) && progress == old(progress) && alarms == old(alarms)
              && alarmKeys == old(alarmKeys) && inv.inputSlots == old(inv.inputSlots))
        && (!e.1.Missing? ==> Reassigned(e.1, r))
    {
      var sel := Select(categoryData, category, idx);
      if sel.Err? {
        return Err(sel.error);
      }
      var e := sel.value;
      Choose(e.0);
      r := Reassign(e.1, now);
      assert e == Select(categoryData, old(category), idx).value;
    }

    /** The rest of `assign_item`, once the item is chosen: its record's recipe replaces the dictionaries. */
    method Reassign(field: RecipeField, now: int) returns (r: Result<()>)
      requires Valid() && item.Some? && (field.Given? ==> Distinct(Names(field.recipe)))
      modifies this`recipe, this`progress, this`alarmKeys, this`alarms, this`alarmSlot, this`alarmOwner, this`slotOwner, inv
      ensures Valid() && item == old(item)
      ensures field.Missing? ==> r == Err(KeyError) && unchanged(this, inv)
      ensures !field.Missing? ==> Reassigned(field, r)
    {
      match field {
        case Missing =>
          r := Err(KeyError);
        case NoRecipe =>
          Clear();
          r := Err(TypeError);
        case Given(rec) =>
          r := ReassignRecipe(rec, now);
      }
    }

    /** The recipe case: the ingredients are laid out, then an empty recipe raises and any other gets its output alarm. */
    method ReassignRecipe(rec: Recipe, now: int) returns (r: Result<()>)
      requires Valid() && item.Some? && Distinct(Names(rec))
      modifies this`recipe, this`progress, this`alarmKeys, this`alarms, this`alarmSlot, this`alarmOwner, this`slotOwner, inv
      ensures Valid() && item == old(item)
      ensures recipe == Some(rec) && Stock(rec)
      ensures rec == [] ==> r == Err(ValueError) && alarms == map[] && alarmKeys == []
      ensures rec != [] ==>
        r == Ok(()) && alarmKeys == InsertKey(Names(rec), item.value)
        && (forall k :: k in alarms <==> k in Names(rec) || k == item.value)
        && IngredientAlarms(Names(rec), item.value)
        && OutputAlarm(item.value, MaxCount(rec) * SLOT_ALARM_LENGTH)
    {
      LayOut(rec, now);
      if rec == [] {
        r := Err(ValueError);
      } else {
        ghost var p, keys, slots := progress, inv.inputKeys, inv.inputSlots;
        AddOutputAlarm(MaxCount(rec) * SLOT_ALARM_LENGTH, now, Names(rec));
        assert progress == p && inv.inputKeys == keys && inv.inputSlots == slots;
        r := Ok(());
      }
    }
  }
}
