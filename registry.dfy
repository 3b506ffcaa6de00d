/**
 * The tile registry of world generation: every tile name gets an integer id,
 * 'air' is 0 and 'item extended' (the invisible filler of multi-tile items) is 1,
 * and the remaining names take consecutive ids from 2 in list order.
 */
module TileRegistry {
  import opened Wrappers
  import opened Settings

  const AIR := 0
  const ITEM_EXTENDED := 1

  datatype Registry = Registry(namesToIds: map<string, int>, idsToNames: map<int, string>, rampIds: set<int>)
  {
    /** The terrain tile ids. */
    function TileIds(): set<int>
    {
      set n | n in TILE_NAMES && n in namesToIds :: namesToIds[n]
    }

    /** The ids a pipe may border on: production machines and 'item extended'. */
    function MachineIds(): set<int>
    {
      (set n | n in PRODUCTION_NAMES && n in namesToIds :: namesToIds[n]) + {ITEM_EXTENDED}
    }

    /** The ids of the eleven pipe variants 'pipe 0' to 'pipe 10'. */
    function PipeIds(): set<int>
    {
      set n | n in PipeNames(|PIPE_TRANSPORT_DIRS|) && n in namesToIds :: namesToIds[n]
    }

    function LiquidIds(): set<int>
    {
      set n | n in LIQUIDS && n in namesToIds :: namesToIds[n]
    }
  }

  /** `str(n)`. */
  function NatToString(n: nat): (s: string)
    ensures |s| > 0
    ensures forall k :: 0 <= k < |s| ==> '0' <= s[k] <= '9'
    ensures s[|s| - 1] == (n % 10) as char + '0'
  {
    if n < 10 then [(n as char) + '0'] else NatToString(n / 10) + [((n % 10) as char) + '0']
  }

  /** 'pipe 0', 'pipe 1', ... one name per pipe variant. */
  function PipeNames(n: nat): seq<string>
  {
    seq(n, i requires 0 <= i < n => "pipe " + NatToString(i))
  }

  /**
   * The names after 'air' and 'item extended', in the order they are enumerated:
   * terrain tiles, ramps, production machines, pipe variants, electricity, logistics,
   * storage, the liquids (`liquids` is the iteration order of the LIQUIDS set) and 'tree base'.
   */
  function GameTileNames(liquids: seq<string>): seq<string>
  {
    TILE_NAMES + RAMP_TILES + PRODUCTION_NAMES + PipeNames(|PIPE_TRANSPORT_DIRS|) + ELECTRICITY_NAMES
      + LOGISTICS_NAMES + STORAGE_NAMES + liquids + ["tree base"]
  }

  // ---- The registry as a function of the name list ----

  /** names_to_ids after the loop: each name maps to the id of its last occurrence. */
  function NamesToIds(names: seq<string>): map<string, int>
    decreases |names|
  {
    if names == [] then map["air" := AIR, "item extended" := ITEM_EXTENDED]
    else NamesToIds(names[..|names| - 1])[names[|names| - 1] := |names| + 1]
  }

  /** ids_to_names after the loop: id i + 2 names the i-th name. */
  function IdsToNames(names: seq<string>): map<int, string>
    decreases |names|
  {
    if names == [] then map[AIR := "air", ITEM_EXTENDED := "item extended"]
    else IdsToNames(names[..|names| - 1])[|names| + 1 := names[|names| - 1]]
  }

  lemma {:induction false} IdsToNamesAt(names: seq<string>, id: int)
    ensures id in IdsToNames(names) <==> 0 <= id < |names| + 2
    ensures id in IdsToNames(names) ==>
      IdsToNames(names)[id] == if id == AIR then "air" else if id == ITEM_EXTENDED then "item extended" else names[id - 2]
    decreases |names|
  {
    if names != [] {
      var init := names[..|names| - 1];
      IdsToNamesAt(init, id);
      if 2 <= id < |names| + 1 {
        assert init[id - 2] == names[id - 2];
      }
    }
  }

  /** ramp_ids after the loop: the ids whose names contain 'ramp'. */
  function RampIds(names: seq<string>): set<int>
    decreases |names|
  {
    if names == [] then {}
    else RampIds(names[..|names| - 1]) + (if Contains(names[|names| - 1], "ramp") then {|names| + 1} else {})
  }

  function BuildRegistry(names: seq<string>): Registry
  {
    Registry(NamesToIds(names), IdsToNames(names), RampIds(names))
  }

  predicate Distinct(names: seq<string>)
  {
    forall i, j :: 0 <= i < j < |names| ==> names[i] != names[j]
  }

  /** The loop of the registry builder: one id per name, in list order. */
  method GetTileIds(names: seq<string>) returns (reg: Registry)
    ensures reg == BuildRegistry(names)
  {
    var namesToIds := map["air" := AIR, "item extended" := ITEM_EXTENDED];
    var idsToNames := map[AIR := "air", ITEM_EXTENDED := "item extended"];
    var rampIds: set<int> := {};
    assert idsToNames.Keys == {AIR, ITEM_EXTENDED};
    var existingIds := |idsToNames|;
    assert names[..0] == [];
    var i := 0;
    while i < |names|
      invariant 0 <= i <= |names|
      invariant existingIds == 2
      invariant namesToIds == NamesToIds(names[..i])
      invariant idsToNames == IdsToNames(names[..i])
      invariant rampIds == RampIds(names[..i])
    {
      var name := names[i];
      var idNum := existingIds + i;
      BuildStep(names, i);
      namesToIds := namesToIds[name := idNum];
      idsToNames := idsToNames[idNum := name];
      if Contains(name, "ramp") {
        rampIds := rampIds + {idNum};
      }
      i := i + 1;
    }
    assert names[..i] == names;
    reg := Registry(namesToIds, idsToNames, rampIds);
  }

  /** One more name: the maps gain its id `i + 2`, and the ramp set gains that id when the name contains 'ramp'. */
  lemma BuildStep(names: seq<string>, i: int)
    requires 0 <= i < |names|
    ensures NamesToIds(names[..i + 1]) == NamesToIds(names[..i])[names[i] := i + 2]
    ensures IdsToNames(names[..i + 1]) == IdsToNames(names[..i])[i + 2 := names[i]]
    ensures RampIds(names[..i + 1]) == RampIds(names[..i]) + (if Contains(names[i], "ramp") then {i + 2} else {})
  {
    var next := names[..i + 1];
    assert next[..|next| - 1] == names[..i] && next[|next| - 1] == names[i];
  }

  lemma {:induction false} NamesToIdsKeys(names: seq<string>)
    ensures NamesToIds(names).Keys == {"air", "item extended"} + set n | n in names
    decreases |names|
  {
    if names != [] {
      var init := names[..|names| - 1];
      NamesToIdsKeys(init);
      assert names == init + [names[|names| - 1]];
      assert (set n | n in names) == (set n | n in init) + {names[|names| - 1]};
    }
  }

  /** Looking up a name and then its id gives the name back, whatever the list. */
  lemma {:induction false} NamesToIdsRoundTrip(names: seq<string>, n: string)
    requires n in NamesToIds(names)
    decreases |names|
    ensures 0 <= NamesToIds(names)[n] < |names| + 2
    ensures NamesToIds(names)[n] in IdsToNames(names) && IdsToNames(names)[NamesToIds(names)[n]] == n
    decreases |names|
  {
    if names != [] {
      var init := names[..|names| - 1];
      if n != names[|names| - 1] {
        assert n in NamesToIds(init);
        NamesToIdsRoundTrip(init, n);
        var id := NamesToIds(init)[n];
        IdsToNamesAt(init, id);
        IdsToNamesAt(names, id);
        assert id == AIR || id == ITEM_EXTENDED || names[id - 2] == init[id - 2];
      } else {
        IdsToNamesAt(names, |names| + 1);
      }
    }
  }

  /** With distinct names that avoid the two reserved ones, name i gets id i + 2. */
  lemma {:induction false} NamesToIdsOfDistinct(names: seq<string>, i: nat)
    requires Distinct(names) && "air" !in names && "item extended" !in names
    requires i < |names|
    ensures names[i] in NamesToIds(names) && NamesToIds(names)[names[i]] == i + 2
    decreases |names|
  {
    var init := names[..|names| - 1];
    if i < |names| - 1 {
      assert Distinct(init);
      assert names[i] == init[i];
      NamesToIdsOfDistinct(init, i);
      assert names[i] != names[|names| - 1];
    }
  }

  /** The registry maps names to ids and back without loss in both directions. */
  lemma RegistryBijective(names: seq<string>)
    requires Distinct(names) && "air" !in names && "item extended" !in names
    ensures var reg := BuildRegistry(names);
      (forall n :: n in reg.namesToIds ==> reg.namesToIds[n] in reg.idsToNames && reg.idsToNames[reg.namesToIds[n]] == n)
      && (forall id :: id in reg.idsToNames ==> reg.idsToNames[id] in reg.namesToIds && reg.namesToIds[reg.idsToNames[id]] == id)
  {
    var reg := BuildRegistry(names);
    forall n | n in reg.namesToIds
      ensures reg.namesToIds[n] in reg.idsToNames && reg.idsToNames[reg.namesToIds[n]] == n
    {
      NamesToIdsRoundTrip(names, n);
    }
    NamesToIdsKeys(names);
    forall id | id in reg.idsToNames
      ensures reg.idsToNames[id] in reg.namesToIds && reg.namesToIds[reg.idsToNames[id]] == id
    {
      IdsToNamesAt(names, id);
      if id >= 2 {
        NamesToIdsOfDistinct(names, id - 2);
      } else {
        NamesToIdsAir(names);
      }
    }
  }

  /** `ramp_ids` is exactly the set of ids whose name contains 'ramp'. */
  lemma {:induction false} RampIdsByName(names: seq<string>, id: int)
    ensures id in RampIds(names) <==> id in IdsToNames(names) && Contains(IdsToNames(names)[id], "ramp")
    decreases |names|
  {
    IdsToNamesAt(names, id);
    if names == [] {
      NoRampInReserved();
    } else {
      var init := names[..|names| - 1];
      RampIdsByName(init, id);
      IdsToNamesAt(init, id);
    }
  }

  /** Every character of a contained string occurs in the containing one. */
  lemma {:induction false} ContainsChars(t: string, s: string, c: char)
    requires Contains(t, s) && c in s
    ensures c in t
    decreases |t|
  {
    if |s| <= |t| && t[..|s|] == s {
      assert c in t[..|s|];
    } else {
      ContainsChars(t[1..], s, c);
    }
  }

  lemma NoRampInReserved()
    ensures !Contains("air", "ramp")
    ensures !Contains("item extended", "ramp")
  {
    if Contains("air", "ramp") {
      ContainsChars("air", "ramp", 'p');
    }
    if Contains("item extended", "ramp") {
      ContainsChars("item extended", "ramp", 'p');
    }
  }

  // ---- Materials ----

  /** `name.split(' ')[0]`: the text before the first space. */
  function FirstWord(s: string): (w: string)
    ensures w <= s && ' ' !in w
    ensures w == s || s[|w|] == ' '
  {
    if s == [] || s[0] == ' ' then [] else [s[0]] + FirstWord(s[1..])
  }

  lemma {:induction false} FirstWordOfPhrase(w: string, rest: string)
    requires ' ' !in w && |rest| > 0 && rest[0] == ' '
    ensures FirstWord(w + rest) == w
  {
    if w != [] {
      assert (w + rest)[1..] == w[1..] + rest;
      FirstWordOfPhrase(w[1..], rest);
    }
  }

  /** `get_tile_material`: the first word of a ramp's name, otherwise the whole name; a KeyError for an unknown id. */
  function GetTileMaterial(reg: Registry, tileId: int): (r: Result<string>)
    ensures r.Err? <==> tileId !in reg.idsToNames
    ensures r.Ok? && tileId !in reg.rampIds ==> r.value == reg.idsToNames[tileId]
    ensures r.Ok? && tileId in reg.rampIds ==> r.value <= reg.idsToNames[tileId] && ' ' !in r.value
  {
    if tileId !in reg.idsToNames then Err(KeyError)
    else
      var name := reg.idsToNames[tileId];
      Ok(if tileId in reg.rampIds then FirstWord(name) else name)
  }

  /** The material of each registered ramp is the material it was named after. */
  lemma RampMaterial(names: seq<string>, k: nat)
    requires k < |RAMP_TILES|
    requires RAMP_TILES[k] in names
    ensures var reg := BuildRegistry(names);
      RAMP_TILES[k] in reg.namesToIds
      && GetTileMaterial(reg, reg.namesToIds[RAMP_TILES[k]]) == Ok(RAMP_MATERIALS[k / 2])
  {
    var reg := BuildRegistry(names);
    NamesToIdsKeys(names);
    var id := reg.namesToIds[RAMP_TILES[k]];
    NamesToIdsRoundTrip(names, RAMP_TILES[k]);
    RampTilesContainRamp();
    RampIdsByName(names, id);
    RampTilesShape();
    var m := RAMP_MATERIALS[k / 2];
    RampMaterialIsWord(k / 2);
    FirstWordOfPhrase(m, if k % 2 == 0 then " ramp right" else " ramp left");
  }

  // ---- Biome order ----

  /** `order_biomes`: every biome but the underworld, numbered by its position in the table. */
  function OrderBiomes(): (r: (map<Biome, int>, map<int, Biome>))
    ensures r.0.Keys == (set b | b in BIOMES) - {Underworld}
    ensures r.1.Keys == {0, 1, 2, 3, 4}
    ensures forall b :: b in r.0 ==> r.0[b] in r.1 && r.1[r.0[b]] == b
    ensures forall i :: i in r.1 ==> r.1[i] in r.0 && r.0[r.1[i]] == i
  {
    // `enumerate` over the first five keys of the table, and the inverse of that numbering
    var order := map[BIOMES[0] := 0, BIOMES[1] := 1, BIOMES[2] := 2, BIOMES[3] := 3, BIOMES[4] := 4];
    var idxs := map[0 := BIOMES[0], 1 := BIOMES[1], 2 := BIOMES[2], 3 := BIOMES[3], 4 := BIOMES[4]];
    assert (set b | b in BIOMES) == {Highlands, Desert, Forest, Taiga, Tundra, Underworld} by {
      forall b | b in BIOMES
        ensures b in {Highlands, Desert, Forest, Taiga, Tundra, Underworld}
      {
      }
    }
    (order, idxs)
  }

  /** The biome of a non-underworld biome index, `idxs_to_biomes[i]`. */
  function BiomeAt(i: int): (b: Biome)
    requires 0 <= i < |BIOMES| - 1
    ensures b != Underworld
  {
    BIOMES[i]
  }

  /** `idxs_to_biomes` is `BiomeAt` on the indices 0 to 4. */
  lemma BiomeAtIsOrder(i: int)
    requires 0 <= i < |BIOMES| - 1
    ensures i in OrderBiomes().1 && OrderBiomes().1[i] == BiomeAt(i)
  {
  }

  // ---- What the rest of the game needs of the registry ----

  /** The names the generator, physics and placement code look up. */
  const NEEDED_NAMES: set<string> :=
    {"dirt", "ice", "sand", "clay", "tin", "defiled stone", "stone", "desert fossil", "coal",
     "sandstone", "silver", "copper", "gold", "iron", "hellstone", "obsidian",
     "air", "item extended", "water", "tree base"}
    + set n | n in RAMP_TILES

  /** `n` is one of the needed names. */
  predicate Needed(n: string)
  {
    n in NEEDED_NAMES
  }

  /** A registry that knows every needed name, keeps air and 'item extended' at 0 and 1, and round-trips. */
  ghost predicate Complete(reg: Registry)
  {
    (forall n {:trigger Needed(n)} :: Needed(n) ==> n in reg.namesToIds)
    && "air" in reg.namesToIds && "item extended" in reg.namesToIds && "water" in reg.namesToIds && "tree base" in reg.namesToIds
    && reg.namesToIds["air"] == AIR && reg.namesToIds["item extended"] == ITEM_EXTENDED
    && (forall n :: n in reg.namesToIds ==> reg.namesToIds[n] in reg.idsToNames && reg.idsToNames[reg.namesToIds[n]] == n)
  }

  /** A complete registry knows every terrain tile, every ramp material and every ramp. */
  lemma TerrainKnown(reg: Registry)
    requires Complete(reg)
    ensures forall n :: n in TILE_NAMES ==> n in reg.namesToIds
    ensures forall n :: n in RAMP_MATERIALS ==> n in reg.namesToIds
    ensures forall n :: n in RAMP_TILES ==> n in reg.namesToIds
  {
    forall n | n in TILE_NAMES
      ensures n in reg.namesToIds
    {
      assert Needed(n);
    }
    forall n | n in RAMP_MATERIALS
      ensures n in reg.namesToIds
    {
      assert Needed(n);
    }
    forall n | n in RAMP_TILES
      ensures n in reg.namesToIds
    {
      assert Needed(n);
    }
  }

  /** Two different names never share an id in a complete registry. */
  lemma IdsDiffer(reg: Registry, a: string, b: string)
    requires Complete(reg) && a in reg.namesToIds && b in reg.namesToIds && a != b
    ensures reg.namesToIds[a] != reg.namesToIds[b]
  {
  }

  /** The game's own name list builds a complete registry, whatever order the liquids come in. */
  lemma GameRegistryComplete(liquids: seq<string>)
    requires forall n :: n in liquids <==> n in LIQUIDS
    ensures Complete(BuildRegistry(GameTileNames(liquids)))
  {
    var names := GameTileNames(liquids);
    var reg := BuildRegistry(names);
    NamesToIdsKeys(names);
    GameNamesHaveNeeded(liquids);
    GameNamesAvoidReserved(liquids);
    NamesToIdsAir(names);
    forall n | n in reg.namesToIds
      ensures reg.namesToIds[n] in reg.idsToNames && reg.idsToNames[reg.namesToIds[n]] == n
    {
      NamesToIdsRoundTrip(names, n);
    }
  }

  lemma GameNamesHaveNeeded(liquids: seq<string>)
    requires "water" in liquids
    ensures forall n :: n in NEEDED_NAMES - {"air", "item extended"} ==> n in GameTileNames(liquids)
  {
    var names := GameTileNames(liquids);
    assert names[|names| - 1] == "tree base";
    assert forall k :: 0 <= k < |TILE_NAMES| ==> names[k] == TILE_NAMES[k];
    assert forall k :: 0 <= k < |RAMP_TILES| ==> names[|TILE_NAMES| + k] == RAMP_TILES[k];
    var w :| w in liquids && w == "water";
    assert w in names;
  }

  lemma PipesAvoidReserved()
    ensures "air" !in PipeNames(|PIPE_TRANSPORT_DIRS|) && "item extended" !in PipeNames(|PIPE_TRANSPORT_DIRS|)
  {
    var pipes := PipeNames(|PIPE_TRANSPORT_DIRS|);
    forall k | 0 <= k < |pipes| ensures pipes[k] != "air" && pipes[k] != "item extended" {
      assert pipes[k][0] == 'p';
    }
  }

  lemma RampsAvoidReserved()
    ensures "air" !in RAMP_TILES && "item extended" !in RAMP_TILES
  {
    RampTilesShape();
    forall k | 0 <= k < |RAMP_TILES| ensures RAMP_TILES[k] != "air" && RAMP_TILES[k] != "item extended" {
      var m := RAMP_MATERIALS[k / 2];
      assert RAMP_TILES[k][..|m|] == m;
      if k / 2 == 0 {
        assert m == "dirt";
      } else if k / 2 == 1 {
        assert m == "sand";
      } else if k / 2 == 2 {
        assert m == "stone";
      } else {
        assert m == "ice";
        assert RAMP_TILES[k][1] == 'c';
      }
    }
  }

  lemma GameNamesAvoidReserved(liquids: seq<string>)
    requires forall n :: n in liquids <==> n in LIQUIDS
    ensures "air" !in GameTileNames(liquids) && "item extended" !in GameTileNames(liquids)
  {
    PipesAvoidReserved();
    assert "air" !in TILE_NAMES && "item extended" !in TILE_NAMES;
    RampsAvoidReserved();
    assert "air" !in PRODUCTION_NAMES && "item extended" !in PRODUCTION_NAMES;
    assert "air" !in ELECTRICITY_NAMES + LOGISTICS_NAMES + STORAGE_NAMES + ["tree base"];
    assert "item extended" !in ELECTRICITY_NAMES + LOGISTICS_NAMES + STORAGE_NAMES + ["tree base"];
    assert "air" !in liquids && "item extended" !in liquids;
  }

  lemma {:induction false} NamesToIdsAir(names: seq<string>)
    requires "air" !in names && "item extended" !in names
    ensures "air" in NamesToIds(names) && NamesToIds(names)["air"] == AIR
    ensures "item extended" in NamesToIds(names) && NamesToIds(names)["item extended"] == ITEM_EXTENDED
    decreases |names|
  {
    if names != [] {
      NamesToIdsAir(names[..|names| - 1]);
    }
  }

  /** The id stored under a needed name. */
  function Id(reg: Registry, name: string): int
    requires Complete(reg) && name in reg.namesToIds
  {
    reg.namesToIds[name]
  }
}
