/** The constant tables of the game that the rest of the model reads. */
module Settings {
  import opened Wrappers

  const RES_W := 1280
  const RES_H := 720
  const FPS := 60

  const TILE_SIZE := 16
  const CHUNK_SIZE := 24
  const CELL_SIZE := 10
  const MAP_W := 3000
  const MAP_H := 200
  /** 19 pixels short of the right edge, so a sprite never leaves the map partially. */
  const WORLD_EDGE_RIGHT := 47981
  /** The map's height in pixels. */
  const WORLD_EDGE_BOTTOM := 3200

  datatype Biome = Highlands | Desert | Forest | Taiga | Tundra | Underworld

  /** The keys of the biome table, in declaration order. */
  const BIOMES: seq<Biome> := [Highlands, Desert, Forest, Taiga, Tundra, Underworld]

  function ElevationTop(b: Biome): int
  {
    match b
    case Highlands => 0
    case Desert => 50
    case Forest => 70
    case Taiga => 35
    case Tundra => 90
    case Underworld => 160
  }

  function ElevationBottom(b: Biome): int
  {
    match b
    case Highlands => 70
    case Desert => 90
    case Forest => 110
    case Taiga => 90
    case Tundra => 125
    case Underworld => MAP_H
  }

  /** The keys of a biome's 'tile probs' table, in order; the weights are not modelled. */
  function TileProbNames(b: Biome): seq<string>
  {
    match b
    case Highlands => ["stone", "dirt", "coal", "tin", "iron", "copper"]
    case Desert => ["sand", "sandstone", "clay", "dirt", "desert fossil", "copper", "iron"]
    case Forest => ["dirt", "stone", "clay", "tin", "coal", "iron", "copper"]
    case Taiga => ["stone", "dirt", "clay", "ice", "coal", "iron"]
    case Tundra => ["ice", "stone", "dirt", "tin", "coal", "copper", "iron"]
    case Underworld => ["hellstone", "stone", "dirt", "coal", "copper", "iron", "obsidian"]
  }

  /** The cave map's 'threshold' entry. */
  function CaveThreshold(b: Biome): real
  {
    match b
    case Highlands => 0.4
    case Desert => 0.6
    case Forest => 0.55
    case Taiga => 0.4
    case Tundra => 0.35
    case Underworld => 0.3
  }

  /** A biome's 'tree probs' entry, when it has one. */
  function TreeProb(b: Biome): Option<nat>
  {
    match b
    case Forest => Some(30)
    case Taiga => Some(20)
    case _ => None
  }

  /** A biome's 'lake prob' entry, when it has one. */
  function LakeProb(b: Biome): Option<nat>
  {
    match b
    case Forest => Some(35)
    case Taiga => Some(25)
    case _ => None
  }

  /** The underworld spans the whole map, so the width divides by one biome fewer (see `BiomeWidthCoversMap`). */
  const BIOME_WIDTH := 600
  const TREE_BIOMES: set<Biome> := {Forest, Taiga}

  /** The keys of the terrain tile table, in order. */
  const TILE_NAMES: seq<string> :=
    ["dirt", "ice", "sand", "clay", "tin", "defiled stone", "stone", "desert fossil", "coal",
     "sandstone", "silver", "copper", "gold", "iron", "hellstone", "obsidian"]

  /** The 'hardness' entry of a terrain tile. */
  function Hardness(name: string): (h: Option<int>)
    ensures h.Some? ==> 100 <= h.value <= 1000
  {
    match name
    case "dirt" => Some(100)
    case "ice" => Some(200)
    case "sand" => Some(100)
    case "clay" => Some(150)
    case "tin" => Some(200)
    case "defiled stone" => Some(250)
    case "stone" => Some(300)
    case "desert fossil" => Some(400)
    case "coal" => Some(450)
    case "sandstone" => Some(500)
    case "silver" => Some(500)
    case "copper" => Some(550)
    case "gold" => Some(600)
    case "iron" => Some(750)
    case "hellstone" => Some(950)
    case "obsidian" => Some(1000)
    case _ => None
  }

  const RAMP_MATERIALS: seq<string> := ["dirt", "sand", "stone", "ice"]

  /** The end of a ramp's name: ' ramp right' for the right-facing ramp, ' ramp left' for the other. */
  function RampSuffix(right: bool): string
  {
    if right then " ramp right" else " ramp left"
  }

  /** The list that the settings build by appending '<m> ramp right' and '<m> ramp left' per material. */
  const RAMP_TILES: seq<string> := RampNames(RAMP_MATERIALS)

  /** Each material's right ramp and then its left ramp, material by material. */
  function RampNames(materials: seq<string>): seq<string>
  {
    seq(2 * |materials|, i requires 0 <= i < 2 * |materials| => materials[i / 2] + RampSuffix(i % 2 == 0))
  }

  const TILE_REACH_RADIUS := 5
  /** The amount of ore one tile is worth. */
  const TILE_ORE_RATIO := 50
  const LIQUIDS: set<string> := {"water", "lava", "honey"}
  const GRAVITY := 1200

  /** The keys of the tool table, in order. */
  const TOOL_NAMES: seq<string> :=
    ["pickaxe", "axe", "sword", "torch", "chainsaw", "bow", "arrow", "pistol", "shotgun", "bomb", "dynamite"]

  /** The materials a tool comes in; tools past 'torch' have none. */
  function ToolMaterials(tool: string): seq<string>
  {
    match tool
    case "pickaxe" => ["stone", "iron", "copper", "silver", "gold"]
    case "axe" => ["stone", "iron", "copper"]
    case "sword" => ["stone", "iron", "copper"]
    case "torch" => ["wood"]
    case _ => []
  }

  /** The 'strength' entry of a tool; None where the table has no such entry. */
  function ToolStrength(tool: string, material: string): Option<int>
  {
    match (tool, material)
    case ("pickaxe", "stone") => Some(15)
    case ("pickaxe", "iron") => Some(50)
    case ("pickaxe", "copper") => Some(30)
    case ("pickaxe", "silver") => Some(40)
    case ("pickaxe", "gold") => Some(35)
    case ("axe", "stone") => Some(10)
    case ("axe", "iron") => Some(25)
    case ("axe", "copper") => Some(10)
    case ("sword", "stone") => Some(40)
    case ("sword", "iron") => Some(40)
    case ("sword", "copper") => Some(25)
    case _ => None
  }

  const PRODUCTION_NAMES: seq<string> :=
    ["burner furnace", "electric furnace", "steel furnace", "burner drill", "electric drill",
     "assembler", "boiler", "steam engine"]
  const LOGISTICS_NAMES: seq<string> :=
    ["burner inserter", "electric inserter", "inlet pump", "outlet pump", "pipe"]
  const ELECTRICITY_NAMES: seq<string> := ["electric pole", "solar panel"]
  const STORAGE_NAMES: seq<string> := ["chest"]

  /** The items placed with a left/right orientation: the logistics items other than the pipe, doors and chairs. */
  const ITEMS_CAN_FLIP: set<string> :=
    {"burner inserter", "electric inserter", "inlet pump", "outlet pump",
     "wood door", "glass door", "stone door", "iron door", "wood chair", "glass chair", "ice chair"}

  /** The way an item faces, `'left'` or `'right'`. */
  datatype Facing = FacingLeft | FacingRight

  /** A tile coordinate `(x, y)` of the map, `y` growing downward. */
  type Coord = (int, int)

  /** A step to a neighbouring tile, (dx, dy) with y growing downwards. */
  type Offset = (int, int)

  /** A pipe variant's directions: one list, or separate horizontal and vertical lists. */
  datatype TransportDirs =
    | Line(dirs: seq<Offset>)
    | Junction(horizontal: seq<Offset>, vertical: seq<Offset>)
  {
    /** Every direction of the variant: the list, or horizontal then vertical. */
    function All(): seq<Offset>
    {
      match this
      case Line(d) => d
      case Junction(h, v) => h + v
    }
  }

  const PIPE_TRANSPORT_DIRS: seq<TransportDirs> := [
    Line([(1, 0), (-1, 0)]),
    Line([(0, -1), (0, 1)]),
    Line([(1, 0), (0, -1)]),
    Line([(0, -1), (-1, 0)]),
    Line([(1, 0), (0, 1)]),
    Line([(-1, 0), (0, 1)]),
    Junction([(1, 0), (-1, 0)], [(0, -1), (0, 1)]),
    Junction([(1, 0)], [(0, -1), (0, 1)]),
    Junction([(-1, 0)], [(0, -1), (0, 1)]),
    Junction([(1, 0), (-1, 0)], [(0, -1)]),
    Junction([(1, 0), (-1, 0)], [(0, 1)])
  ]

  /** The first six pipe direction pairs, then (left, right). */
  const INSERTER_TRANSPORT_DIRS: seq<seq<Offset>> :=
    [PIPE_TRANSPORT_DIRS[0].dirs, PIPE_TRANSPORT_DIRS[1].dirs, PIPE_TRANSPORT_DIRS[2].dirs,
     PIPE_TRANSPORT_DIRS[3].dirs, PIPE_TRANSPORT_DIRS[4].dirs, PIPE_TRANSPORT_DIRS[5].dirs] + [[(-1, 0), (1, 0)]]

  /** `s` occurs somewhere inside `t`, as Python's `s in t` on strings. */
  predicate Contains(t: string, s: string)
    decreases |t|
  {
    (|s| <= |t| && t[..|s|] == s) || (|t| > 0 && Contains(t[1..], s))
  }

  /** An occurrence at a known position is enough for `Contains`. */
  lemma {:induction false} ContainsAt(t: string, s: string, i: nat)
    requires i + |s| <= |t| && t[i..i + |s|] == s
    ensures Contains(t, s)
  {
    if i > 0 {
      assert t[1..][i - 1..i - 1 + |s|] == t[i..i + |s|];
      ContainsAt(t[1..], s, i - 1);
    }
  }

  /** Text that contains `s` is at least as long as `s`. */
  lemma {:induction false} ContainsLength(t: string, s: string)
    requires Contains(t, s)
    ensures |s| <= |t|
    decreases |t|
  {
    if !(|s| <= |t| && t[..|s|] == s) {
      ContainsLength(t[1..], s);
    }
  }

  // ---- Properties of the tables ----

  lemma BiomeWidthCoversMap()
    ensures BIOME_WIDTH == MAP_W / (|BIOMES| - 1)
    ensures BIOME_WIDTH * (|BIOMES| - 1) == MAP_W
  {
  }

  lemma WorldEdges()
    ensures WORLD_EDGE_RIGHT == MAP_W * TILE_SIZE - 19 && WORLD_EDGE_BOTTOM == MAP_H * TILE_SIZE
  {
  }

  lemma ElevationsOrdered(b: Biome)
    ensures 0 <= ElevationTop(b) < ElevationBottom(b) <= MAP_H
  {
  }

  lemma TreesAndLakesOnlyInForestAndTaiga(b: Biome)
    ensures TreeProb(b).Some? <==> b in TREE_BIOMES
    ensures LakeProb(b).Some? <==> b in TREE_BIOMES
  {
  }

  /** Each ramp name is a ramp material followed by ' ramp right' (even positions) or ' ramp left'. */
  lemma RampTilesShape()
    ensures |RAMP_TILES| == 2 * |RAMP_MATERIALS| == 8
    ensures forall i :: 0 <= i < |RAMP_TILES| ==> RAMP_TILES[i] == RAMP_MATERIALS[i / 2] + RampSuffix(i % 2 == 0)
  {
  }

  /** Each ramp material is a single word. */
  lemma RampMaterialIsWord(i: int)
    requires 0 <= i < |RAMP_MATERIALS|
    ensures ' ' !in RAMP_MATERIALS[i]
  {
    if i == 0 {
      assert RAMP_MATERIALS[i] == "dirt";
    } else if i == 1 {
      assert RAMP_MATERIALS[i] == "sand";
    } else if i == 2 {
      assert RAMP_MATERIALS[i] == "stone";
    } else {
      assert RAMP_MATERIALS[i] == "ice";
    }
  }

  lemma RampTilesContainRamp()
    ensures forall i :: 0 <= i < |RAMP_TILES| ==> Contains(RAMP_TILES[i], "ramp")
  {
    forall i | 0 <= i < |RAMP_TILES| ensures Contains(RAMP_TILES[i], "ramp") {
      var m := RAMP_MATERIALS[i / 2];
      RampTilesShape();
      assert RAMP_TILES[i][|m| + 1..|m| + 5] == "ramp";
      ContainsAt(RAMP_TILES[i], "ramp", |m| + 1);
    }
  }

  lemma InserterDirections()
    ensures |INSERTER_TRANSPORT_DIRS| == 7
    ensures forall i :: 0 <= i < 6 ==> INSERTER_TRANSPORT_DIRS[i] == PIPE_TRANSPORT_DIRS[i].dirs
    ensures INSERTER_TRANSPORT_DIRS[6] == [(-1, 0), (1, 0)]
    ensures forall i :: 0 <= i < 7 ==> |INSERTER_TRANSPORT_DIRS[i]| == 2
  {
  }

  lemma PipeVariants()
    ensures |PIPE_TRANSPORT_DIRS| == 11
    ensures forall i :: 0 <= i < 11 ==> (PIPE_TRANSPORT_DIRS[i].Line? <==> i <= 5)
  {
  }
}
