/**
 * Terrain placement on the tile grid: surface tiles, ramps where the surface
 * steps, depth-banded underground fill around the caves, and the spawn point.
 * Random draws are given as sequences or functions of the column or cell.
 */
module Terrain {
  import opened Wrappers
  import opened Settings
  import opened PyNum
  import opened TileRegistry
  import opened Caves
  import opened Grids

  /** The biome that owns column `x`. */
  function ColumnBiome(x: int): (b: Biome)
    requires 0 <= x < MAP_W
    ensures b != Underworld
  {
    BiomeAt(x / BIOME_WIDTH)
  }

  /** `biome_order[b]`, the position of a non-underworld biome. */
  function BiomeIndex(b: Biome): (i: nat)
    requires b != Underworld
    ensures i < |BIOMES| - 1 && BiomeAt(i) == b
  {
    match b
    case Highlands => 0
    case Desert => 1
    case Forest => 2
    case Taiga => 3
    case Tundra => 4
  }

  /** `BiomeIndex` is the numbering `order_biomes` builds. */
  lemma BiomeIndexIsOrder(b: Biome)
    requires b != Underworld
    ensures b in OrderBiomes().0 && OrderBiomes().0[b] == BiomeIndex(b)
  {
    BiomeAtIsOrder(BiomeIndex(b));
  }

  /** First column of biome `b`. */
  function BiomeStart(b: Biome): (lo: int)
    requires b != Underworld
    ensures 0 <= lo && lo + BIOME_WIDTH <= MAP_W && BIOME_WIDTH == 600
    ensures lo == BiomeIndex(b) * BIOME_WIDTH
  {
    BiomeWidthCoversMap();
    BiomeIndex(b) * BIOME_WIDTH
  }

  /** Biome `b` owns exactly the columns `[BiomeIndex(b) * BIOME_WIDTH, BiomeIndex(b) * BIOME_WIDTH + BIOME_WIDTH)`. */
  lemma ColumnsOfBiome(b: Biome, x: int)
    requires b != Underworld && 0 <= x < MAP_W
    ensures ColumnBiome(x) == b <==> BiomeStart(b) <= x < BiomeStart(b) + BIOME_WIDTH
  {
  }

  // ---- Surface and ramps ----

  /** `get_biome_tile`: the surface material of a biome for the draw `randint(0, 10)`. */
  function SurfaceTile(b: Biome, draw: int): (m: string)
    requires b != Underworld
    ensures m in RAMP_MATERIALS
    ensures b == Desert ==> m == "sand"
    ensures b == Forest ==> m == (if draw < 8 then "dirt" else "stone")
    ensures b == Taiga ==> m == (if draw < 6 then "stone" else "dirt")
    ensures b == Highlands ==> m == (if draw < 7 then "stone" else "dirt")
    ensures b == Tundra ==> m == (if draw < 6 then "ice" else "dirt")
  {
    match b
    case Forest => if draw < 8 then "dirt" else "stone"
    case Taiga => if draw < 6 then "stone" else "dirt"
    case Desert => "sand"
    case Highlands => if draw < 7 then "stone" else "dirt"
    case Tundra => if draw < 6 then "ice" else "dirt"
  }

  /** The name `'<m> ramp right'` or `'<m> ramp left'`, which is always a registered ramp tile. */
  function RampName(m: string, right: bool): (n: string)
    requires m in RAMP_MATERIALS
    ensures n in RAMP_TILES
    ensures n[..|m|] == m
  {
    RampTilesShape();
    RAMP_TILES[2 * RampIndex(m) + (if right then 0 else 1)]
  }

  /** The position of a ramp material in its list. */
  function RampIndex(m: string): (k: nat)
    requires m in RAMP_MATERIALS
    ensures k < |RAMP_MATERIALS| && RAMP_MATERIALS[k] == m
  {
    if m == "dirt" then 0 else if m == "sand" then 1 else if m == "stone" then 2 else 3
  }

  lemma RampNameListed(m: string, right: bool)
    requires m in RAMP_MATERIALS
    ensures m + RampSuffix(right) in RAMP_TILES
  {
    var j := 2 * RampIndex(m) + (if right then 0 else 1);
    assert RAMP_TILES[j] == m + RampSuffix(right);
  }

  /** Every ramp the terrain writes is named as a ramp, so the registry records its id as a ramp id. */
  lemma RampNamesAreRamps(m: string, right: bool)
    requires m in RAMP_MATERIALS
    ensures Contains(RampName(m, right), "ramp")
  {
    RampTilesContainRamp();
  }

  /** The surface rises to the right of column `x`: a right ramp goes on `(x, surf[x])`. */
  predicate RightRamp(surf: seq<int>, x: int)
    requires |surf| == MAP_W && 0 <= x < MAP_W
  {
    x + 1 < MAP_W && surf[x + 1] > surf[x]
  }

  /** The surface falls from column `x - 1` to `x`: a left ramp goes on `(x, surf[x])`. */
  predicate LeftRamp(surf: seq<int>, x: int)
    requires |surf| == MAP_W && 0 <= x < MAP_W
  {
    0 < x && surf[x] < surf[x - 1]
  }

  /** The surface tile of column `x` for draw `d`. */
  function SurfaceId(reg: Registry, x: int, d: int): int
    requires Complete(reg) && 0 <= x < MAP_W
  {
    TerrainKnown(reg);
    Id(reg, SurfaceTile(ColumnBiome(x), d))
  }

  /** The ramp tile of column `x` for draw `d`. */
  function RampId(reg: Registry, x: int, d: int, right: bool): int
    requires Complete(reg) && 0 <= x < MAP_W
  {
    TerrainKnown(reg);
    Id(reg, RampName(SurfaceTile(ColumnBiome(x), d), right))
  }

  /** The first step of `place_tiles`: every column's surface row gets its biome's surface tile. */
  method PlaceSurface(tiles: array2<int>, reg: Registry, surf: seq<int>, draws: seq<int>)
    requires IsMap(tiles) && Complete(reg) && SurfaceOk(surf) && |draws| == MAP_W
    modifies tiles
    ensures forall x, y :: 0 <= x < MAP_W && 0 <= y < MAP_H ==>
      tiles[x, y] == if y == surf[x] then SurfaceId(reg, x, draws[x]) else old(tiles[x, y])
  {
    var surfaceTiles := seq(MAP_W, x requires 0 <= x < MAP_W => SurfaceId(reg, x, draws[x]));
    WriteOnSurface(tiles, surf, seq(MAP_W, x => true), surfaceTiles);
  }

  /**
   * `place_ramps`: the right ramps are written first and the left ramps after,
   * so a column that is both (the bottom of a one-column dip) ends with a left ramp.
   * `rightDraws[x]` and `leftDraws[x]` are the material draws for a ramp in column `x`.
   */
  method PlaceRamps(tiles: array2<int>, reg: Registry, surf: seq<int>, rightDraws: seq<int>, leftDraws: seq<int>)
    requires IsMap(tiles) && Complete(reg) && SurfaceOk(surf)
    requires |rightDraws| == MAP_W && |leftDraws| == MAP_W
    modifies tiles
    ensures forall x, y :: 0 <= x < MAP_W && 0 <= y < MAP_H ==>
      tiles[x, y] == (if y == surf[x] && LeftRamp(surf, x) then RampId(reg, x, leftDraws[x], false)
                      else if y == surf[x] && RightRamp(surf, x) then RampId(reg, x, rightDraws[x], true)
                      else old(tiles[x, y]))
  {
    var rightX := seq(MAP_W, x requires 0 <= x < MAP_W => RightRamp(surf, x));
    var leftX := seq(MAP_W, x requires 0 <= x < MAP_W => LeftRamp(surf, x));
    WriteOnSurface(tiles, surf, rightX, seq(MAP_W, x requires 0 <= x < MAP_W => RampId(reg, x, rightDraws[x], true)));
    WriteOnSurface(tiles, surf, leftX, seq(MAP_W, x requires 0 <= x < MAP_W => RampId(reg, x, leftDraws[x], false)));
  }

  // ---- Underground ----

  /** The upper bounds of the relative-depth bands. */
  const DEPTH_LVLS: seq<real> := [0.1, 0.2, 0.3, 0.4]

  /** `(y - surface) / MAP_H`, the depth of row `y` below the surface as a share of the map height. */
  function RelDepth(s: int, y: int): real
  {
    (y - s) as real / MAP_H as real
  }

  /** Band `i` of `get_depth_masks`: relative depth in `[DEPTH_LVLS[i-1], DEPTH_LVLS[i])`, the first band from 0. */
  predicate InBand(i: nat, rel: real)
    requires i < |DEPTH_LVLS|
  {
    rel < DEPTH_LVLS[i] && rel >= (if i == 0 then 0.0 else DEPTH_LVLS[i - 1])
  }

  /** The band of row `y` of a column whose surface is `s`, or None when it is not below the surface or below the last band. */
  function Band(s: int, y: int): (r: Option<nat>)
    ensures r.Some? ==> r.value < |DEPTH_LVLS| && InBand(r.value, RelDepth(s, y)) && y > s
    ensures r.None? ==> y <= s || forall i :: 0 <= i < |DEPTH_LVLS| ==> !InBand(i, RelDepth(s, y))
  {
    var rel := RelDepth(s, y);
    if y <= s then None
    else if InBand(0, rel) then Some(0)
    else if InBand(1, rel) then Some(1)
    else if InBand(2, rel) then Some(2)
    else if InBand(3, rel) then Some(3)
    else None
  }

  /** The bands are twenty rows deep: band `i` is the rows `20i .. 20i+19` below the surface, and band 0 starts one row down. */
  lemma BandRows(s: int, y: int)
    ensures Band(s, y).Some? <==> 0 < y - s < 80
    ensures Band(s, y).Some? ==> Band(s, y).value == (y - s) / 20
  {
    var d := y - s;
    assert RelDepth(s, y) == d as real / 200.0;
    if 0 < d < 20 {
      assert RelDepth(s, y) < 0.1;
    } else if 20 <= d < 40 {
      assert 0.1 <= RelDepth(s, y) < 0.2;
    } else if 40 <= d < 60 {
      assert 0.2 <= RelDepth(s, y) < 0.3;
    } else if 60 <= d < 80 {
      assert 0.3 <= RelDepth(s, y) < 0.4;
    } else if d >= 80 {
      assert RelDepth(s, y) >= 0.4;
    }
  }

  /** `tile_probs_max_idxs`: how many of the biome's tile table entries band `i` may draw from. */
  function MaxIdx(b: Biome, i: nat): (n: nat)
    requires b != Underworld && i < |DEPTH_LVLS|
    ensures 0 < n <= |TileProbNames(b)|
    ensures i == 3 ==> n == |TileProbNames(b)|
  {
    if i == 3 then |TileProbNames(b)|
    else match b
      case Highlands => [2, 5, 6][i]
      case Desert => [2, 5, 6][i]
      case Forest => [2, 3, 5][i]
      case Taiga => [2, 3, 4][i]
      case Tundra => [2, 3, 5][i]
  }

  /** The tile drawn for a cell of band `i`, from the first `MaxIdx(b, i)` entries; `pick` stands for the weighted draw. */
  function UndergroundName(b: Biome, i: nat, pick: nat): (n: string)
    requires b != Underworld && i < |DEPTH_LVLS|
    ensures n in TileProbNames(b)[..MaxIdx(b, i)]
    ensures n in TILE_NAMES
  {
    TileProbNames(b)[pick % MaxIdx(b, i)]
  }

  /** A cell that underground placement writes: below the surface, in a band, and not carved out by the cave mask. */
  predicate Filled(surf: seq<int>, cave: array2<bool>, x: int, y: int)
    reads cave
    requires |surf| == MAP_W && IsMap(cave) && 0 <= x < MAP_W && 0 <= y < MAP_H
  {
    y > surf[x] && !cave[x, y] && Band(surf[x], y).Some?
  }

  function UndergroundId(reg: Registry, surf: seq<int>, pick: (int, int) -> nat, x: int, y: int): int
    requires Complete(reg) && |surf| == MAP_W && 0 <= x < MAP_W && Band(surf[x], y).Some?
  {
    TerrainKnown(reg);
    Id(reg, UndergroundName(ColumnBiome(x), Band(surf[x], y).value, pick(x, y)))
  }

  /** One cell of `place_underground_tiles`. */
  method FillCell(tiles: array2<int>, reg: Registry, surf: seq<int>, cave: array2<bool>, pick: (int, int) -> nat, x: int, y: int)
    requires IsMap(tiles) && IsMap(cave) && Complete(reg) && SurfaceOk(surf) && 0 <= x < MAP_W && 0 <= y < MAP_H
    modifies tiles
    ensures tiles[x, y] == if Filled(surf, cave, x, y) then UndergroundId(reg, surf, pick, x, y) else old(tiles[x, y])
    ensures forall i, j :: 0 <= i < MAP_W && 0 <= j < MAP_H && (i != x || j != y) ==> tiles[i, j] == old(tiles[i, j])
  {
    var band := Band(surf[x], y);
    if y > surf[x] && !cave[x, y] && band.Some? {
      TerrainKnown(reg);
      tiles[x, y] := Id(reg, UndergroundName(ColumnBiome(x), band.value, pick(x, y)));
    }
  }

  /** One column of `place_underground_tiles`. */
  method FillColumn(tiles: array2<int>, reg: Registry, surf: seq<int>, cave: array2<bool>, pick: (int, int) -> nat, x: int)
    requires IsMap(tiles) && IsMap(cave) && Complete(reg) && SurfaceOk(surf) && 0 <= x < MAP_W
    modifies tiles
    ensures forall i, j :: 0 <= i < MAP_W && 0 <= j < MAP_H ==>
      tiles[i, j] == if i == x && Filled(surf, cave, i, j) then UndergroundId(reg, surf, pick, i, j) else old(tiles[i, j])
  {
    var y := 0;
    while y < MAP_H
      invariant 0 <= y <= MAP_H
      invariant forall i, j :: 0 <= i < MAP_W && 0 <= j < MAP_H ==>
        tiles[i, j] == if i == x && j < y && Filled(surf, cave, i, j) then UndergroundId(reg, surf, pick, i, j) else old(tiles[i, j])
    {
      FillCell(tiles, reg, surf, cave, pick, x, y);
      y := y + 1;
    }
  }

  /**
   * `place_underground_tiles`: every cell in a depth band, below the surface and
   * outside the (one, shared) cave mask, gets a tile of its column's biome and band.
   */
  method PlaceUndergroundTiles(tiles: array2<int>, reg: Registry, surf: seq<int>, cave: array2<bool>, pick: (int, int) -> nat)
    requires IsMap(tiles) && IsMap(cave) && Complete(reg) && SurfaceOk(surf)
    modifies tiles
    ensures forall x, y :: 0 <= x < MAP_W && 0 <= y < MAP_H ==>
      tiles[x, y] == if Filled(surf, cave, x, y) then UndergroundId(reg, surf, pick, x, y) else old(tiles[x, y])
  {
    var x := 0;
    while x < MAP_W
      invariant 0 <= x <= MAP_W
      invariant forall i, j :: 0 <= i < MAP_W && 0 <= j < MAP_H ==>
        tiles[i, j] == if i < x && Filled(surf, cave, i, j) then UndergroundId(reg, surf, pick, i, j) else old(tiles[i, j])
    {
      FillColumn(tiles, reg, surf, cave, pick, x);
      x := x + 1;
    }
  }

  /** Underground placement never touches a cell at or above the surface, a cave cell, or a cell 80 or more rows down. */
  lemma UndergroundLeavesOthers(surf: seq<int>, cave: array2<bool>, x: int, y: int)
    requires SurfaceOk(surf) && IsMap(cave) && 0 <= x < MAP_W && 0 <= y < MAP_H
    requires y <= surf[x] || cave[x, y] || y - surf[x] >= 80
    ensures !Filled(surf, cave, x, y)
  {
    BandRows(surf[x], y);
  }

  /**
   * `get_depth_masks` looks up the current biome's cave mask and generates it
   * only if it is missing; an existing mask is reused unchanged.
   */
  method GetCaveMask(cg: CaveGen, b: Biome, minY: int) returns (cave: array2<bool>)
    requires SurfaceOk(cg.surf)
    requires SCREEN_TILES_Y / 2 <= minY <= SCREEN_TILES_Y
    modifies cg`maps
    ensures b in cg.maps && cave == cg.maps[b]
    ensures old(b in cg.maps) ==> cg.maps == old(cg.maps)
    ensures !old(b in cg.maps) ==> fresh(cave) && cg.maps == old(cg.maps)[b := cave] && cg.CaveMask(cave, b, minY)
  {
    if b !in cg.maps {
      cg.GenMap(b, minY);
    }
    cave := cg.maps[b];
  }

  /**
   * `place_tiles`: surface, then ramps, then the underground beneath, all
   * carved around the current biome's cave mask.
   */
  method PlaceTiles(tiles: array2<int>, reg: Registry, surf: seq<int>, cg: CaveGen, currentBiome: Biome, minY: int,
                    surfaceDraws: seq<int>, rightDraws: seq<int>, leftDraws: seq<int>, pick: (int, int) -> nat)
    requires IsMap(tiles) && Complete(reg) && SurfaceOk(surf) && cg.surf == surf
    requires SCREEN_TILES_Y / 2 <= minY <= SCREEN_TILES_Y
    requires currentBiome in cg.maps && IsMap(cg.maps[currentBiome])
    requires |surfaceDraws| == MAP_W && |rightDraws| == MAP_W && |leftDraws| == MAP_W
    modifies tiles, cg`maps
    ensures cg.maps == old(cg.maps)
    ensures forall x, y :: 0 <= x < MAP_W && 0 <= y < MAP_H ==>
      tiles[x, y] == (if y == surf[x] && LeftRamp(surf, x) then RampId(reg, x, leftDraws[x], false)
                      else if y == surf[x] && RightRamp(surf, x) then RampId(reg, x, rightDraws[x], true)
                      else if y == surf[x] then SurfaceId(reg, x, surfaceDraws[x])
                      else if Filled(surf, cg.maps[currentBiome], x, y) then UndergroundId(reg, surf, pick, x, y)
                      else old(tiles[x, y]))
  {
    PlaceSurface(tiles, reg, surf, surfaceDraws);
    PlaceRamps(tiles, reg, surf, rightDraws, leftDraws);
    var cave := GetCaveMask(cg, currentBiome, minY);
    PlaceUndergroundTiles(tiles, reg, surf, cave, pick);
  }

  // ---- The spawn point ----

  /**
   * `valid_spawn_point`: the tile and both horizontal neighbours are solid
   * (neither air nor water) and the three tiles above are air. Index -1 reads
   * the far edge, as numpy does.
   */
  predicate ValidSpawnPoint(tiles: array2<int>, reg: Registry, x: int, y: int)
    reads tiles
    requires IsMap(tiles) && Complete(reg) && 0 <= x < MAP_W - 1 && 0 <= y < MAP_H
  {
    var air, water := Id(reg, "air"), Id(reg, "water");
    var left, up := NpIndex(x - 1, MAP_W), NpIndex(y - 1, MAP_H);
    tiles[left, y] !in {air, water} && tiles[x, y] !in {air, water} && tiles[x + 1, y] !in {air, water}
    && tiles[left, up] == air && tiles[x, up] == air && tiles[x + 1, up] == air
  }

  /** The middle column, `MAP_W // 2`. */
  const CENTER_X := 1500

  lemma CenterIsHalfway()
    ensures CENTER_X == MAP_W / 2
  {
  }

  /** A candidate column of the spawn search, standing on its surface row. */
  predicate ValidColumn(tiles: array2<int>, reg: Registry, surf: seq<int>, x: int)
    reads tiles
    requires IsMap(tiles) && Complete(reg) && SurfaceOk(surf)
  {
    1 <= x < MAP_W - 1 && ValidSpawnPoint(tiles, reg, x, surf[x])
  }

  /** Column `a` is strictly preferred to `b`: nearer the centre, or as near and further left. */
  predicate Nearer(a: int, b: int)
  {
    Abs(a - CENTER_X) < Abs(b - CENTER_X) || (Abs(a - CENTER_X) == Abs(b - CENTER_X) && a < b)
  }

  /** The spawn column: the preferred valid column, or the centre when no column is valid. */
  predicate SpawnColumn(tiles: array2<int>, reg: Registry, surf: seq<int>, sx: int)
    reads tiles
    requires IsMap(tiles) && Complete(reg) && SurfaceOk(surf)
  {
    1 <= sx < MAP_W - 1
    && (ValidColumn(tiles, reg, surf, sx) || (sx == CENTER_X && forall x :: 0 <= x < MAP_W ==> !ValidColumn(tiles, reg, surf, x)))
    && (forall x :: 0 <= x < MAP_W && ValidColumn(tiles, reg, surf, x) ==> x == sx || Nearer(sx, x))
  }

  /**
   * `get_player_spawn_point`: the valid column nearest the map centre (leftmost
   * on a tie), in pixels on its surface row; the centre itself when no column is valid.
   */
  method GetPlayerSpawnPoint(tiles: array2<int>, reg: Registry, surf: seq<int>) returns (px: int, py: int)
    requires IsMap(tiles) && Complete(reg) && SurfaceOk(surf)
    ensures exists sx :: SpawnColumn(tiles, reg, surf, sx) && px == sx * TILE_SIZE && py == surf[sx] * TILE_SIZE
  {
    var y := surf[CENTER_X];
    if ValidSpawnPoint(tiles, reg, CENTER_X, y) {
      px, py := CENTER_X * TILE_SIZE, y * TILE_SIZE;
      return;
    }
    var best: Option<int> := None;
    var x := 1;
    while x < MAP_W - 1
      invariant 1 <= x <= MAP_W - 1
      invariant best.Some? ==> 1 <= best.value < x && ValidColumn(tiles, reg, surf, best.value)
      invariant best.None? ==> forall k :: 0 <= k < x ==> !ValidColumn(tiles, reg, surf, k)
      invariant best.Some? ==> forall k :: 0 <= k < x && ValidColumn(tiles, reg, surf, k) ==> k == best.value || Nearer(best.value, k)
    {
      if ValidSpawnPoint(tiles, reg, x, surf[x]) {
        if best.None? || Abs(x - CENTER_X) < Abs(best.value - CENTER_X) {
          best := Some(x);
        }
      }
      x := x + 1;
    }
    if best.Some? {
      px, py := best.value * TILE_SIZE, surf[best.value] * TILE_SIZE;
    } else {
      px, py := CENTER_X * TILE_SIZE, y * TILE_SIZE;
    }
  }
}
