/**
 * Item placement: the tiles an item's image covers, whether it may go there
 * (free tiles, within reach, resting on terrain or linked to a machine), and
 * the placement itself, which writes the tile grid, brings the collision index
 * up to date, takes the item from the inventory and creates the object of a
 * machine.
 */
module Placement {
  import opened Wrappers
  import opened Settings
  import opened Rects
  import opened PyNum
  import opened Grids
  import opened TileReads
  import opened TileRegistry
  import opened Collision
  import opened Inventories
  import opened Sprites
  import opened Colonists
  import opened Helpers

  // ---- Covered tiles ----

  /** `get_tiles_covered`: the tiles an image of `w x h` pixels covers when its top-left is on tile `xy`. */
  method GetTilesCovered(xy: Coord, w: int, h: int) returns (tiles: seq<Coord>)
    ensures tiles == Block(xy, TilesSpanned(w), TilesSpanned(h))
  {
    var nx, ny := TilesSpanned(w), TilesSpanned(h);
    tiles := [];
    var tx := 0;
    while tx < nx
      invariant 0 <= tx <= nx
      invariant tiles == Block(xy, tx, ny)
    {
      var ty := 0;
      while ty < ny
        invariant 0 <= ty <= ny
        invariant tiles == Block(xy, tx, ny) + Column(xy.0 + tx, xy.1, ty)
      {
        tiles := tiles + [(xy.0 + tx, xy.1 + ty)];
        ty := ty + 1;
      }
      tx := tx + 1;
    }
  }

  // ---- Ground tiles ----

  /** `max(y for _, y in tiles)`. */
  function MaxRow(ts: seq<Coord>): (r: int)
    requires |ts| > 0
    ensures forall k :: 0 <= k < |ts| ==> ts[k].1 <= r
    ensures exists k :: 0 <= k < |ts| && ts[k].1 == r
  {
    if |ts| == 1 then ts[0].1
    else
      var m := MaxRow(ts[..|ts| - 1]);
      assert forall k :: 0 <= k < |ts| - 1 ==> ts[..|ts| - 1][k] == ts[k];
      Max(m, ts[|ts| - 1].1)
  }

  /** The tile under each tile of row `row`, in order. */
  function RowBelow(ts: seq<Coord>, row: int): seq<Coord>
  {
    if ts == [] then []
    else RowBelow(ts[..|ts| - 1], row) + (if ts[|ts| - 1].1 == row then [(ts[|ts| - 1].0, row + 1)] else [])
  }

  /** `get_ground_tiles`: the tiles just under the lowest row; `max` of nothing is a ValueError. */
  function GetGroundTiles(ts: seq<Coord>): (r: Result<seq<Coord>>)
    ensures r.Err? <==> ts == []
    ensures r.Err? ==> r.error == ValueError
    ensures r.Ok? ==> forall c :: c in r.value <==> exists k :: 0 <= k < |ts| && ts[k].1 == MaxRow(ts) && c == (ts[k].0, ts[k].1 + 1)
  {
    if ts == [] then Err(ValueError)
    else
      RowBelowHas(ts, MaxRow(ts));
      Ok(RowBelow(ts, MaxRow(ts)))
  }

  lemma {:induction false} RowBelowHas(ts: seq<Coord>, row: int)
    ensures forall c :: c in RowBelow(ts, row) <==> exists k :: 0 <= k < |ts| && ts[k].1 == row && c == (ts[k].0, ts[k].1 + 1)
  {
    if ts != [] {
      var init := ts[..|ts| - 1];
      RowBelowHas(init, row);
      assert forall k :: 0 <= k < |init| ==> init[k] == ts[k];
      forall c | c in RowBelow(ts, row)
        ensures exists k :: 0 <= k < |ts| && ts[k].1 == row && c == (ts[k].0, ts[k].1 + 1)
      {
        if c !in RowBelow(init, row) {
          assert ts[|ts| - 1].1 == row && c == (ts[|ts| - 1].0, ts[|ts| - 1].1 + 1);
        }
      }
    }
  }

  lemma {:induction false} RowBelowAppend(a: seq<Coord>, b: seq<Coord>, row: int)
    ensures RowBelow(a + b, row) == RowBelow(a, row) + RowBelow(b, row)
    decreases |b|
  {
    if b == [] {
      assert a + b == a;
    } else {
      var b' := b[..|b| - 1];
      var last := b[|b| - 1];
      assert (a + b)[..|a + b| - 1] == a + b';
      assert (a + b)[|a + b| - 1] == last;
      RowBelowAppend(a, b', row);
      var tail := if last.1 == row then [(last.0, row + 1)] else [];
      assert RowBelow(b, row) == RowBelow(b', row) + tail;
      assert RowBelow(a + b, row) == RowBelow(a + b', row) + tail;
    }
  }

  /** Only the last tile of a column is on its bottom row. */
  lemma {:induction false} RowBelowColumn(x: int, y: int, n: nat, row: int)
    requires row >= y + n - 1
    ensures RowBelow(Column(x, y, n), row) == if n > 0 && row == y + n - 1 then [(x, row + 1)] else []
  {
    if n > 0 {
      var col := Column(x, y, n);
      assert col[..|col| - 1] == Column(x, y, n - 1);
      RowBelowColumn(x, y, n - 1, row);
    }
  }

  /** The tiles `(x, y)`, `(x + 1, y)`, ... of one row, `n` of them. */
  function Row(x: int, y: int, n: nat): seq<Coord>
  {
    if n == 0 then [] else Row(x, y, n - 1) + [(x + n - 1, y)]
  }

  lemma {:induction false} RowBelowCovered(xy: Coord, nx: nat, ny: nat)
    requires ny > 0
    ensures RowBelow(Block(xy, nx, ny), xy.1 + ny - 1) == Row(xy.0, xy.1 + ny, nx)
  {
    if nx > 0 {
      RowBelowCovered(xy, nx - 1, ny);
      RowBelowAppend(Block(xy, nx - 1, ny), Column(xy.0 + nx - 1, xy.1, ny), xy.1 + ny - 1);
      RowBelowColumnBottom(xy.0 + nx - 1, xy.1, ny);
    }
  }

  /** A column's bottom tile has exactly one tile below it. */
  lemma RowBelowColumnBottom(x: int, y: int, n: nat)
    requires n > 0
    ensures RowBelow(Column(x, y, n), y + n - 1) == [(x, y + n)]
  {
    RowBelowColumn(x, y, n, y + n - 1);
  }

  lemma {:induction false} RowBelowRow(x: int, y: int, n: nat)
    ensures RowBelow(Row(x, y, n), y) == Row(x, y + 1, n)
  {
    if n > 0 {
      var r := Row(x, y, n);
      assert r[..|r| - 1] == Row(x, y, n - 1);
      RowBelowRow(x, y, n - 1);
    }
  }

  lemma {:induction false} RowFacts(x: int, y: int, n: nat)
    ensures |Row(x, y, n)| == n
    ensures forall k :: 0 <= k < n ==> Row(x, y, n)[k] == (x + k, y)
  {
    if n > 0 {
      RowFacts(x, y, n - 1);
    }
  }

  /**
   * The ground tiles of a covered rectangle are the row just under it, and
   * applying `get_ground_tiles` again, as the placement check of a multi-tile
   * item does, gives the row two under it.
   */
  lemma GroundOfCovered(xy: Coord, nx: nat, ny: nat)
    requires nx > 0 && ny > 0
    ensures GetGroundTiles(Block(xy, nx, ny)) == Ok(Row(xy.0, xy.1 + ny, nx))
  {
    CoveredMaxRow(xy, nx, ny);
    RowBelowCovered(xy, nx, ny);
  }

  /** Applying `get_ground_tiles` to a row, as the multi-tile check does, gives the row beneath it. */
  lemma GroundOfRow(x: int, y: int, n: nat)
    requires n > 0
    ensures GetGroundTiles(Row(x, y, n)) == Ok(Row(x, y + 1, n))
  {
    RowMaxRow(x, y, n);
    RowBelowRow(x, y, n);
  }

  lemma CoveredMaxRow(xy: Coord, nx: nat, ny: nat)
    requires nx > 0 && ny > 0
    ensures Block(xy, nx, ny) != [] && MaxRow(Block(xy, nx, ny)) == xy.1 + ny - 1
  {
    var cov := Block(xy, nx, ny);
    BlockHas(xy, nx, ny);
    assert (xy.0, xy.1 + ny - 1) in cov;
    var m := MaxRow(cov);
    var k :| 0 <= k < |cov| && cov[k].1 == m;
    assert cov[k] in cov;
    var j :| 0 <= j < |cov| && cov[j] == (xy.0, xy.1 + ny - 1);
  }

  lemma RowMaxRow(x: int, y: int, n: nat)
    requires n > 0
    ensures Row(x, y, n) != [] && MaxRow(Row(x, y, n)) == y
  {
    RowFacts(x, y, n);
    var row := Row(x, y, n);
    var j :| 0 <= j < |row| && row[j].1 == MaxRow(row);
  }

  // ---- The placement rules ----

  /** The ids an item may replace: air and water. */
  function CanPlaceOver(reg: Registry): set<int>
    requires Complete(reg)
  {
    {Id(reg, "air"), Id(reg, "water")}
  }

  /** The ramp ids as placement computes them, from the ramp names. */
  function RampTileIds(reg: Registry): set<int>
  {
    set n | n in RAMP_TILES && n in reg.namesToIds :: reg.namesToIds[n]
  }

  /** `can_reach_tile`: the tile is at most `TILE_REACH_RADIUS` tiles from the sprite's centre tile on each axis. */
  predicate CanReachTile(t: Coord, center: (int, int))
  {
    Abs(t.0 - center.0 / TILE_SIZE) <= TILE_REACH_RADIUS && Abs(t.1 - center.1 / TILE_SIZE) <= TILE_REACH_RADIUS
  }

  /** The four neighbours `valid_item_border` looks at: above, right, below, left. */
  function Neighbors(t: Coord): seq<Coord>
  {
    [(t.0, t.1 - 1), (t.0 + 1, t.1), (t.0, t.1 + 1), (t.0 - 1, t.1)]
  }

  /** The pipe variant's neighbour in direction `d` is on the map and is a machine, 'item extended' or a pipe. */
  predicate PipeLinkAt(tiles: array2<int>, reg: Registry, t: Coord, d: Offset)
    reads tiles
    requires IsMap(tiles)
  {
    var n := (t.0 + d.0, t.1 + d.1);
    InMap(n) && tiles[n.0, n.1] in reg.MachineIds() + reg.PipeIds()
  }

  /** Some direction of the variant leads to a tile a pipe can link to. */
  predicate PipeBorderOk(tiles: array2<int>, reg: Registry, t: Coord, idx: int)
    reads tiles
    requires IsMap(tiles) && 0 <= idx < |PIPE_TRANSPORT_DIRS|
  {
    var dirs := PIPE_TRANSPORT_DIRS[idx].All();
    exists k :: 0 <= k < |dirs| && PipeLinkAt(tiles, reg, t, dirs[k])
  }

  /** `valid_pipe_border`: tries the variant's directions in order and answers at the first linkable neighbour. */
  method ValidPipeBorder(tiles: array2<int>, reg: Registry, t: Coord, idx: int) returns (b: bool)
    requires IsMap(tiles) && 0 <= idx < |PIPE_TRANSPORT_DIRS|
    ensures b <==> PipeBorderOk(tiles, reg, t, idx)
  {
    b := AnyLink(tiles, reg, t, PIPE_TRANSPORT_DIRS[idx].All());
  }

  /** The loop of `valid_pipe_border` over a list of directions: true at the first one that leads to a linkable tile. */
  method AnyLink(tiles: array2<int>, reg: Registry, t: Coord, dirs: seq<Offset>) returns (b: bool)
    requires IsMap(tiles)
    ensures b <==> exists k :: 0 <= k < |dirs| && PipeLinkAt(tiles, reg, t, dirs[k])
  {
    var k := 0;
    while k < |dirs|
      invariant 0 <= k <= |dirs|
      invariant forall i :: 0 <= i < k ==> !PipeLinkAt(tiles, reg, t, dirs[i])
    {
      var n := (t.0 + dirs[k].0, t.1 + dirs[k].1);
      if 0 <= n.0 < MAP_W && 0 <= n.1 < MAP_H && tiles[n.0, n.1] in reg.MachineIds() + reg.PipeIds() {
        return true;
      }
      k := k + 1;
    }
    return false;
  }

  /**
   * `valid_item_border` for one tile: a pipe needs a linkable neighbour in
   * one of the directions of the variant named by its last character (not a
   * digit: a ValueError); anything else needs a terrain or ramp tile among its
   * four neighbours.
   */
  function ValidItemBorder(tiles: array2<int>, reg: Registry, item: string, t: Coord): (r: Result<bool>)
    reads tiles
    requires IsMap(tiles)
    ensures Contains(item, "pipe") ==>
      (|item| > 0
       && (r.Err? <==> DigitValue(item[|item| - 1]).Err?)
       && (r.Ok? ==> (r.value <==> PipeBorderOk(tiles, reg, t, DigitValue(item[|item| - 1]).value))))
    ensures !Contains(item, "pipe") && (forall k :: 0 <= k < 4 ==> InMap(Neighbors(t)[k])) ==>
      r == Ok(exists k :: 0 <= k < 4 && tiles[Neighbors(t)[k].0, Neighbors(t)[k].1] in reg.TileIds() + RampTileIds(reg))
  {
    if Contains(item, "pipe") then
      ContainsLength(item, "pipe");
      match DigitValue(item[|item| - 1])
      case Err(e) => Err(e)
      case Ok(i) => Ok(PipeBorderOk(tiles, reg, t, i))
    else
      AnyIn(tiles, Neighbors(t), reg.TileIds() + RampTileIds(reg))
  }

  /** `height_map[x]` with numpy's indexing. */
  function ReadHeight(heights: seq<real>, x: int): (r: Result<real>)
    requires |heights| == MAP_W
    ensures r.Err? <==> !(-MAP_W <= x < MAP_W)
    ensures 0 <= x < MAP_W ==> r == Ok(heights[x])
  {
    if -MAP_W <= x < MAP_W then Ok(heights[NpIndex(x, MAP_W)]) else Err(IndexError)
  }

  /** The column a pump draws from: right of the last tile when it faces left, else left of the first. */
  function LiquidSourceX(ts: seq<Coord>, flipDir: Option<Facing>): int
    requires |ts| > 0
  {
    if flipDir == Some(FacingLeft) then ts[|ts| - 1].0 + 1 else ts[0].0 - 1
  }

  /**
   * `valid_item_border` for a list of tiles: the ground tiles of the list
   * must all be terrain; a pump must also find a liquid one tile under the
   * rounded surface of the column beside it, read only when the item is on
   * the ground.
   */
  function ValidItemBorderMulti(tiles: array2<int>, reg: Registry, item: string, ts: seq<Coord>,
                                flipDir: Option<Facing>, heights: seq<real>): (r: Result<bool>)
    reads tiles
    requires IsMap(tiles) && |heights| == MAP_W
    ensures ts == [] ==> r == Err(ValueError)
    ensures r == Ok(true) ==> ts != [] && AllIn(tiles, GetGroundTiles(ts).value, reg.TileIds()) == Ok(true)
    ensures r == Ok(true) && Contains(item, "pump") ==>
      var x := LiquidSourceX(ts, flipDir);
      ReadHeight(heights, x).Ok? && Read(tiles, (x, RoundHalfEven(ReadHeight(heights, x).value) + 1)).Ok?
      && Read(tiles, (x, RoundHalfEven(ReadHeight(heights, x).value) + 1)).value in reg.LiquidIds()
    ensures ts != [] && !Contains(item, "pump") ==> r == AllIn(tiles, GetGroundTiles(ts).value, reg.TileIds())
  {
    match GetGroundTiles(ts)
    case Err(e) => Err(e)
    case Ok(ground) =>
      match AllIn(tiles, ground, reg.TileIds())
      case Err(e) => Err(e)
      case Ok(onGround) =>
        if !Contains(item, "pump") then Ok(onGround)
        else if !onGround then Ok(false)
        else
          var x := LiquidSourceX(ts, flipDir);
          match ReadHeight(heights, x)
          case Err(e) => Err(e)
          case Ok(h) =>
            match Read(tiles, (x, RoundHalfEven(h) + 1))
            case Err(e) => Err(e)
            case Ok(v) => Ok(v in reg.LiquidIds())
  }

  /**
   * `valid_placement` for a one-tile item: the tile holds air or water, is
   * within reach, and borders what the item needs, checked in that order.
   */
  function ValidPlacement(tiles: array2<int>, reg: Registry, item: string, t: Coord, center: (int, int)): (r: Result<bool>)
    reads tiles
    requires IsMap(tiles) && Complete(reg)
    ensures InMap(t) ==> (r == Ok(true) <==>
      tiles[t.0, t.1] in CanPlaceOver(reg) && CanReachTile(t, center) && ValidItemBorder(tiles, reg, item, t) == Ok(true))
    ensures InMap(t) && r.Err? ==> r == ValidItemBorder(tiles, reg, item, t)
  {
    match Read(tiles, t)
    case Err(e) => Err(e)
    case Ok(v) =>
      if v !in CanPlaceOver(reg) then Ok(false)
      else if !CanReachTile(t, center) then Ok(false)
      else ValidItemBorder(tiles, reg, item, t)
  }

  /**
   * `valid_placement` for a multi-tile item: the border test on its ground
   * tiles (so terrain two rows under it), reach to its first tile, and air or
   * water on every tile it covers, checked in that order.
   */
  function ValidPlacementMulti(tiles: array2<int>, reg: Registry, item: string, ts: seq<Coord>, center: (int, int),
                               flipDir: Option<Facing>, heights: seq<real>): (r: Result<bool>)
    reads tiles
    requires IsMap(tiles) && Complete(reg) && |heights| == MAP_W
    ensures ts == [] ==> r == Err(ValueError)
    ensures r == Ok(true) ==>
      ts != [] && ValidItemBorderMulti(tiles, reg, item, GetGroundTiles(ts).value, flipDir, heights) == Ok(true)
      && CanReachTile(ts[0], center)
    ensures (forall k :: 0 <= k < |ts| ==> InMap(ts[k])) && r == Ok(true) ==>
      forall k :: 0 <= k < |ts| ==> tiles[ts[k].0, ts[k].1] in CanPlaceOver(reg)
  {
    match GetGroundTiles(ts)
    case Err(e) => Err(e)
    case Ok(ground) =>
      match ValidItemBorderMulti(tiles, reg, item, ground, flipDir, heights)
      case Err(e) => Err(e)
      case Ok(border) =>
        if !border then Ok(false)
        else if !CanReachTile(ts[0], center) then Ok(false)
        else AllIn(tiles, ts, CanPlaceOver(reg))
  }

  // ---- Objects created on placement ----

  /** The keys of `items_init_when_placed`: the derived names of the classes created when placed. */
  const INIT_KEYS: set<string> := set k | k in PLACED_KEYS

  /** A key is in the table exactly when it is `cls_name_to_str` of one of the ten classes. */
  lemma InitKeysAreClassNames(k: string)
    ensures k in INIT_KEYS <==> exists i :: 0 <= i < |PLACED_CLASSES| && ClsNameToStr(PLACED_CLASSES[i]) == k
  {
    if k in INIT_KEYS {
      var i :| 0 <= i < |PLACED_KEYS| && PLACED_KEYS[i] == k;
      PlacedClassKey(i);
    }
    if exists i :: 0 <= i < |PLACED_CLASSES| && ClsNameToStr(PLACED_CLASSES[i]) == k {
      var i :| 0 <= i < |PLACED_CLASSES| && ClsNameToStr(PLACED_CLASSES[i]) == k;
      PlacedClassKey(i);
      assert PLACED_KEYS[i] in PLACED_KEYS;
    }
  }

  /** The key every pipe variant's class is stored under. */
  const PIPE_KEY := "pipe"

  /** The key `init_obj` looks a class up under: a pipe's first word, any other item's name. */
  function InitKey(name: string): string
  {
    if Contains(name, "pipe") then FirstWord(name) else name
  }

  /** Every pipe variant shares the class stored under 'pipe'. */
  lemma PipeVariantKey(i: nat)
    requires i < |PIPE_TRANSPORT_DIRS|
    ensures InitKey("pipe " + NatToString(i)) == "pipe"
  {
    var name := "pipe " + NatToString(i);
    assert name[0..4] == "pipe";
    ContainsAt(name, "pipe", 0);
    FirstWordOfPhrase("pipe", " " + NatToString(i));
    assert "pipe" + (" " + NatToString(i)) == name;
  }

  /**
   * Placing a pipe reaches its constructor: 'pipe 0' is an object item, its
   * class is the one under 'pipe', and its arguments build on any tile. Once
   * two or more are held, `PlaceSingleTileItem` therefore meets the
   * AttributeError of `InitObjAsWritten`.
   */
  lemma PipeReachesConstructor(t: Coord, flipDir: Option<Facing>)
    ensures IsObjItem("pipe 0") && InitKey("pipe 0") == PIPE_KEY
    ensures GetClsInitParams("pipe 0", Tiles([t]), flipDir) == Ok(InitParams((t.0 * TILE_SIZE, t.1 * TILE_SIZE), Some(0), false, None))
  {
    PipeVariantKey(0);
    assert NatToString(0) == "0";
    PipeZeroObjItem();
    PipeZeroParams(t, flipDir);
  }

  /** 'pipe 0' builds the arguments of variant 0 on any tile. */
  lemma PipeZeroParams(t: Coord, flipDir: Option<Facing>)
    ensures GetClsInitParams("pipe 0", Tiles([t]), flipDir) == Ok(InitParams((t.0 * TILE_SIZE, t.1 * TILE_SIZE), Some(0), false, None))
  {
    assert "pipe 0"[..4] == "pipe";
  }

  /** The first pipe variant is an object item. */
  lemma PipeZeroObjItem()
    ensures IsObjItem("pipe 0")
  {
    assert NatToString(0) == "0";
    assert PipeNames(|PIPE_TRANSPORT_DIRS|)[0] == "pipe 0";
    assert PLACEABLE_ITEMS[|TILE_NAMES| + |PRODUCTION_NAMES| + 4] == "pipe 0";
  }

  /** The keys of the two inserters. */
  const INSERTER_KEYS: set<string> := {"burner inserter", "electric inserter"}

  /** The key of the electric furnace. */
  const ELECTRIC_FURNACE_KEY := "electric furnace"

  /**
   * The error the class under `key` raises, as written, when it is called with
   * the arguments `get_cls_init_params` builds. `Pipe.__init__` reads
   * `names_to_ids` from the game object, which has none. The inserters'
   * constructors accept none of the keywords `save_data`, `game_obj`, `ui` and
   * `direction`. `Furnace.__init__` reads `fuel_sources`, which
   * `ElectricFurnace` sets only after that call. Every other class builds.
   */
  function BuildError(key: string): Option<Error>
  {
    if key in INSERTER_KEYS then Some(TypeError)
    else if key == PIPE_KEY || key == ELECTRIC_FURNACE_KEY then Some(AttributeError)
    else None
  }

  /** The class under `key` exists and builds as written. */
  predicate Builds(key: string)
  {
    key in INIT_KEYS && BuildError(key).None?
  }

  /** Every class that fails to build is in the table, so its lookup succeeds first. */
  lemma FailingKeysPlaced(key: string)
    ensures BuildError(key).Some? ==> key in INIT_KEYS
  {
    assert PLACED_KEYS[1] == ELECTRIC_FURNACE_KEY && PLACED_KEYS[4] == PIPE_KEY;
    assert PLACED_KEYS[5] == "burner inserter" && PLACED_KEYS[6] == "electric inserter";
  }

  /**
   * Placing a burner inserter reaches its constructor: it is an object item
   * under its own name, its arguments build on any tile, and its class raises
   * TypeError. With two or more held (the player starts with ten),
   * `PlaceSingleTileItem` therefore meets the TypeError of `InitObjAsWritten`.
   */
  lemma InserterReachesConstructor(name: string, t: Coord, flipDir: Option<Facing>)
    requires name == "burner inserter"
    ensures IsObjItem(name) && InitKey(name) == name
    ensures BuildError(name) == Some(TypeError)
    ensures GetClsInitParams(name, Tiles([t]), flipDir)
      == Ok(InitParams((t.0 * TILE_SIZE, t.1 * TILE_SIZE), None, true, Some(flipDir)))
  {
    NoPipeIn(name);
    InserterObjItem();
    InserterParams(t, flipDir);
  }

  /** A burner inserter's arguments: its position, a UI and the player's direction. */
  lemma InserterParams(t: Coord, flipDir: Option<Facing>)
    ensures GetClsInitParams("burner inserter", Tiles([t]), flipDir)
      == Ok(InitParams((t.0 * TILE_SIZE, t.1 * TILE_SIZE), None, true, Some(flipDir)))
  {
    NoPipeParams("burner inserter", [t], flipDir);
  }

  /** The arguments of an item whose name has no 'p': the first covered tile's position, a UI, and a direction when it flips. */
  lemma NoPipeParams(name: string, cov: seq<Coord>, flipDir: Option<Facing>)
    requires 'p' !in name && |cov| > 0
    ensures GetClsInitParams(name, Tiles(cov), flipDir)
      == Ok(InitParams((cov[0].0 * TILE_SIZE, cov[0].1 * TILE_SIZE), None, true, if name in ITEMS_CAN_FLIP then Some(flipDir) else None))
  {
    NoPipeIn(name);
  }

  /** The burner inserter is an object item. */
  lemma InserterObjItem()
    ensures IsObjItem("burner inserter")
  {
    assert PLACEABLE_ITEMS[|TILE_NAMES| + |PRODUCTION_NAMES|] == "burner inserter";
  }

  /** A name without the letter 'p' is no pipe: its key is itself, and it gets a UI rather than a variant. */
  lemma NoPipeIn(name: string)
    requires 'p' !in name
    ensures !Contains(name, "pipe") && InitKey(name) == name
  {
    if Contains(name, "pipe") {
      ContainsChars(name, "pipe", 'p');
    }
  }

  /**
   * Placing an electric furnace reaches its constructor: it is an object item
   * under its own name, its arguments build on any non-empty covered tiles,
   * and its class raises AttributeError.
   */
  lemma ElectricFurnaceReachesConstructor(name: string, cov: seq<Coord>, flipDir: Option<Facing>)
    requires name == ELECTRIC_FURNACE_KEY && |cov| > 0
    ensures IsObjItem(name) && InitKey(name) == name
    ensures BuildError(name) == Some(AttributeError)
    ensures GetClsInitParams(name, Tiles(cov), flipDir)
      == Ok(InitParams((cov[0].0 * TILE_SIZE, cov[0].1 * TILE_SIZE), None, true, None))
  {
    NoPipeIn(name);
    ElectricFurnaceObjItem();
    ElectricFurnaceParams(cov, flipDir);
  }

  /** An electric furnace's arguments: the position of its first covered tile and a UI. */
  lemma ElectricFurnaceParams(cov: seq<Coord>, flipDir: Option<Facing>)
    requires |cov| > 0
    ensures GetClsInitParams(ELECTRIC_FURNACE_KEY, Tiles(cov), flipDir)
      == Ok(InitParams((cov[0].0 * TILE_SIZE, cov[0].1 * TILE_SIZE), None, true, None))
  {
    NoPipeParams(ELECTRIC_FURNACE_KEY, cov, flipDir);
    ElectricFurnaceFacesNoWay();
  }

  /** The electric furnace is placed without a direction: no flippable item's name has its length. */
  lemma ElectricFurnaceFacesNoWay()
    ensures ELECTRIC_FURNACE_KEY !in ITEMS_CAN_FLIP
  {
    assert forall n :: n in ITEMS_CAN_FLIP ==> |n| != 16;
  }

  /** The electric furnace is an object item. */
  lemma ElectricFurnaceObjItem()
    ensures IsObjItem(ELECTRIC_FURNACE_KEY)
  {
    assert PLACEABLE_ITEMS[|TILE_NAMES| + 1] == ELECTRIC_FURNACE_KEY;
  }

  /**
   * `PLACEABLE_ITEMS`: the terrain tiles, the production machines, the
   * logistics items but the bare pipe, one name per pipe variant, the
   * electricity items, the two chests, glass, the lab and the wood torch.
   */
  const PLACEABLE_ITEMS: seq<string> :=
    TILE_NAMES + PRODUCTION_NAMES + ["burner inserter", "electric inserter", "inlet pump", "outlet pump"]
    + PipeNames(|PIPE_TRANSPORT_DIRS|) + ELECTRICITY_NAMES + ["wood chest", "iron chest", "glass", "lab", "wood torch"]

  /** `OBJ_ITEMS`: the placeable items that are neither a terrain tile nor glass. */
  predicate IsObjItem(name: string)
  {
    name in PLACEABLE_ITEMS && name !in TILE_NAMES && name != "glass"
  }

  /** A created machine: which instance it is, the class key, and its arguments. */
  datatype Obj = Obj(serial: nat, key: string, params: InitParams)

  class Placer {
    const world: CollisionMap
    const reg: Registry
    /** `obj_map`: the object every tile of a placed machine belongs to. */
    var objMap: map<Coord, Obj>
    /** The number of objects created so far; each new one takes the next serial. */
    var serial: nat

    /** The registry is complete and the index's air id is the registry's. */
    ghost predicate Ready()
    {
      Complete(reg) && world.air == AIR
    }

    constructor (world: CollisionMap, reg: Registry)
      requires Complete(reg) && world.air == AIR
      ensures this.world == world && this.reg == reg && objMap == map[] && serial == 0 && Ready()
    {
      this.world := world;
      this.reg := reg;
      objMap := map[];
      serial := 0;
    }

    /**
     * `init_obj`: finds the class under the item's key (a KeyError for an
     * item that has none, such as a torch), builds its arguments, and points
     * every covered tile at the one new instance.
     */
    method InitObj(name: string, ts: seq<Coord>, flipDir: Option<Facing>) returns (r: Result<Obj>)
      modifies this`objMap, this`serial
      ensures InitKey(name) !in INIT_KEYS ==> r == Err(KeyError)
      ensures var p := GetClsInitParams(name, Tiles(ts), flipDir);
        InitKey(name) in INIT_KEYS && p.Err? ==> r == Err(p.error)
      ensures var p := GetClsInitParams(name, Tiles(ts), flipDir);
        InitKey(name) in INIT_KEYS && p.Ok? ==> r == Ok(Obj(old(serial), InitKey(name), p.value))
      ensures r.Err? ==> objMap == old(objMap) && serial == old(serial)
      ensures r.Ok? ==> serial == old(serial) + 1 && forall c :: c in objMap <==> c in old(objMap) || c in ts
      ensures r.Ok? ==> forall c :: c in ts ==> objMap[c] == r.value
      ensures r.Ok? ==> forall c :: c in old(objMap) && c !in ts ==> objMap[c] == old(objMap)[c]
    {
      var key := InitKey(name);
      if key !in INIT_KEYS {
        return Err(KeyError);
      }
      var p := GetClsInitParams(name, Tiles(ts), flipDir);
      if p.Err? {
        return Err(p.error);
      }
      var o := Obj(serial, key, p.value);
      serial := serial + 1;
      PointAll(ts, o);
      return Ok(o);
    }

    /**
     * `init_obj` as written. The class lookup and the argument build are those
     * of `InitObj`, but four classes raise when called (`BuildError`): a pipe
     * and the electric furnace raise AttributeError, the two inserters
     * TypeError, and nothing is created. Every other class builds as in
     * `InitObj`.
     */
    method InitObjAsWritten(name: string, ts: seq<Coord>, flipDir: Option<Facing>) returns (r: Result<Obj>)
      modifies this`objMap, this`serial
      ensures var p := GetClsInitParams(name, Tiles(ts), flipDir);
        InitKey(name) == PIPE_KEY ==>
          r == (if p.Err? then Err(p.error) else Err(AttributeError)) && objMap == old(objMap) && serial == old(serial)
      ensures var p := GetClsInitParams(name, Tiles(ts), flipDir);
        InitKey(name) in INSERTER_KEYS ==>
          r == (if p.Err? then Err(p.error) else Err(TypeError)) && objMap == old(objMap) && serial == old(serial)
      ensures var p := GetClsInitParams(name, Tiles(ts), flipDir);
        InitKey(name) == ELECTRIC_FURNACE_KEY ==>
          r == (if p.Err? then Err(p.error) else Err(AttributeError)) && objMap == old(objMap) && serial == old(serial)
      ensures InitKey(name) !in INIT_KEYS ==> r == Err(KeyError)
      ensures var p := GetClsInitParams(name, Tiles(ts), flipDir);
        InitKey(name) in INIT_KEYS && p.Err? ==> r == Err(p.error)
      ensures var p := GetClsInitParams(name, Tiles(ts), flipDir);
        Builds(InitKey(name)) && p.Ok? ==> r == Ok(Obj(old(serial), InitKey(name), p.value))
      ensures r.Err? ==> objMap == old(objMap) && serial == old(serial)
      ensures r.Ok? ==> serial == old(serial) + 1 && forall c :: c in objMap <==> c in old(objMap) || c in ts
      ensures r.Ok? ==> forall c :: c in ts ==> objMap[c] == r.value
      ensures r.Ok? ==> forall c :: c in old(objMap) && c !in ts ==> objMap[c] == old(objMap)[c]
    {
      var e := BuildError(InitKey(name));
      if e.Some? {
        FailingKeysPlaced(InitKey(name));
        var p := GetClsInitParams(name, Tiles(ts), flipDir);
        return if p.Err? then Err(p.error) else Err(e.value);
      }
      r := InitObj(name, ts, flipDir);
    }

    /** The loop of `init_obj`: every tile of `ts` now refers to `o`. */
    method PointAll(ts: seq<Coord>, o: Obj)
      modifies this`objMap
      ensures forall c :: c in objMap <==> c in old(objMap) || c in ts
      ensures forall c :: c in ts ==> objMap[c] == o
      ensures forall c :: c in old(objMap) && c !in ts ==> objMap[c] == old(objMap)[c]
    {
      var k := 0;
      while k < |ts|
        invariant 0 <= k <= |ts|
        invariant forall c :: c in objMap <==> c in old(objMap) || c in ts[..k]
        invariant forall c :: c in ts[..k] ==> objMap[c] == o
        invariant forall c :: c in old(objMap) && c !in ts[..k] ==> objMap[c] == old(objMap)[c]
      {
        objMap := objMap[ts[k] := o];
        assert ts[..k + 1] == ts[..k] + [ts[k]];
        k := k + 1;
      }
      assert ts[..k] == ts;
    }

    /** The `update_map(add_tile=True)` that follows a write of a solid id to a tile whose cell is indexed. */
    method FinishPut(t: Coord)
      requires IsMap(world.tiles) && InMap(t) && world.ValidExcept(world.cells, t)
      requires world.tiles[t.0, t.1] != world.air && CellOf(t) in world.cells
      modifies world`cells
      ensures world.Valid() && world.cells == Added(old(world.cells), t)
    {
      ghost var m := world.cells;
      world.UpdateMap(t, true, false);
      world.AddResyncs(m, t);
    }

    /** The tile write and index update a placement starts with. */
    method PutTile(t: Coord, id: int)
      requires world.Valid() && InMap(t) && id != world.air
      modifies world, world.tiles
      ensures world.tiles[t.0, t.1] == id
      ensures forall i, j :: 0 <= i < MAP_W && 0 <= j < MAP_H && (i, j) != t ==> world.tiles[i, j] == old(world.tiles[i, j])
      ensures world.cells == Added(old(world.cells), t)
      ensures world.Valid() <==> CellOf(t) in old(world.cells)
    {
      world.ValidIsValidExcept(t);
      world.Write(t, id);
      ghost var m := world.cells;
      world.UpdateMap(t, true, false);
      if CellOf(t) in m {
        world.AddResyncs(m, t);
      } else {
        world.MissingCellBreaksIndex(world.cells, t);
      }
    }

    /**
     * `place_single_tile_item` as written: the item's id goes into the grid,
     * `update_map(add_tile=True)` follows, one item leaves the inventory, and
     * only then is the held item checked against `OBJ_ITEMS`. The index
     * agrees with the grid afterwards exactly when the tile's cell already had
     * a bucket, and placing the last item of a kind creates no object.
     */
    method PlaceSingleTileItem(sprite: Colonist, t: Coord, flipDir: Option<Facing>) returns (r: Result<bool>)
      requires Ready() && world.Valid() && InMap(t) && sprite.Valid()
      requires sprite.inventory.holding.Some? && sprite.inventory.holding.value != "air"
      requires sprite.inventory.holding.value in sprite.inventory.amounts
      modifies world, world.tiles, sprite.inventory, this`objMap, this`serial
      ensures var name := old(sprite.inventory.holding).value;
        name !in reg.namesToIds ==>
          r == Err(KeyError) && unchanged(world.tiles) && world.cells == old(world.cells)
          && sprite.inventory.amounts == old(sprite.inventory.amounts) && objMap == old(objMap)
      ensures var name := old(sprite.inventory.holding).value;
        name in reg.namesToIds ==>
          world.tiles[t.0, t.1] == reg.namesToIds[name]
          && world.cells == Added(old(world.cells), t)
          && (world.Valid() <==> CellOf(t) in old(world.cells))
          && sprite.inventory.amounts == Take(old(sprite.inventory.amounts), name, 1)
      ensures forall i, j :: 0 <= i < MAP_W && 0 <= j < MAP_H && (i, j) != t ==> world.tiles[i, j] == old(world.tiles[i, j])
      ensures var name := old(sprite.inventory.holding).value;
        old(sprite.inventory.amounts)[name] < 2 || !IsObjItem(name) ==> objMap == old(objMap) && (r.Ok? ==> !r.value)
      ensures var name := old(sprite.inventory.holding).value;
        name in reg.namesToIds && old(sprite.inventory.amounts)[name] >= 2 && IsObjItem(name) && Builds(InitKey(name))
          && GetClsInitParams(name, Tiles([t]), flipDir).Ok? ==>
        r == Ok(true) && t in objMap && objMap[t].key == InitKey(name)
      ensures var name := old(sprite.inventory.holding).value;
        name in reg.namesToIds && old(sprite.inventory.amounts)[name] >= 2 && IsObjItem(name) && BuildError(InitKey(name)).Some?
          && GetClsInitParams(name, Tiles([t]), flipDir).Ok? ==>
        r == Err(BuildError(InitKey(name)).value) && objMap == old(objMap)
      ensures r == Ok(true) ==> forall k :: k in objMap ==> k in old(objMap) || k == t
      ensures sprite.Valid()
    {
      var name := sprite.inventory.holding.value;
      if name !in reg.namesToIds {
        return Err(KeyError);
      }
      IdsDiffer(reg, name, "air");
      PutTile(t, reg.namesToIds[name]);
      r := TakeThenCreate(sprite, t, flipDir);
    }

    /**
     * The tail of `place_single_tile_item` as written: one held item leaves
     * the inventory, and the object check then reads what is held afterwards,
     * which is nothing once the last item of the kind is gone.
     */
    method TakeThenCreate(sprite: Colonist, t: Coord, flipDir: Option<Facing>) returns (r: Result<bool>)
      requires sprite.Valid() && sprite.inventory.holding.Some?
      requires sprite.inventory.holding.value in sprite.inventory.amounts
      modifies sprite.inventory, this`objMap, this`serial
      ensures sprite.inventory.amounts == Take(old(sprite.inventory.amounts), old(sprite.inventory.holding).value, 1)
      ensures var name := old(sprite.inventory.holding).value;
        old(sprite.inventory.amounts)[name] < 2 || !IsObjItem(name) ==> objMap == old(objMap) && (r.Ok? ==> !r.value)
      ensures var name := old(sprite.inventory.holding).value;
        old(sprite.inventory.amounts)[name] >= 2 && IsObjItem(name) && Builds(InitKey(name))
          && GetClsInitParams(name, Tiles([t]), flipDir).Ok? ==>
        r == Ok(true) && t in objMap && objMap[t].key == InitKey(name)
      ensures var name := old(sprite.inventory.holding).value;
        old(sprite.inventory.amounts)[name] >= 2 && IsObjItem(name) && BuildError(InitKey(name)).Some?
          && GetClsInitParams(name, Tiles([t]), flipDir).Ok? ==>
        r == Err(BuildError(InitKey(name)).value) && objMap == old(objMap)
      ensures r == Ok(true) ==> forall k :: k in objMap ==> k in old(objMap) || k == t
      ensures sprite.Valid()
    {
      var _ := sprite.inventory.RemoveItem(None, 1);
      r := CreateHeld(sprite.inventory.holding, t, flipDir);
    }

    /** The object check of `place_single_tile_item`, on what is held after the removal. */
    method CreateHeld(held: Option<string>, t: Coord, flipDir: Option<Facing>) returns (r: Result<bool>)
      modifies this`objMap, this`serial
      ensures held.None? || !IsObjItem(held.value) ==> r == Ok(false) && objMap == old(objMap)
      ensures (held.Some? && IsObjItem(held.value) && Builds(InitKey(held.value))
               && GetClsInitParams(held.value, Tiles([t]), flipDir).Ok?) ==>
        r == Ok(true) && t in objMap && objMap[t].key == InitKey(held.value)
      ensures (held.Some? && IsObjItem(held.value) && BuildError(InitKey(held.value)).Some?
               && GetClsInitParams(held.value, Tiles([t]), flipDir).Ok?) ==>
        r == Err(BuildError(InitKey(held.value)).value) && objMap == old(objMap)
      ensures r == Ok(true) ==> forall k :: k in objMap ==> k in old(objMap) || k == t
    {
      r := Ok(false);
      if held.Some? && IsObjItem(held.value) {
        var o := InitObjAsWritten(held.value, [t], flipDir);
        r := if o.Err? then Err(o.error) else Ok(true);
      }
    }

    /**
     * `place_single_tile_item` as evidently intended: the item's name is taken
     * before the removal, so every machine gets its object, and the add
     * creates a missing bucket, so the index always agrees with the grid.
     */
    method PlaceSingleTileItemFixed(sprite: Colonist, t: Coord, flipDir: Option<Facing>) returns (r: Result<bool>)
      requires Ready() && world.Valid() && InMap(t) && sprite.Valid()
      requires sprite.inventory.holding.Some? && sprite.inventory.holding.value != "air"
      requires sprite.inventory.holding.value in sprite.inventory.amounts
      modifies world, world.tiles, sprite.inventory, this`objMap, this`serial
      ensures world.Valid()
      ensures var name := old(sprite.inventory.holding).value;
        name !in reg.namesToIds ==>
          r == Err(KeyError) && unchanged(world.tiles) && world.cells == old(world.cells)
          && sprite.inventory.amounts == old(sprite.inventory.amounts) && objMap == old(objMap)
      ensures var name := old(sprite.inventory.holding).value;
        name in reg.namesToIds ==>
          world.tiles[t.0, t.1] == reg.namesToIds[name]
          && world.cells == AddedCreating(old(world.cells), t)
          && sprite.inventory.amounts == Take(old(sprite.inventory.amounts), name, 1)
          && (IsObjItem(name) && InitKey(name) in INIT_KEYS && GetClsInitParams(name, Tiles([t]), flipDir).Ok? ==>
                r == Ok(true) && t in objMap && objMap[t].key == InitKey(name))
      ensures forall i, j :: 0 <= i < MAP_W && 0 <= j < MAP_H && (i, j) != t ==> world.tiles[i, j] == old(world.tiles[i, j])
      ensures sprite.Valid()
    {
      var name := sprite.inventory.holding.value;
      if name !in reg.namesToIds {
        return Err(KeyError);
      }
      IdsDiffer(reg, name, "air");
      PutTileCreating(t, reg.namesToIds[name]);
      r := TakeAndCreate(sprite, name, t, flipDir);
    }

    /** The tail of `place_single_tile_item` as intended: one item leaves the inventory and the placed item gets its object. */
    method TakeAndCreate(sprite: Colonist, name: string, t: Coord, flipDir: Option<Facing>) returns (r: Result<bool>)
      requires sprite.Valid() && sprite.inventory.holding == Some(name) && name in sprite.inventory.amounts
      modifies sprite.inventory, this`objMap, this`serial
      ensures sprite.inventory.amounts == Take(old(sprite.inventory.amounts), name, 1)
      ensures !IsObjItem(name) ==> r == Ok(false) && objMap == old(objMap)
      ensures IsObjItem(name) && InitKey(name) in INIT_KEYS && GetClsInitParams(name, Tiles([t]), flipDir).Ok? ==>
        r == Ok(true) && t in objMap && objMap[t].key == InitKey(name)
      ensures sprite.Valid()
    {
      var _ := sprite.inventory.RemoveItem(None, 1);
      r := Ok(false);
      if IsObjItem(name) {
        var o := InitObj(name, [t], flipDir);
        r := if o.Err? then Err(o.error) else Ok(true);
      }
    }

    /** The grid write and the index update that creates a missing bucket. */
    method PutTileCreating(t: Coord, id: int)
      requires world.Valid() && InMap(t) && id != world.air
      modifies world, world.tiles
      ensures world.Valid() && world.tiles[t.0, t.1] == id && world.cells == AddedCreating(old(world.cells), t)
      ensures forall i, j :: 0 <= i < MAP_W && 0 <= j < MAP_H && (i, j) != t ==> world.tiles[i, j] == old(world.tiles[i, j])
    {
      world.ValidIsValidExcept(t);
      world.Write(t, id);
      world.AddTile(t);
    }

    /** The id `place_multi_tile_item` gives the `k`-th covered tile: the item's on the first, 'item extended' on the rest. */
    function MultiTileId(id: int, k: int): int
    {
      if k == 0 then id else ITEM_EXTENDED
    }

    /** The rest of the loop of `place_multi_tile_item`: 'item extended' and its index update on every tile after the first. */
    method PutExtended(cov: seq<Coord>, id: int)
      requires world.Valid() && |cov| > 0 && NoDup(cov)
      requires forall k :: 0 <= k < |cov| ==> 0 <= cov[k].0 < MAP_W && 0 <= cov[k].1 < MAP_H
      requires forall k :: 0 <= k < |cov| ==> CellOf(cov[k]) in world.cells
      requires world.tiles[cov[0].0, cov[0].1] == id && world.air == AIR
      modifies world, world.tiles
      ensures world.Valid()
      ensures forall k :: 0 <= k < |cov| ==> world.tiles[cov[k].0, cov[k].1] == MultiTileId(id, k)
      ensures forall a, b :: 0 <= a < MAP_W && 0 <= b < MAP_H && (a, b) !in cov ==> world.tiles[a, b] == old(world.tiles[a, b])
      ensures forall c :: c in old(world.cells) ==> c in world.cells
    {
      var i := 1;
      while i < |cov|
        invariant 1 <= i <= |cov|
        invariant world.Valid() && world.air == AIR
        invariant forall k :: 0 <= k < i ==> world.tiles[cov[k].0, cov[k].1] == MultiTileId(id, k)
        invariant forall a, b :: 0 <= a < MAP_W && 0 <= b < MAP_H && (a, b) !in cov ==> world.tiles[a, b] == old(world.tiles[a, b])
        invariant forall c :: c in old(world.cells) ==> c in world.cells
        modifies world, world.tiles
      {
        ExtendStep(cov, id, i);
        i := i + 1;
      }
    }

    /** One pass of that loop: 'item extended' on the `i`-th covered tile, which no earlier pass wrote. */
    method ExtendStep(cov: seq<Coord>, id: int, i: int)
      requires world.Valid() && world.air == AIR && 1 <= i < |cov| && NoDup(cov)
      requires forall k :: 0 <= k < |cov| ==> 0 <= cov[k].0 < MAP_W && 0 <= cov[k].1 < MAP_H
      requires forall k :: 0 <= k < i ==> world.tiles[cov[k].0, cov[k].1] == MultiTileId(id, k)
      requires CellOf(cov[i]) in world.cells
      modifies world, world.tiles
      ensures world.Valid() && world.air == AIR
      ensures forall k :: 0 <= k <= i ==> world.tiles[cov[k].0, cov[k].1] == MultiTileId(id, k)
      ensures forall a, b :: 0 <= a < MAP_W && 0 <= b < MAP_H && (a, b) != cov[i] ==> world.tiles[a, b] == old(world.tiles[a, b])
      ensures forall c :: c in old(world.cells) ==> c in world.cells
    {
      var t := cov[i];
      PutTile(t, ITEM_EXTENDED);
      forall k | 0 <= k < i
        ensures cov[k] != t
      {
        assert NoDup(cov);
      }
    }

    /** Every covered tile points at the object of the first one, whose serial is `n`. */
    predicate SharesObject(cov: seq<Coord>, n: int)
      reads this
    {
      |cov| > 0 && cov[0] in objMap && forall c :: c in cov ==> c in objMap && objMap[c] == objMap[cov[0]] && objMap[c].serial == n
    }

    /** The covered tiles hold `id` on the first and 'item extended' on the others. */
    predicate Covers(cov: seq<Coord>, id: int)
      reads world, world.tiles
    {
      IsMap(world.tiles) && forall k :: 0 <= k < |cov| ==> InMap(cov[k]) && world.tiles[cov[k].0, cov[k].1] == MultiTileId(id, k)
    }

    /**
     * How the object step of `place_multi_tile_item` ends as written: `false`
     * for an item that is no machine; for a machine, the KeyError of a missing
     * class, the error of its arguments, the error its class raises, or `true`
     * once the object exists.
     */
    function ObjStep(name: string, cov: seq<Coord>, flipDir: Option<Facing>): Result<bool>
    {
      if !IsObjItem(name) then Ok(false)
      else if InitKey(name) !in INIT_KEYS then Err(KeyError)
      else match GetClsInitParams(name, Tiles(cov), flipDir)
        case Err(e) => Err(e)
        case Ok(_) => if BuildError(InitKey(name)).Some? then Err(BuildError(InitKey(name)).value) else Ok(true)
    }

    /**
     * The first step of `place_multi_tile_item`: the item's id on the first
     * covered tile, the machine's object for all covered tiles when the item
     * is one, and the first index update.
     */
    method PutFirst(name: string, cov: seq<Coord>, flipDir: Option<Facing>) returns (r: Result<bool>)
      requires Ready() && world.Valid() && |cov| > 0 && InMap(cov[0]) && CellOf(cov[0]) in world.cells
      requires name in reg.namesToIds && reg.namesToIds[name] != AIR
      modifies world`cells, world.tiles, this`objMap, this`serial
      ensures world.tiles[cov[0].0, cov[0].1] == reg.namesToIds[name]
      ensures forall i, j :: 0 <= i < MAP_W && 0 <= j < MAP_H && (i, j) != cov[0] ==> world.tiles[i, j] == old(world.tiles[i, j])
      ensures r.Ok? ==>
        world.Valid() && world.cells == Added(old(world.cells), cov[0])
        && (forall c :: c in old(world.cells) ==> c in world.cells)
        && (r.value <==> IsObjItem(name))
        && (r.value ==> SharesObject(cov, old(serial)))
        && (!r.value ==> objMap == old(objMap))
      ensures r.Err? ==>
        IsObjItem(name) && world.cells == old(world.cells) && world.ValidExcept(world.cells, cov[0]) && objMap == old(objMap)
      ensures r == ObjStep(name, cov, flipDir)
    {
      var first := cov[0];
      world.ValidIsValidExcept(first);
      world.Write(first, reg.namesToIds[name]);
      var obj := IsObjItem(name);
      if obj {
        var o := CreateShared(name, cov, flipDir);
        if o.Err? {
          return Err(o.error);
        }
      }
      FinishPut(first);
      return Ok(obj);
    }

    /** `init_obj` as written for the covered tiles: built, the object is shared by all of them. */
    method CreateShared(name: string, cov: seq<Coord>, flipDir: Option<Facing>) returns (r: Result<Obj>)
      requires |cov| > 0
      modifies this`objMap, this`serial
      ensures r.Ok? <==> Builds(InitKey(name)) && GetClsInitParams(name, Tiles(cov), flipDir).Ok?
      ensures InitKey(name) !in INIT_KEYS ==> r == Err(KeyError)
      ensures InitKey(name) in INIT_KEYS && GetClsInitParams(name, Tiles(cov), flipDir).Err? ==>
        r == Err(GetClsInitParams(name, Tiles(cov), flipDir).error)
      ensures BuildError(InitKey(name)).Some? && GetClsInitParams(name, Tiles(cov), flipDir).Ok? ==>
        r == Err(BuildError(InitKey(name)).value)
      ensures r.Ok? ==> SharesObject(cov, old(serial)) && r.value.key == InitKey(name)
      ensures r.Err? ==> objMap == old(objMap)
    {
      r := InitObjAsWritten(name, cov, flipDir);
    }

    /**
     * `place_multi_tile_item`: the first covered tile gets the item's id and
     * the others 'item extended', each followed by `update_map(add_tile=True)`;
     * a machine's object is created right after the first write, and then one
     * item leaves the inventory. With every covered cell already in the index,
     * the index agrees with the grid afterwards. An item without a class raises
     * in `init_obj`, after the first write and before its index update.
     */
    method PlaceMultiTileItem(sprite: Colonist, cov: seq<Coord>, flipDir: Option<Facing>) returns (r: Result<bool>)
      requires Ready() && world.Valid() && sprite.Valid()
      requires sprite.inventory.holding.Some? && sprite.inventory.holding.value != "air"
      requires sprite.inventory.holding.value in sprite.inventory.amounts
      requires |cov| > 0 && NoDup(cov)
      requires forall k :: 0 <= k < |cov| ==> 0 <= cov[k].0 < MAP_W && 0 <= cov[k].1 < MAP_H
      requires forall k :: 0 <= k < |cov| ==> CellOf(cov[k]) in world.cells
      modifies world, world.tiles, sprite.inventory, this`objMap, this`serial
      ensures var name := old(sprite.inventory.holding).value;
        name !in reg.namesToIds ==>
          r == Err(KeyError) && unchanged(world.tiles) && world.cells == old(world.cells)
          && sprite.inventory.amounts == old(sprite.inventory.amounts) && objMap == old(objMap)
      ensures forall i, j :: 0 <= i < MAP_W && 0 <= j < MAP_H && (i, j) !in cov ==> world.tiles[i, j] == old(world.tiles[i, j])
      ensures var name := old(sprite.inventory.holding).value;
        name in reg.namesToIds && r.Ok? ==>
          world.Valid()
          && Covers(cov, reg.namesToIds[name])
          && sprite.inventory.amounts == Take(old(sprite.inventory.amounts), name, 1)
          && (r.value <==> IsObjItem(name))
          && (r.value ==> SharesObject(cov, old(serial)))
          && (!r.value ==> objMap == old(objMap))
      ensures var name := old(sprite.inventory.holding).value;
        name in reg.namesToIds && r.Err? ==>
          IsObjItem(name) && InMap(cov[0]) && world.tiles[cov[0].0, cov[0].1] == reg.namesToIds[name] && world.cells == old(world.cells)
          && world.ValidExcept(world.cells, cov[0]) && sprite.inventory.amounts == old(sprite.inventory.amounts)
      ensures var name := old(sprite.inventory.holding).value;
        name in reg.namesToIds ==> r == ObjStep(name, cov, flipDir)
      ensures sprite.Valid()
    {
      var name := sprite.inventory.holding.value;
      if name !in reg.namesToIds {
        return Err(KeyError);
      }
      r := PlaceKnown(sprite, name, cov, flipDir);
    }

    /** `place_multi_tile_item` for an item the registry knows. */
    method PlaceKnown(sprite: Colonist, name: string, cov: seq<Coord>, flipDir: Option<Facing>) returns (r: Result<bool>)
      requires Ready() && world.Valid() && sprite.Valid()
      requires sprite.inventory.holding == Some(name) && name != "air" && name in sprite.inventory.amounts
      requires name in reg.namesToIds
      requires |cov| > 0 && NoDup(cov)
      requires forall k :: 0 <= k < |cov| ==> 0 <= cov[k].0 < MAP_W && 0 <= cov[k].1 < MAP_H
      requires forall k :: 0 <= k < |cov| ==> CellOf(cov[k]) in world.cells
      modifies world, world.tiles, sprite.inventory, this`objMap, this`serial
      ensures forall i, j :: 0 <= i < MAP_W && 0 <= j < MAP_H && (i, j) !in cov ==> world.tiles[i, j] == old(world.tiles[i, j])
      ensures r.Ok? ==>
        world.Valid()
        && Covers(cov, reg.namesToIds[name])
        && sprite.inventory.amounts == Take(old(sprite.inventory.amounts), name, 1)
        && (r.value <==> IsObjItem(name))
        && (r.value ==> SharesObject(cov, old(serial)))
        && (!r.value ==> objMap == old(objMap))
      ensures r.Err? ==>
        IsObjItem(name) && InMap(cov[0]) && world.tiles[cov[0].0, cov[0].1] == reg.namesToIds[name] && world.cells == old(world.cells)
        && world.ValidExcept(world.cells, cov[0]) && sprite.inventory.amounts == old(sprite.inventory.amounts)
      ensures r == ObjStep(name, cov, flipDir)
      ensures sprite.Valid()
    {
      var id := reg.namesToIds[name];
      assert id != AIR by { IdsDiffer(reg, name, "air"); }
      r := PutFirst(name, cov, flipDir);
      if r.Err? {
        return;
      }
      Extend(sprite, name, cov, id);
    }

    /** The end of `place_multi_tile_item`: 'item extended' on the other covered tiles, then one item leaves the inventory. */
    method Extend(sprite: Colonist, name: string, cov: seq<Coord>, id: int)
      requires world.Valid() && sprite.Valid() && |cov| > 0 && NoDup(cov)
      requires forall k :: 0 <= k < |cov| ==> 0 <= cov[k].0 < MAP_W && 0 <= cov[k].1 < MAP_H
      requires forall k :: 0 <= k < |cov| ==> CellOf(cov[k]) in world.cells
      requires world.tiles[cov[0].0, cov[0].1] == id && world.air == AIR
      requires sprite.inventory.holding == Some(name) && name in sprite.inventory.amounts
      modifies world, world.tiles, sprite.inventory
      ensures world.Valid() && sprite.Valid()
      ensures Covers(cov, id)
      ensures forall a, b :: 0 <= a < MAP_W && 0 <= b < MAP_H && (a, b) !in cov ==> world.tiles[a, b] == old(world.tiles[a, b])
      ensures sprite.inventory.amounts == Take(old(sprite.inventory.amounts), name, 1)
    {
      PutExtended(cov, id);
      var _ := sprite.inventory.RemoveItem(Some(name), 1);
    }
  }
}
