/**
 * Mining with a pickaxe: each frame the key is held, the tile under the
 * mouse loses hardness in proportion to the tool's strength and the hits so
 * far; at zero it goes into the inventory, the grid holds air there, and the
 * collision index drops its rectangle.
 */
module Mining {
  import opened Wrappers
  import opened Settings
  import opened Rects
  import opened PyNum
  import opened TileRegistry
  import opened Collision
  import opened Inventories
  import opened Sprites
  import opened Colonists
  import opened Grids
  import TileReads

  /** A `mining_map` entry: the hardness left and the hits so far. */
  datatype Progress = Progress(hardness: real, hits: real)

  /** The tile under a rectangle's centre (`Vector2(rect.center) // TILE_SIZE`). */
  function SpriteTile(r: Rect): Coord
  {
    (r.CenterX() / TILE_SIZE, r.CenterY() / TILE_SIZE)
  }

  /** `distance_to(b) <= TILE_REACH_RADIUS`, compared on squares so that it stays in the integers. */
  predicate InReach(a: Coord, b: Coord)
  {
    (a.0 - b.0) * (a.0 - b.0) + (a.1 - b.1) * (a.1 - b.1) <= TILE_REACH_RADIUS * TILE_REACH_RADIUS
  }

  /** A square grows past 36 once its side is 6. */
  lemma SquareFromSix(d: nat)
    ensures d >= 6 ==> d * d >= 36
  {
    if d >= 6 {
      assert d * d >= 6 * d;
    }
  }

  /** A tile in mining reach is also within the square reach placement uses. */
  lemma InReachIsSquareReach(a: Coord, b: Coord)
    requires InReach(a, b)
    ensures Abs(a.0 - b.0) <= TILE_REACH_RADIUS && Abs(a.1 - b.1) <= TILE_REACH_RADIUS
  {
    var dx, dy := Abs(a.0 - b.0), Abs(a.1 - b.1);
    assert dx * dx == (a.0 - b.0) * (a.0 - b.0) && dy * dy == (a.1 - b.1) * (a.1 - b.1);
    SquareFromSix(dx);
    SquareFromSix(dy);
  }

  /** The item names `run` mines with: any held name containing 'pickaxe'. */
  predicate HoldsPickaxe(holding: Option<string>)
  {
    holding.Some? && holding.value != "" && Contains(holding.value, "pickaxe")
  }

  /** One frame's hit: the hits grow by `hit`, then the hardness drops by strength times all hits, never below 0. */
  function Hit(p: Progress, strength: int, hit: real): (q: Progress)
    ensures q.hits == p.hits + hit
    ensures 0.0 <= q.hardness
    ensures q.hardness == 0.0 <==> p.hardness <= strength as real * q.hits
    ensures q.hardness > 0.0 ==> q.hardness == p.hardness - strength as real * q.hits
  {
    var hits := p.hits + hit;
    Progress(RMax(0.0, p.hardness - strength as real * hits), hits)
  }

  /** With a positive strength and a positive hit every frame, a tile of hardness `h` is gone once `h/strength` hits are in. */
  lemma HitsAddUp(p: Progress, strength: int, hit: real)
    requires strength > 0 && hit > 0.0 && p.hits >= 0.0 && p.hardness >= 0.0
    ensures Hit(p, strength, hit).hits > p.hits
    ensures Hit(p, strength, hit).hardness <= p.hardness
  {
  }

  /** The entry the first hit on a tile creates: its material's hardness and no hits. */
  function FirstEntry(reg: Registry, id: int): (r: Result<Progress>)
    ensures r.Ok? ==>
      GetTileMaterial(reg, id).Ok? && Hardness(GetTileMaterial(reg, id).value).Some?
      && r.value == Progress(Hardness(GetTileMaterial(reg, id).value).value as real, 0.0)
    ensures r.Ok? ==> r.value.hardness >= 100.0
    ensures r.Err? ==> r.error == KeyError
  {
    match GetTileMaterial(reg, id)
    case Err(e) => Err(KeyError)
    case Ok(m) =>
      match Hardness(m)
      case None => Err(KeyError)
      case Some(h) => Ok(Progress(h as real, 0.0))
  }

  class Miner {
    /** The tile grid and its collision index. */
    const world: CollisionMap
    const reg: Registry
    /** `mining_map`. */
    var progress: map<Coord, Progress>

    /** The index agrees with the grid, air is the registry's air, and no stored hardness is negative. */
    ghost predicate Valid()
      reads this, world, world.tiles
    {
      world.Valid() && Complete(reg) && world.air == Id(reg, "air")
      && forall t :: t in progress ==> progress[t].hardness >= 0.0
    }

    /** `invalid_ids`: the tiles that cannot be mined. */
    function InvalidIds(): set<int>
      requires Complete(reg)
    {
      {Id(reg, "air"), Id(reg, "water"), Id(reg, "tree base")}
    }

    /**
     * `valid_tile` as intended: the tile is on the map, in reach of the
     * sprite's tile and is not air, water or a tree base. `ValidTileAsWritten`
     * is the numpy reading, which wraps a negative coordinate.
     */
    predicate ValidTile(sprite: Rect, t: Coord)
      reads world.tiles
      requires IsMap(world.tiles) && Complete(reg)
    {
      InMap(t) && InReach(SpriteTile(sprite), t) && world.tiles[t.0, t.1] !in InvalidIds()
    }

    /**
     * `valid_tile` as written: out of reach is `False` without a read; in reach,
     * `tile_map[xy]` wraps a negative coordinate to the far edge and raises
     * IndexError past either end.
     */
    function ValidTileAsWritten(sprite: Rect, t: Coord): (r: Result<bool>)
      reads world.tiles
      requires IsMap(world.tiles) && Complete(reg)
      ensures InMap(t) ==> r == Ok(ValidTile(sprite, t))
      ensures r.Err? <==> InReach(SpriteTile(sprite), t) && !(-MAP_W <= t.0 < MAP_W && -MAP_H <= t.1 < MAP_H)
      ensures InReach(SpriteTile(sprite), t) && 0 <= t.0 < MAP_W && -MAP_H <= t.1 < 0 ==>
        !ValidTile(sprite, t) && r == Ok(world.tiles[t.0, t.1 + MAP_H] !in InvalidIds())
    {
      if !InReach(SpriteTile(sprite), t) then Ok(false)
      else
        match TileReads.Read(world.tiles, t)
        case Err(e) => Err(e)
        case Ok(v) => Ok(v !in InvalidIds())
    }

    constructor (world: CollisionMap, reg: Registry)
      requires world.Valid() && Complete(reg) && world.air == Id(reg, "air")
      ensures this.world == world && this.reg == reg && progress == map[]
      ensures Valid()
    {
      this.world := world;
      this.reg := reg;
      progress := map[];
    }

    /**
     * `run`: with a pickaxe held, a valid tile is mined (its entry created on
     * the first hit) and the sprite is mining; an invalid one stops the mining
     * state. Nothing held but a pickaxe means nothing happens.
     */
    method Run(sprite: Colonist, t: Coord, hit: real) returns (r: Result<bool>)
      requires Valid() && sprite.Valid()
      modifies this, world, world.tiles, sprite, sprite.inventory
      ensures Valid() && sprite.Valid()
      ensures sprite.rect == old(sprite.rect)
      ensures !HoldsPickaxe(old(sprite.inventory.holding)) ==>
        r == Ok(false) && progress == old(progress) && unchanged(world.tiles) && world.cells == old(world.cells)
        && sprite.state == old(sprite.state)
      ensures HoldsPickaxe(old(sprite.inventory.holding)) && !old(ValidTile(sprite.rect, t)) ==>
        r == Ok(false) && progress == old(progress) && unchanged(world.tiles) && world.cells == old(world.cells)
        && sprite.state == (if old(sprite.state) == State.Mining then Idle else old(sprite.state))
      ensures HoldsPickaxe(old(sprite.inventory.holding)) && old(ValidTile(sprite.rect, t)) ==>
        sprite.state == State.Mining && InMap(t) && Outcome(sprite, t, hit, r)
      ensures (HoldsPickaxe(old(sprite.inventory.holding)) && old(ValidTile(sprite.rect, t))
        && t !in old(progress) && FirstEntry(reg, old(world.tiles[t.0, t.1])).Err?) ==>
        r == Err(KeyError) && progress == old(progress) && unchanged(world.tiles)
      ensures HoldsPickaxe(old(sprite.inventory.holding)) && old(ValidTile(sprite.rect, t)) && r == Ok(false) ==>
        (t in old(progress) || FirstEntry(reg, old(world.tiles[t.0, t.1])).Ok?)
        && var e := if t in old(progress) then old(progress)[t] else FirstEntry(reg, old(world.tiles[t.0, t.1])).value;
        var s := GetToolStrength(old(sprite.inventory.holding), sprite.armStrength);
        s.Ok? && Hit(e, s.value, hit).hardness > 0.0 && progress == old(progress)[t := Hit(e, s.value, hit)]
        && unchanged(world.tiles) && world.cells == old(world.cells)
      ensures r == Ok(true) ==>
        InMap(t) && world.tiles[t.0, t.1] == world.air && t !in progress
        && world.cells == Removed(old(world.cells), t)
      ensures forall i, j :: 0 <= i < MAP_W && 0 <= j < MAP_H && (i, j) != t ==> world.tiles[i, j] == old(world.tiles[i, j])
    {
      r := Ok(false);
      if HoldsPickaxe(sprite.inventory.holding) {
        if ValidTile(sprite.rect, t) {
          // `mine_tile` does not read the state, so setting it after the hit is the same
          r := MineTile(sprite, t, hit);
          sprite.state := State.Mining;
        } else if sprite.state == State.Mining {
          sprite.state := Idle;
        }
      }
    }

    /**
     * What one hit on a valid tile `t` leaves, with `e` its entry (the stored
     * one, or the one the first hit creates) and `s` the held tool's strength:
     * no entry to create is a KeyError that changes nothing; a tool without a
     * strength raises once the hit is counted; a hit that leaves hardness is
     * stored; one that wears the tile down adds its material to the
     * inventory, writes air, resynchronises the index and drops the entry,
     * unless the material lookup raises, which leaves the hit stored.
     */
    twostate predicate Outcome(sprite: Colonist, t: Coord, hit: real, new r: Result<bool>)
      requires IsMap(world.tiles) && InMap(t)
      reads this, world, world.tiles, sprite.inventory
    {
      var id := old(world.tiles[t.0, t.1]);
      var e := if t in old(progress) then Ok(old(progress)[t]) else FirstEntry(reg, id);
      var s := GetToolStrength(old(sprite.inventory.holding), sprite.armStrength);
      var m := GetTileMaterial(reg, id);
      if e.Err? then
        r == Err(e.error) && progress == old(progress) && unchanged(world.tiles) && world.cells == old(world.cells)
      else if s.Err? then
        r == Err(s.error) && unchanged(world.tiles) && world.cells == old(world.cells)
        && progress == old(progress)[t := Progress(e.value.hardness, e.value.hits + hit)]
      else if Hit(e.value, s.value, hit).hardness > 0.0 then
        r == Ok(false) && unchanged(world.tiles) && world.cells == old(world.cells)
        && progress == old(progress)[t := Hit(e.value, s.value, hit)]
        && sprite.inventory.amounts == old(sprite.inventory.amounts)
      else if m.Ok? then
        r == Ok(true) && world.tiles[t.0, t.1] == world.air && progress == old(progress) - {t}
        && world.cells == Removed(old(world.cells), t)
        && sprite.inventory.amounts == AddAmount(old(sprite.inventory.amounts), m.value, 1, old(sprite.inventory.lastIdxWithItem))
      else
        r == Err(m.error) && unchanged(world.tiles) && progress == old(progress)[t := Hit(e.value, s.value, hit)]
    }

    /** A map entry that was not there before: storing it and then replacing or dropping it is the same as doing that alone. */
    static lemma Reenter(p0: map<Coord, Progress>, k: Coord, e: Progress, v: Progress)
      requires k !in p0
      ensures p0[k := e][k := v] == p0[k := v] && p0[k := e] - {k} == p0 - {k}
    {
      assert p0[k := e][k := v] == p0[k := v];
      assert p0[k := e] - {k} == p0 - {k};
    }

    /** The valid branch of `run`: the entry is created on the first hit, then `update_tile` hits it. */
    method MineTile(sprite: Colonist, t: Coord, hit: real) returns (r: Result<bool>)
      requires Valid() && sprite.Valid() && HoldsPickaxe(sprite.inventory.holding) && ValidTile(sprite.rect, t)
      modifies this, world, world.tiles, sprite.inventory
      ensures Valid() && sprite.Valid()
      ensures t !in old(progress) && FirstEntry(reg, old(world.tiles[t.0, t.1])).Err? ==>
        r == Err(KeyError) && progress == old(progress) && unchanged(world.tiles)
      ensures r == Ok(false) ==>
        (t in old(progress) || FirstEntry(reg, old(world.tiles[t.0, t.1])).Ok?)
        && var e := if t in old(progress) then old(progress)[t] else FirstEntry(reg, old(world.tiles[t.0, t.1])).value;
        var s := GetToolStrength(old(sprite.inventory.holding), sprite.armStrength);
        s.Ok? && Hit(e, s.value, hit).hardness > 0.0 && progress == old(progress)[t := Hit(e, s.value, hit)]
        && unchanged(world.tiles) && world.cells == old(world.cells)
      ensures r == Ok(true) ==>
        world.tiles[t.0, t.1] == world.air && t !in progress && world.cells == Removed(old(world.cells), t)
      ensures Outcome(sprite, t, hit, r)
      ensures forall i, j :: 0 <= i < MAP_W && 0 <= j < MAP_H && (i, j) != t ==> world.tiles[i, j] == old(world.tiles[i, j])
    {
      if t in progress {
        r := UpdateTile(sprite, t, hit);
      } else {
        r := MineFresh(sprite, t, hit);
      }
    }

    /** `mine_tile` on a tile without an entry: the entry is created from the tile's hardness, then hit. */
    method MineFresh(sprite: Colonist, t: Coord, hit: real) returns (r: Result<bool>)
      requires Valid() && sprite.Valid() && HoldsPickaxe(sprite.inventory.holding) && ValidTile(sprite.rect, t)
      requires t !in progress
      modifies this, world, world.tiles, sprite.inventory
      ensures Valid() && sprite.Valid()
      ensures Outcome(sprite, t, hit, r)
      ensures forall i, j :: 0 <= i < MAP_W && 0 <= j < MAP_H && (i, j) != t ==> world.tiles[i, j] == old(world.tiles[i, j])
    {
      ghost var p0 := progress;
      var e := FirstEntry(reg, world.tiles[t.0, t.1]);
      if e.Err? {
        return Err(e.error);
      }
      progress := progress[t := e.value];
      r := UpdateTile(sprite, t, hit);
      Reenter(p0, t, e.value, if t in progress then progress[t] else e.value);
    }

    /**
     * `update_tile`: one hit on an entry. When the hardness reaches 0 the
     * tile's material is added to the inventory, air is written, the collision
     * index is resynchronised and the entry goes.
     */
    method UpdateTile(sprite: Colonist, t: Coord, hit: real) returns (r: Result<bool>)
      requires Valid() && sprite.Valid() && InMap(t) && t in progress
      requires HoldsPickaxe(sprite.inventory.holding)
      modifies this, world, world.tiles, sprite.inventory
      ensures Valid() && sprite.Valid()
      ensures var s := GetToolStrength(old(sprite.inventory.holding), sprite.armStrength);
        s.Err? ==>
          r == Err(s.error) && unchanged(world.tiles) && world.cells == old(world.cells)
          && progress == old(progress)[t := Progress(old(progress[t]).hardness, old(progress[t]).hits + hit)]
      ensures var s := GetToolStrength(old(sprite.inventory.holding), sprite.armStrength);
        s.Ok? && Hit(old(progress[t]), s.value, hit).hardness > 0.0 ==>
          r == Ok(false) && unchanged(world.tiles) && world.cells == old(world.cells)
          && progress == old(progress)[t := Hit(old(progress[t]), s.value, hit)]
          && sprite.inventory.amounts == old(sprite.inventory.amounts)
      ensures var s := GetToolStrength(old(sprite.inventory.holding), sprite.armStrength);
        var m := GetTileMaterial(reg, old(world.tiles[t.0, t.1]));
        s.Ok? && Hit(old(progress[t]), s.value, hit).hardness == 0.0 && m.Ok? ==>
          r == Ok(true) && world.tiles[t.0, t.1] == world.air && progress == old(progress) - {t}
          && world.cells == Removed(old(world.cells), t)
          && sprite.inventory.amounts ==
             AddAmount(old(sprite.inventory.amounts), m.value, 1, old(sprite.inventory.lastIdxWithItem))
      ensures var s := GetToolStrength(old(sprite.inventory.holding), sprite.armStrength);
        var m := GetTileMaterial(reg, old(world.tiles[t.0, t.1]));
        s.Ok? && Hit(old(progress[t]), s.value, hit).hardness == 0.0 && m.Err? ==>
          r == Err(m.error) && unchanged(world.tiles) && progress == old(progress)[t := Hit(old(progress[t]), s.value, hit)]
      ensures r == Ok(false) ==>
        var s := GetToolStrength(old(sprite.inventory.holding), sprite.armStrength);
        s.Ok? && Hit(old(progress[t]), s.value, hit).hardness > 0.0 && progress == old(progress)[t := Hit(old(progress[t]), s.value, hit)]
        && unchanged(world.tiles) && world.cells == old(world.cells)
      ensures r == Ok(true) ==> world.tiles[t.0, t.1] == world.air && t !in progress && world.cells == Removed(old(world.cells), t)
      ensures forall i, j :: 0 <= i < MAP_W && 0 <= j < MAP_H && (i, j) != t ==> world.tiles[i, j] == old(world.tiles[i, j])
    {
      var entry := progress[t];
      var s := GetToolStrength(sprite.inventory.holding, sprite.armStrength);
      if s.Err? {
        // the hit is counted before the tool's strength is looked up
        progress := progress[t := Progress(entry.hardness, entry.hits + hit)];
        return Err(s.error);
      }
      r := Strike(sprite, t, s.value, hit);
    }

    /** One hit of the given strength; a tile worn down to 0 is collected. */
    method Strike(sprite: Colonist, t: Coord, strength: int, hit: real) returns (r: Result<bool>)
      requires Valid() && sprite.Valid() && InMap(t) && t in progress
      requires sprite.inventory.holding.Some?
      modifies this, world, world.tiles, sprite.inventory
      ensures Valid() && sprite.Valid()
      ensures Hit(old(progress[t]), strength, hit).hardness > 0.0 ==>
        r == Ok(false) && unchanged(world.tiles) && world.cells == old(world.cells)
        && progress == old(progress)[t := Hit(old(progress[t]), strength, hit)]
        && sprite.inventory.amounts == old(sprite.inventory.amounts)
      ensures var m := GetTileMaterial(reg, old(world.tiles[t.0, t.1]));
        Hit(old(progress[t]), strength, hit).hardness == 0.0 && m.Ok? ==>
          r == Ok(true) && world.tiles[t.0, t.1] == world.air && progress == old(progress) - {t}
          && world.cells == Removed(old(world.cells), t)
          && sprite.inventory.amounts ==
             AddAmount(old(sprite.inventory.amounts), m.value, 1, old(sprite.inventory.lastIdxWithItem))
      ensures var m := GetTileMaterial(reg, old(world.tiles[t.0, t.1]));
        Hit(old(progress[t]), strength, hit).hardness == 0.0 && m.Err? ==>
          r == Err(m.error) && unchanged(world.tiles) && progress == old(progress)[t := Hit(old(progress[t]), strength, hit)]
      ensures r == Ok(false) ==>
        Hit(old(progress[t]), strength, hit).hardness > 0.0 && progress == old(progress)[t := Hit(old(progress[t]), strength, hit)]
        && unchanged(world.tiles) && world.cells == old(world.cells)
      ensures r == Ok(true) ==> world.tiles[t.0, t.1] == world.air && t !in progress && world.cells == Removed(old(world.cells), t)
      ensures forall i, j :: 0 <= i < MAP_W && 0 <= j < MAP_H && (i, j) != t ==> world.tiles[i, j] == old(world.tiles[i, j])
    {
      var q := Hit(progress[t], strength, hit);
      progress := progress[t := q];
      r := Ok(false);
      if q.hardness == 0.0 {
        var m := GetTileMaterial(reg, world.tiles[t.0, t.1]);
        if m.Err? {
          return Err(m.error);
        }
        Collect(sprite, t, m.value);
        r := Ok(true);
      }
    }

    /** The mined tile's material goes into the inventory, the tile becomes air and its entry goes. */
    method Collect(sprite: Colonist, t: Coord, item: string)
      requires Valid() && sprite.Valid() && InMap(t) && sprite.inventory.holding.Some?
      modifies this, world, world.tiles, sprite.inventory
      ensures Valid() && sprite.Valid()
      ensures world.tiles[t.0, t.1] == world.air && progress == old(progress) - {t}
      ensures world.cells == Removed(old(world.cells), t)
      ensures sprite.inventory.amounts ==
        AddAmount(old(sprite.inventory.amounts), item, 1, old(sprite.inventory.lastIdxWithItem))
      ensures forall i, j :: 0 <= i < MAP_W && 0 <= j < MAP_H && (i, j) != t ==> world.tiles[i, j] == old(world.tiles[i, j])
    {
      sprite.inventory.AddItem(item, 1);
      RemoveTile(t);
      progress := progress - {t};
    }

    /**
     * `tile_map[xy] = air` and then `update_map(xy, remove_tile=True)`: the
     * write breaks the index at one tile and the removal mends it.
     */
    method RemoveTile(t: Coord)
      requires world.Valid() && InMap(t)
      modifies world, world.tiles
      ensures world.Valid()
      ensures world.tiles[t.0, t.1] == world.air && world.cells == Removed(old(world.cells), t)
      ensures forall i, j :: 0 <= i < MAP_W && 0 <= j < MAP_H && (i, j) != t ==> world.tiles[i, j] == old(world.tiles[i, j])
    {
      world.ValidIsValidExcept(t);
      world.Write(t, world.air);
      ghost var m := world.cells;
      world.UpdateMap(t, false, true);
      world.RemoveResyncs(m, t);
    }

    /**
     * The same two lines as written, for a mouse tile above or left of the map:
     * numpy reads and writes the tile at the far edge (row `y + MAP_H`, column
     * `x + MAP_W`), while `update_map` looks for the negative coordinate's cell,
     * which the index never has. The far tile turns to air and keeps its
     * rectangle.
     */
    method RemoveTileAsWritten(t: Coord) returns (wrapped: Coord)
      requires world.Valid() && -MAP_W <= t.0 < MAP_W && -MAP_H <= t.1 < MAP_H && !InMap(t)
      requires world.tiles[NpIndex(t.0, MAP_W), NpIndex(t.1, MAP_H)] != world.air
      modifies world, world.tiles
      ensures wrapped == (if t.0 < 0 then t.0 + MAP_W else t.0, if t.1 < 0 then t.1 + MAP_H else t.1)
      ensures world.tiles[wrapped.0, wrapped.1] == world.air
      ensures world.cells == old(world.cells)
      ensures CellOf(wrapped) in world.cells && TileRect(wrapped) in world.cells[CellOf(wrapped)]
      ensures !world.Valid()
    {
      wrapped := (NpIndex(t.0, MAP_W), NpIndex(t.1, MAP_H));
      world.ValidIsValidExcept(wrapped);
      world.Write(wrapped, world.air);
      CellsCoverMap(t);
      world.UpdateMap(t, false, true);
      world.StaleRectBreaksIndex(wrapped);
    }

    /** `update`: the mine key held runs the miner; released, a mining sprite becomes idle. */
    method Update(sprite: Colonist, keyHeld: bool, t: Coord, hit: real) returns (r: Result<bool>)
      requires Valid() && sprite.Valid()
      modifies this, world, world.tiles, sprite, sprite.inventory
      ensures Valid() && sprite.Valid()
      ensures !keyHeld ==>
        r == Ok(false) && progress == old(progress) && unchanged(world.tiles) && world.cells == old(world.cells)
        && sprite.state == (if old(sprite.state) == State.Mining then Idle else old(sprite.state))
      ensures keyHeld && !HoldsPickaxe(old(sprite.inventory.holding)) ==>
        r == Ok(false) && progress == old(progress) && unchanged(world.tiles) && world.cells == old(world.cells)
        && sprite.state == old(sprite.state)
      ensures keyHeld && HoldsPickaxe(old(sprite.inventory.holding)) && !old(ValidTile(sprite.rect, t)) ==>
        r == Ok(false) && progress == old(progress) && unchanged(world.tiles) && world.cells == old(world.cells)
        && sprite.state == (if old(sprite.state) == State.Mining then Idle else old(sprite.state))
      ensures keyHeld && HoldsPickaxe(old(sprite.inventory.holding)) && old(ValidTile(sprite.rect, t)) ==>
        sprite.state == State.Mining && InMap(t) && Outcome(sprite, t, hit, r)
      ensures r == Ok(true) ==> keyHeld && InMap(t) && world.tiles[t.0, t.1] == world.air && t !in progress
      ensures forall i, j :: 0 <= i < MAP_W && 0 <= j < MAP_H && (i, j) != t ==> world.tiles[i, j] == old(world.tiles[i, j])
    {
      if keyHeld {
        r := Run(sprite, t, hit);
      } else {
        r := Ok(false);
        if sprite.state == State.Mining {
          sprite.state := Idle;
        }
      }
    }
  }
}
