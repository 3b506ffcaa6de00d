/**
 * The collision index: a dictionary from a cell of `CELL_SIZE x CELL_SIZE`
 * tiles to the rectangles of the solid tiles in it, kept beside the tile grid
 * so that a sprite only tests the tiles of the cells it overlaps.
 */
module Collision {
  import opened Settings
  import opened Grids
  import opened Rects

  /** The cell of the index a tile belongs to. */
  function CellOf(t: Coord): Coord
  {
    (t.0 / CELL_SIZE, t.1 / CELL_SIZE)
  }

  /** The cells that cover the map. */
  predicate CellInMap(c: Coord)
  {
    0 <= c.0 < MAP_W / CELL_SIZE && 0 <= c.1 < MAP_H / CELL_SIZE
  }

  /** The map's size is a whole number of cells, so a tile is on the map exactly when its cell is. */
  lemma CellsCoverMap(t: Coord)
    ensures InMap(t) <==> CellInMap(CellOf(t))
  {
  }

  /** A bucket, or the empty list for a missing key, as `defaultdict(list)` reads it. */
  function Bucket(cells: map<Coord, seq<Rect>>, c: Coord): seq<Rect>
  {
    if c in cells then cells[c] else []
  }

  predicate NoDup<T(==)>(s: seq<T>)
  {
    forall i, j :: 0 <= i < j < |s| ==> s[i] != s[j]
  }

  /** `list.remove`: the list without the first occurrence of `r`. */
  function RemoveFirst<T(==)>(s: seq<T>, r: T): (t: seq<T>)
    requires r in s
    ensures |t| == |s| - 1
  {
    if s[0] == r then s[1..] else [s[0]] + RemoveFirst(s[1..], r)
  }

  /**
   * Removing keeps only values of the list, and from a list without repeats
   * it takes exactly `r` and leaves no repeats.
   */
  lemma {:induction false} RemoveFirstKeeps<T>(s: seq<T>, r: T)
    requires r in s
    ensures forall u :: u in RemoveFirst(s, r) ==> u in s
    ensures NoDup(s) ==>
      NoDup(RemoveFirst(s, r)) && r !in RemoveFirst(s, r) && forall u :: u in s && u != r ==> u in RemoveFirst(s, r)
  {
    if s[0] != r {
      var rest := RemoveFirst(s[1..], r);
      var t := [s[0]] + rest;
      RemoveFirstKeeps(s[1..], r);
      assert forall u :: u in s && u != r && u != s[0] ==> u in s[1..];
      assert NoDup(s) ==> s[0] !in s[1..];
      assert NoDup(s) ==> NoDup(s[1..]) by {
        assert forall i :: 0 <= i < |s[1..]| ==> s[1..][i] == s[i + 1];
      }
      assert forall i :: 1 <= i < |t| ==> t[i] == rest[i - 1];
    } else {
      assert NoDup(s) ==> s[0] !in s[1..];
    }
  }

  /** The cells of the rows `ylo..yhi-1` of column `cx`, each bucket in turn. */
  function GatherColumn(cells: map<Coord, seq<Rect>>, cx: int, ylo: int, yhi: int): seq<Rect>
    decreases yhi - ylo
  {
    if yhi <= ylo then [] else GatherColumn(cells, cx, ylo, yhi - 1) + Bucket(cells, (cx, yhi - 1))
  }

  /** The buckets of the cell range `[xlo, xhi) x [ylo, yhi)`, column by column, in the order `search_map` visits them. */
  function Gather(cells: map<Coord, seq<Rect>>, xlo: int, xhi: int, ylo: int, yhi: int): seq<Rect>
    decreases xhi - xlo
  {
    if xhi <= xlo then [] else Gather(cells, xlo, xhi - 1, ylo, yhi) + GatherColumn(cells, xhi - 1, ylo, yhi)
  }

  /** A rectangle is gathered from a column exactly when some bucket of the column's rows holds it. */
  lemma {:induction false} GatherColumnHas(cells: map<Coord, seq<Rect>>, cx: int, ylo: int, yhi: int, r: Rect)
    ensures r in GatherColumn(cells, cx, ylo, yhi) <==> exists cy :: ylo <= cy < yhi && r in Bucket(cells, (cx, cy))
    decreases yhi - ylo
  {
    if yhi > ylo {
      GatherColumnHas(cells, cx, ylo, yhi - 1, r);
      if r in Bucket(cells, (cx, yhi - 1)) {
        assert ylo <= yhi - 1 < yhi;
      }
    }
  }

  /** A rectangle is gathered exactly when some bucket of the cell range holds it. */
  lemma {:induction false} GatherHas(cells: map<Coord, seq<Rect>>, xlo: int, xhi: int, ylo: int, yhi: int, r: Rect)
    ensures r in Gather(cells, xlo, xhi, ylo, yhi) <==>
      exists c: Coord :: xlo <= c.0 < xhi && ylo <= c.1 < yhi && r in Bucket(cells, c)
    decreases xhi - xlo
  {
    if xhi > xlo {
      GatherHas(cells, xlo, xhi - 1, ylo, yhi, r);
      GatherColumnHas(cells, xhi - 1, ylo, yhi, r);
      if r in GatherColumn(cells, xhi - 1, ylo, yhi) {
        var cy :| ylo <= cy < yhi && r in Bucket(cells, (xhi - 1, cy));
        assert r in Bucket(cells, (xhi - 1, cy));
      }
      if c: Coord :| xlo <= c.0 < xhi && ylo <= c.1 < yhi && r in Bucket(cells, c) {
        if c.0 == xhi - 1 {
          assert r in Bucket(cells, (xhi - 1, c.1));
        }
      }
    }
  }

  class CollisionMap {
    /** The tile grid, shared with the generator, the miner and the placer. */
    const tiles: array2<int>
    /** `names_to_ids['air']`. */
    const air: int
    /** `CollisionMap.map`: cell coordinate to the rectangles of its solid tiles. */
    var cells: map<Coord, seq<Rect>>

    /** The index never has a key outside the map's cells; this holds even while a tile write waits for its resync. */
    predicate KeysInMap()
      reads this
    {
      forall c :: c in cells ==> CellInMap(c)
    }

    /** A rectangle stored under cell `c` belongs there: it is the rectangle of a solid tile of that cell. */
    predicate Indexed(c: Coord, r: Rect)
      reads tiles
      requires IsMap(tiles)
    {
      var t := TileOf(r);
      InMap(t) && r == TileRect(t) && CellOf(t) == c && tiles[t.0, t.1] != air
    }

    /**
     * The index agrees with the grid: every tile that is not air (water
     * included) has its rectangle, once, in its cell's bucket, and every
     * stored rectangle is such a tile's.
     */
    predicate Valid()
      reads this, tiles
    {
      IsMap(tiles) && ValidFor(cells)
    }

    /** `Valid` for a given dictionary `m` in place of `cells`. */
    predicate ValidFor(m: map<Coord, seq<Rect>>)
      reads tiles
    {
      IsMap(tiles)
      && (forall c :: c in m ==> CellInMap(c))
      && (forall c, r :: c in m && r in m[c] ==> Indexed(c, r))
      && (forall c :: c in m ==> NoDup(m[c]))
      && (forall i, j :: 0 <= i < MAP_W && 0 <= j < MAP_H && tiles[i, j] != air ==>
            CellOf((i, j)) in m && TileRect((i, j)) in m[CellOf((i, j))])
    }

    /**
     * The index agrees with the grid everywhere but at the tile `t`: the state
     * between a write to `t` and the `update_map` call that follows it. The
     * rectangle of `t` may or may not be in its own cell's bucket.
     */
    predicate ValidExcept(m: map<Coord, seq<Rect>>, t: Coord)
      reads tiles
    {
      IsMap(tiles)
      && (forall c :: c in m ==> CellInMap(c) && NoDup(m[c]))
      && (forall c, r :: c in m && r in m[c] ==> Indexed(c, r) || (r == TileRect(t) && c == CellOf(t)))
      && (forall i, j :: 0 <= i < MAP_W && 0 <= j < MAP_H && (i, j) != t && tiles[i, j] != air ==>
            CellOf((i, j)) in m && TileRect((i, j)) in m[CellOf((i, j))])
    }

    lemma ValidIsValidExcept(t: Coord)
      requires Valid()
      ensures ValidExcept(cells, t)
    {
    }

    /**
     * A tile write of the miner or the placer (`tile_map[xy] = id`): only the
     * tile `t` changes, so the index still agrees with the grid everywhere else.
     */
    method Write(t: Coord, v: int)
      requires IsMap(tiles) && InMap(t) && ValidExcept(cells, t)
      modifies tiles
      ensures tiles[t.0, t.1] == v
      ensures forall i, j :: 0 <= i < MAP_W && 0 <= j < MAP_H && (i, j) != t ==> tiles[i, j] == old(tiles[i, j])
      ensures ValidExcept(cells, t)
    {
      tiles[t.0, t.1] := v;
      forall c, r | c in cells && r in cells[c] && r != TileRect(t)
        ensures Indexed(c, r)
      {
        assert old(Indexed(c, r));
        TileRectInjective(TileOf(r), t);
      }
    }

    /**
     * After air is written at `t`, removing its rectangle from its own cell's
     * bucket (`update_map(remove_tile=True)`) makes the index agree with the
     * grid again.
     */
    lemma RemoveResyncs(m: map<Coord, seq<Rect>>, t: Coord)
      requires ValidExcept(m, t) && InMap(t) && tiles[t.0, t.1] == air
      ensures ValidFor(Removed(m, t))
    {
      var c, rect := CellOf(t), TileRect(t);
      var m' := Removed(m, t);
      if c in m && rect in m[c] {
        RemoveFirstKeeps(m[c], rect);
      }
      forall d, r | d in m' && r in m'[d]
        ensures Indexed(d, r)
      {
        assert r in m[d];
        if d == c && rect in Bucket(m, c) {
          assert r != rect;
        }
      }
    }

    /**
     * After a solid id is written at `t`, appending its rectangle to its own
     * cell's bucket when absent (`update_map(add_tile=True)`) makes the index
     * agree with the grid again, provided that bucket's key exists.
     */
    lemma AddResyncs(m: map<Coord, seq<Rect>>, t: Coord)
      requires ValidExcept(m, t) && InMap(t) && tiles[t.0, t.1] != air && CellOf(t) in m
      ensures ValidFor(Added(m, t))
    {
      var c, rect := CellOf(t), TileRect(t);
      TileRectInjective(t, t);
      var m' := Added(m, t);
      assert forall r :: r in m'[c] ==> r in m[c] || r == rect;
      assert NoDup(m'[c]);
    }

    /**
     * The add the index needs once a tile's cell may be missing: appending to
     * `defaultdict(list)` without testing for the key first creates the
     * bucket, so the written tile is always indexed.
     */
    method AddTile(t: Coord)
      requires IsMap(tiles) && InMap(t) && tiles[t.0, t.1] != air && ValidExcept(cells, t)
      modifies this`cells
      ensures cells == AddedCreating(old(cells), t)
      ensures Valid()
    {
      var c, rect := CellOf(t), TileRect(t);
      CellsCoverMap(t);
      TileRectInjective(t, t);
      var b := Bucket(cells, c);
      if rect !in b {
        cells := cells[c := b + [rect]];
        assert forall r :: r in cells[c] ==> r in b || r == rect;
      }
    }

    /** A solid tile whose cell has no bucket is missing from the index. */
    lemma MissingCellBreaksIndex(m: map<Coord, seq<Rect>>, t: Coord)
      requires IsMap(tiles) && InMap(t) && tiles[t.0, t.1] != air && CellOf(t) !in m
      ensures !ValidFor(m)
    {
      assert 0 <= t.0 < MAP_W && 0 <= t.1 < MAP_H && tiles[t.0, t.1] != air;
    }

    /** An air tile whose rectangle is still indexed breaks the agreement. */
    lemma StaleRectBreaksIndex(u: Coord)
      requires IsMap(tiles) && InMap(u) && tiles[u.0, u.1] == air
      requires CellOf(u) in cells && TileRect(u) in cells[CellOf(u)]
      ensures !Valid()
    {
      TileRectInjective(u, u);
    }

    /** `CollisionMap.__init__`: an empty dictionary filled by `generate_map`. */
    constructor (tiles: array2<int>, air: int)
      requires IsMap(tiles)
      ensures this.tiles == tiles && this.air == air
      ensures Valid()
      ensures forall c :: c in cells ==> |cells[c]| > 0
    {
      this.tiles := tiles;
      this.air := air;
      cells := map[];
      new;
      GenerateMap();
    }

    /**
     * `generate_map`: the rectangle of every tile that is not air, added to
     * its cell's bucket column by column; a key exists only for a cell that
     * received a rectangle.
     */
    method GenerateMap()
      requires IsMap(tiles) && cells == map[]
      modifies this`cells
      ensures Valid()
      ensures forall c :: c in cells ==> |cells[c]| > 0
    {
      var x := 0;
      while x < MAP_W
        invariant 0 <= x <= MAP_W && Scanned(x, 0)
      {
        IndexColumn(x);
        x := x + 1;
      }
    }

    /** The index holds, once each and in order, the solid tiles before `(x, y)` in column-major order. */
    ghost predicate Scanned(x: int, y: int)
      reads this, tiles
      requires IsMap(tiles)
    {
      KeysInMap() && (forall c :: c in cells ==> NoDup(cells[c]) && |cells[c]| > 0)
      && (forall c, r :: c in cells && r in cells[c] ==>
            Indexed(c, r) && (TileOf(r).0 < x || (TileOf(r).0 == x && TileOf(r).1 < y)))
      && (forall i, j :: 0 <= i < MAP_W && 0 <= j < MAP_H && (i < x || (i == x && j < y)) && tiles[i, j] != air ==>
            CellOf((i, j)) in cells && TileRect((i, j)) in cells[CellOf((i, j))])
    }

    /** The inner loop of `generate_map`: the solid tiles of column `x`, top to bottom. */
    method IndexColumn(x: int)
      requires IsMap(tiles) && 0 <= x < MAP_W && Scanned(x, 0)
      modifies this`cells
      ensures Scanned(x + 1, 0)
    {
      var y := 0;
      while y < MAP_H
        invariant 0 <= y <= MAP_H && Scanned(x, y)
      {
        if tiles[x, y] != air {
          AddNew((x, y));
        }
        y := y + 1;
      }
      forall c, r | c in cells && r in cells[c]
        ensures TileOf(r).0 < x + 1
      {
        assert Indexed(c, r);
      }
    }

    /** One step of `generate_map`: appends the rectangle of the tile `t`, which no bucket holds yet. */
    method AddNew(t: Coord)
      requires IsMap(tiles) && InMap(t) && tiles[t.0, t.1] != air
      requires KeysInMap() && forall c :: c in cells ==> NoDup(cells[c]) && |cells[c]| > 0
      requires forall c, r :: c in cells && r in cells[c] ==>
        Indexed(c, r) && (TileOf(r).0 < t.0 || (TileOf(r).0 == t.0 && TileOf(r).1 < t.1))
      modifies this`cells
      ensures cells == old(cells)[CellOf(t) := Bucket(old(cells), CellOf(t)) + [TileRect(t)]]
      ensures KeysInMap() && forall c :: c in cells ==> NoDup(cells[c]) && |cells[c]| > 0
      ensures forall c, r :: c in cells && r in cells[c] ==>
        Indexed(c, r) && (TileOf(r).0 < t.0 || (TileOf(r).0 == t.0 && TileOf(r).1 <= t.1))
    {
      var c := CellOf(t);
      var rect := TileRect(t);
      TileRectInjective(t, t);
      CellsCoverMap(t);
      var b := Bucket(cells, c);
      assert rect !in b;
      cells := cells[c := b + [rect]];
      assert forall r :: r in cells[c] ==> r in b || r == rect;
    }

    /**
     * `search_map`: the buckets of every existing cell from the cell of the
     * rectangle's top-left tile to that of its bottom-right tile, column by
     * column; no key is created.
     */
    method SearchMap(rect: Rect) returns (rects: seq<Rect>)
      ensures rects == Gather(cells, MinCellX(rect), MaxCellX(rect) + 1, MinCellY(rect), MaxCellY(rect) + 1)
    {
      rects := [];
      var minX, maxX := MinCellX(rect), MaxCellX(rect);
      var minY, maxY := MinCellY(rect), MaxCellY(rect);
      var cx := minX;
      while cx < maxX + 1
        invariant minX <= cx && (cx == minX || cx <= maxX + 1)
        invariant rects == Gather(cells, minX, cx, minY, maxY + 1)
      {
        var cy := minY;
        var column := [];
        while cy < maxY + 1
          invariant minY <= cy && (cy == minY || cy <= maxY + 1)
          invariant column == GatherColumn(cells, cx, minY, cy)
        {
          if (cx, cy) in cells {
            column := column + cells[(cx, cy)];
          }
          cy := cy + 1;
        }
        assert column == GatherColumn(cells, cx, minY, maxY + 1);
        rects := rects + column;
        cx := cx + 1;
      }
    }

    /** Every rectangle a search gathers from an agreeing index is the rectangle of a solid tile on the map. */
    lemma GatheredAreTiles(xlo: int, xhi: int, ylo: int, yhi: int)
      requires Valid()
      ensures forall r :: r in Gather(cells, xlo, xhi, ylo, yhi) ==>
        InMap(TileOf(r)) && r == TileRect(TileOf(r)) && tiles[TileOf(r).0, TileOf(r).1] != air
    {
      forall r | r in Gather(cells, xlo, xhi, ylo, yhi)
        ensures InMap(TileOf(r)) && r == TileRect(TileOf(r)) && tiles[TileOf(r).0, TileOf(r).1] != air
      {
        GatherHas(cells, xlo, xhi, ylo, yhi, r);
        var c: Coord :| xlo <= c.0 < xhi && ylo <= c.1 < yhi && r in Bucket(cells, c);
        assert c in cells && Indexed(c, r);
      }
    }

    /**
     * `update_map`: only an existing cell changes. Adding appends the tile's
     * rectangle when it is absent; otherwise removing deletes it when it is
     * present and the grid already holds air there. No other bucket changes.
     */
    method UpdateMap(t: Coord, add: bool, remove: bool)
      requires IsMap(tiles) && KeysInMap()
      modifies this`cells
      ensures KeysInMap()
      ensures var c, rect := CellOf(t), TileRect(t);
        cells == if c !in old(cells) then old(cells)
          else if add && rect !in old(cells)[c] then old(cells)[c := old(cells)[c] + [rect]]
          else if remove && rect in old(cells)[c] && tiles[t.0, t.1] == air
          then old(cells)[c := RemoveFirst(old(cells)[c], rect)]
          else old(cells)
    {
      var c := CellOf(t);
      var rect := TileRect(t);
      if c in cells {
        if add && rect !in cells[c] {
          cells := cells[c := cells[c] + [rect]];
        } else if remove && rect in cells[c] {
          CellsCoverMap(t);
          if tiles[t.0, t.1] == air {
            cells := cells[c := RemoveFirst(cells[c], rect)];
          }
        }
      }
    }
  }

  /** The bucket change of `update_map(add_tile=True)` at `t`, when the key exists. */
  function Added(m: map<Coord, seq<Rect>>, t: Coord): map<Coord, seq<Rect>>
  {
    var c, rect := CellOf(t), TileRect(t);
    if c in m && rect !in m[c] then m[c := m[c] + [rect]] else m
  }

  /** The bucket change of appending `t`'s rectangle when absent, creating the bucket when the key is missing. */
  function AddedCreating(m: map<Coord, seq<Rect>>, t: Coord): map<Coord, seq<Rect>>
  {
    var c, rect := CellOf(t), TileRect(t);
    if rect in Bucket(m, c) then m else m[c := Bucket(m, c) + [rect]]
  }

  /** With the key present the creating add is the index's own add. */
  lemma AddedCreatingAgrees(m: map<Coord, seq<Rect>>, t: Coord)
    requires CellOf(t) in m
    ensures AddedCreating(m, t) == Added(m, t)
  {
  }

  /** The bucket change of `update_map(remove_tile=True)` at a tile that already holds air. */
  function Removed(m: map<Coord, seq<Rect>>, t: Coord): map<Coord, seq<Rect>>
  {
    var c, rect := CellOf(t), TileRect(t);
    if c in m && rect in m[c] then m[c := RemoveFirst(m[c], rect)] else m
  }

  /** The cell columns and rows `search_map` covers: from the rectangle's left and top tiles to its right and bottom ones. */
  function MinCellX(r: Rect): int { (r.Left() / TILE_SIZE) / CELL_SIZE }
  function MaxCellX(r: Rect): int { (r.Right() / TILE_SIZE) / CELL_SIZE }
  function MinCellY(r: Rect): int { (r.Top() / TILE_SIZE) / CELL_SIZE }
  function MaxCellY(r: Rect): int { (r.Bottom() / TILE_SIZE) / CELL_SIZE }
}
