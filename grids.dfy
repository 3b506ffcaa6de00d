/**
 * The numpy grid writes of world generation, on `MAP_W x MAP_H` arrays
 * indexed `[x, y]` with `y` growing downward.
 */
module Grids {
  import opened Settings

  /** The grid has the map's shape. */
  predicate IsMap<T>(g: array2<T>)
  {
    g.Length0 == MAP_W && g.Length1 == MAP_H
  }

  predicate SurfaceOk(surf: seq<int>)
  {
    |surf| == MAP_W && forall x :: 0 <= x < MAP_W ==> 0 <= surf[x] < MAP_H
  }

  /** A value grid of the map's shape, column by column. */
  predicate GridShape(base: seq<seq<int>>)
  {
    |base| == MAP_W && forall i :: 0 <= i < MAP_W ==> |base[i]| == MAP_H
  }

  /** The grid's cells, column by column. */
  function Snapshot(tiles: array2<int>): (base: seq<seq<int>>)
    reads tiles
    requires IsMap(tiles)
    ensures GridShape(base)
    ensures forall i, j :: 0 <= i < MAP_W && 0 <= j < MAP_H ==> base[i][j] == tiles[i, j]
  {
    seq(MAP_W, i requires 0 <= i < MAP_W reads tiles => seq(MAP_H, j requires 0 <= j < MAP_H reads tiles => tiles[i, j]))
  }

  /**
   * numpy's `tile_map[xs, surface[xs]] = values`: the surface row of every
   * column selected by `mask` gets that column's entry of `values`.
   */
  method WriteOnSurface(tiles: array2<int>, surf: seq<int>, mask: seq<bool>, values: seq<int>)
    requires IsMap(tiles) && SurfaceOk(surf) && |mask| == MAP_W && |values| == MAP_W
    modifies tiles
    ensures forall x, y :: 0 <= x < MAP_W && 0 <= y < MAP_H ==>
      tiles[x, y] == if y == surf[x] && mask[x] then values[x] else old(tiles[x, y])
  {
    var x := 0;
    while x < MAP_W
      invariant 0 <= x <= MAP_W
      invariant forall i, j :: 0 <= i < MAP_W && 0 <= j < MAP_H ==>
        tiles[i, j] == if i < x && j == surf[i] && mask[i] then values[i] else old(tiles[i, j])
    {
      if mask[x] {
        tiles[x, surf[x]] := values[x];
      }
      x := x + 1;
    }
  }

  /** `grid[x, lo:hi] = value`; the slice is cut off at the bottom of the map, as numpy does. */
  method AssignColumnSlice<T>(grid: array2<T>, x: int, lo: int, hi: int, value: T)
    requires IsMap(grid) && 0 <= x < MAP_W && 0 <= lo
    modifies grid
    ensures forall i, j :: 0 <= i < MAP_W && 0 <= j < MAP_H ==>
      grid[i, j] == if i == x && lo <= j < hi then value else old(grid[i, j])
  {
    var y := lo;
    while y < hi && y < MAP_H
      invariant lo <= y && (y == lo || y <= hi)
      invariant forall i, j :: 0 <= i < MAP_W && 0 <= j < MAP_H ==>
        grid[i, j] == if i == x && lo <= j < y then value else old(grid[i, j])
    {
      grid[x, y] := value;
      y := y + 1;
    }
  }

  /** `grid[mask] = value`: every cell set in the mask gets the value. */
  method WriteMask(grid: array2<int>, mask: array2<bool>, value: int)
    requires IsMap(grid) && IsMap(mask)
    modifies grid
    ensures forall i, j :: 0 <= i < MAP_W && 0 <= j < MAP_H ==>
      grid[i, j] == if mask[i, j] then value else old(grid[i, j])
  {
    var x := 0;
    while x < MAP_W
      invariant 0 <= x <= MAP_W
      invariant forall i, j :: 0 <= i < MAP_W && 0 <= j < MAP_H ==>
        grid[i, j] == if i < x && mask[i, j] then value else old(grid[i, j])
    {
      var y := 0;
      while y < MAP_H
        invariant 0 <= y <= MAP_H
        invariant forall i, j :: 0 <= i < MAP_W && 0 <= j < MAP_H ==>
          grid[i, j] == if (i < x || (i == x && j < y)) && mask[i, j] then value else old(grid[i, j])
      {
        if mask[x, y] {
          grid[x, y] := value;
        }
        y := y + 1;
      }
      x := x + 1;
    }
  }
}
