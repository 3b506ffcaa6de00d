/**
 * Reading the tile grid as numpy does, and the blocks of tiles the game
 * walks column by column (x outer, y inner).
 */
module TileReads {
  import opened Wrappers
  import opened Settings
  import opened Rects
  import opened PyNum
  import opened Grids
  import opened Collision

  // ---- Blocks of tiles ----

  /** The tiles `(x, y)`, `(x, y + 1)`, ... of one column, `n` of them. */
  function Column(x: int, y: int, n: nat): seq<Coord>
  {
    if n == 0 then [] else Column(x, y, n - 1) + [(x, y + n - 1)]
  }

  /** `nx` columns of `ny` tiles from `xy`, column by column, as nested loops with x outermost append them. */
  function Block(xy: Coord, nx: nat, ny: nat): seq<Coord>
  {
    if nx == 0 then [] else Block(xy, nx - 1, ny) + Column(xy.0 + nx - 1, xy.1, ny)
  }

  /** Tile `(a, b)` comes before tile `(c, d)` column by column: x first, then y. */
  predicate XMajorBefore(p: Coord, q: Coord)
  {
    p.0 < q.0 || (p.0 == q.0 && p.1 < q.1)
  }

  lemma {:induction false} ColumnFacts(x: int, y: int, n: nat)
    ensures |Column(x, y, n)| == n
    ensures forall k :: 0 <= k < n ==> Column(x, y, n)[k] == (x, y + k)
  {
    if n > 0 {
      ColumnFacts(x, y, n - 1);
    }
  }

  lemma {:induction false} BlockLength(xy: Coord, nx: nat, ny: nat)
    ensures |Block(xy, nx, ny)| == nx * ny
  {
    if nx > 0 {
      BlockLength(xy, nx - 1, ny);
      ColumnFacts(xy.0 + nx - 1, xy.1, ny);
      assert (nx - 1) * ny + ny == nx * ny;
    }
  }

  /** `get_tiles_covered` lists exactly the tiles of the rectangle from `xy`. */
  lemma {:induction false} BlockHas(xy: Coord, nx: nat, ny: nat)
    ensures forall c: Coord :: c in Block(xy, nx, ny) <==> xy.0 <= c.0 < xy.0 + nx && xy.1 <= c.1 < xy.1 + ny
  {
    if nx > 0 {
      BlockHas(xy, nx - 1, ny);
      ColumnFacts(xy.0 + nx - 1, xy.1, ny);
      var a, col := Block(xy, nx - 1, ny), Column(xy.0 + nx - 1, xy.1, ny);
      forall c: Coord
        ensures c in a + col <==> xy.0 <= c.0 < xy.0 + nx && xy.1 <= c.1 < xy.1 + ny
      {
        if c.0 == xy.0 + nx - 1 && xy.1 <= c.1 < xy.1 + ny {
          assert col[c.1 - xy.1] == c;
        }
      }
    }
  }

  /** ... column by column in strictly increasing order, so no tile twice, starting with `xy`. */
  lemma {:induction false} BlockOrdered(xy: Coord, nx: nat, ny: nat)
    ensures forall i, j :: 0 <= i < j < |Block(xy, nx, ny)| ==> XMajorBefore(Block(xy, nx, ny)[i], Block(xy, nx, ny)[j])
    ensures nx > 0 && ny > 0 ==> Block(xy, nx, ny)[0] == xy
  {
    if nx > 0 {
      BlockOrdered(xy, nx - 1, ny);
      BlockHas(xy, nx - 1, ny);
      ColumnFacts(xy.0 + nx - 1, xy.1, ny);
      var a, col := Block(xy, nx - 1, ny), Column(xy.0 + nx - 1, xy.1, ny);
      var s := a + col;
      forall i, j | 0 <= i < j < |s|
        ensures XMajorBefore(s[i], s[j])
      {
        if j >= |a| {
          assert s[j] == col[j - |a|];
          if i < |a| {
            assert s[i] == a[i] && s[i] in a;
          } else {
            assert s[i] == col[i - |a|];
          }
        }
      }
      if nx - 1 == 0 && ny > 0 {
        BlockLength(xy, 0, ny);
        assert s[0] == col[0];
      }
    }
  }

  /** A block never repeats a tile. */
  lemma BlockNoDup(xy: Coord, nx: nat, ny: nat)
    ensures NoDup(Block(xy, nx, ny))
  {
    BlockOrdered(xy, nx, ny);
  }

  /** `range(ceil(n / TILE_SIZE))`'s length: the tiles a side of `n` pixels spans. */
  function TilesSpanned(n: int): nat
  {
    if n <= 0 then 0 else CeilDiv(n, TILE_SIZE)
  }

  // ---- Reading the grid ----

  /** `tile_map[x, y]` with numpy's indexing: a negative index counts from the end, one past either end is an IndexError. */
  function Read(tiles: array2<int>, c: Coord): (r: Result<int>)
    reads tiles
    requires IsMap(tiles)
    ensures r.Err? <==> !(-MAP_W <= c.0 < MAP_W && -MAP_H <= c.1 < MAP_H)
    ensures r.Err? ==> r.error == IndexError
    ensures InMap(c) ==> r == Ok(tiles[c.0, c.1])
  {
    if -MAP_W <= c.0 < MAP_W && -MAP_H <= c.1 < MAP_H then Ok(tiles[NpIndex(c.0, MAP_W), NpIndex(c.1, MAP_H)])
    else Err(IndexError)
  }

  /** `any(tile_map[xy] in ids for xy in cs)`: stops at the first hit, raising at a read that goes off the grid before it. */
  function AnyIn(tiles: array2<int>, cs: seq<Coord>, ids: set<int>): (r: Result<bool>)
    reads tiles
    requires IsMap(tiles)
    ensures (forall k :: 0 <= k < |cs| ==> InMap(cs[k])) ==>
      r == Ok(exists k :: 0 <= k < |cs| && tiles[cs[k].0, cs[k].1] in ids)
    ensures r.Err? ==> exists k :: 0 <= k < |cs| && Read(tiles, cs[k]).Err?
  {
    if cs == [] then Ok(false)
    else
      match Read(tiles, cs[0])
      case Err(e) => Err(e)
      case Ok(v) =>
        if v in ids then Ok(true)
        else
          assert forall k :: 1 <= k < |cs| ==> cs[1..][k - 1] == cs[k];
          AnyIn(tiles, cs[1..], ids)
  }

  /** `all(tile_map[xy] in ids for xy in cs)`: stops at the first miss, raising at a read that goes off the grid before it. */
  function AllIn(tiles: array2<int>, cs: seq<Coord>, ids: set<int>): (r: Result<bool>)
    reads tiles
    requires IsMap(tiles)
    ensures (forall k :: 0 <= k < |cs| ==> InMap(cs[k])) ==>
      r == Ok(forall k :: 0 <= k < |cs| ==> tiles[cs[k].0, cs[k].1] in ids)
    ensures r.Err? ==> exists k :: 0 <= k < |cs| && Read(tiles, cs[k]).Err?
  {
    if cs == [] then Ok(true)
    else
      match Read(tiles, cs[0])
      case Err(e) => Err(e)
      case Ok(v) =>
        if v !in ids then Ok(false)
        else
          assert forall k :: 1 <= k < |cs| ==> cs[1..][k - 1] == cs[k];
          AllIn(tiles, cs[1..], ids)
  }
}
