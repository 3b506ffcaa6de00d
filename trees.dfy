/**
 * Tree placement: a scan over the columns of the tree biomes that plants a
 * tree on a valid surface tile when no tree stands within two columns on the
 * same row and the column's roll comes in under a chance that grows with the
 * number of trees already standing to the left.
 */
module Trees {
  import opened Settings
  import opened PyNum
  import opened TileRegistry
  import opened Grids
  import opened Terrain

  /** How many of the `n` tiles beside `(x, y)` on the side `dir` (-1 left, +1 right) hold a tree. */
  function CountSide(trees: set<Coord>, x: int, y: int, n: nat, dir: int): (c: nat)
    ensures c <= n
  {
    if n == 0 then 0
    else CountSide(trees, x, y, n - 1, dir) + (if (x + dir * n, y) in trees then 1 else 0)
  }

  /** `get_tree_neighbors`: the trees within `n` columns on the chosen sides, on the same row. */
  function TreeNeighbors(trees: set<Coord>, x: int, y: int, n: nat, left: bool, right: bool): nat
  {
    (if left then CountSide(trees, x, y, n, -1) else 0) + (if right then CountSide(trees, x, y, n, 1) else 0)
  }

  /** `get_tree_prob`: the biome's base chance plus a tenth of it for each tree among the ten tiles to the left. */
  function TreeProbAt(b: Biome, trees: set<Coord>, x: int, y: int): (p: int)
    requires b in TREE_BIOMES
    ensures TreeProb(b).value <= p <= TreeProb(b).value + (TreeProb(b).value / 10) * 10
  {
    var base := TreeProb(b).value;
    var n := TreeNeighbors(trees, x, y, 10, true, false);
    assert (base / 10) * n <= (base / 10) * 10 by { MulMono(base / 10, n, 10); }
    base + (base / 10) * n
  }

  lemma MulMono(a: nat, m: nat, n: nat)
    requires m <= n
    ensures a * m <= a * n
  {
  }

  /** No tree on the side means a zero count, and back. */
  lemma {:induction false} CountSideZero(trees: set<Coord>, x: int, y: int, n: nat, dir: int)
    ensures CountSide(trees, x, y, n, dir) == 0 <==> forall d :: 1 <= d <= n ==> (x + dir * d, y) !in trees
  {
    if n > 0 {
      CountSideZero(trees, x, y, n - 1, dir);
    }
  }

  /** More trees never mean fewer neighbours. */
  lemma {:induction false} CountSideMonotone(t1: set<Coord>, t2: set<Coord>, x: int, y: int, n: nat, dir: int)
    requires t1 <= t2
    ensures CountSide(t1, x, y, n, dir) <= CountSide(t2, x, y, n, dir)
  {
    if n > 0 {
      CountSideMonotone(t1, t2, x, y, n - 1, dir);
    }
  }

  /** A tree at column `x` or further right does not change the count to the left of `x`. */
  lemma {:induction false} CountLeftIgnoresRight(trees: set<Coord>, p: Coord, x: int, y: int, n: nat)
    requires p.0 >= x
    ensures CountSide(trees + {p}, x, y, n, -1) == CountSide(trees, x, y, n, -1)
  {
    if n > 0 {
      CountLeftIgnoresRight(trees, p, x, y, n - 1);
    }
  }

  /** The tree chance is non-decreasing in the set of trees, hence in the neighbour count. */
  lemma TreeProbMonotone(b: Biome, t1: set<Coord>, t2: set<Coord>, x: int, y: int)
    requires b in TREE_BIOMES && t1 <= t2
    ensures TreeProbAt(b, t1, x, y) <= TreeProbAt(b, t2, x, y)
  {
    CountSideMonotone(t1, t2, x, y, 10, -1);
    MulMono(TreeProb(b).value / 10, CountSide(t1, x, y, 10, -1), CountSide(t2, x, y, 10, -1));
  }

  /** The columns of the tree biomes, in scan order, and the surface row of each. */
  predicate TreeSite(surf: seq<int>, t: Coord)
    requires SurfaceOk(surf)
  {
    0 <= t.0 < MAP_W && ColumnBiome(t.0) in TREE_BIOMES && t.1 == surf[t.0]
  }

  /** The biomes with 'tree probs', in biome order. */
  const TREE_BIOME_ORDER: seq<Biome> := [Forest, Taiga]

  /** The six tiles `valid_spawn_point` reads for a tree at `t`: its row and the row above, one column either side. */
  predicate InFootprint(t: Coord, x: int, y: int)
    requires 0 <= t.0 < MAP_W - 1 && 0 <= t.1 < MAP_H
  {
    (x == NpIndex(t.0 - 1, MAP_W) || x == t.0 || x == t.0 + 1) && (y == t.1 || y == NpIndex(t.1 - 1, MAP_H))
  }

  /** Nothing planted on the surface of column `x` lies in the footprint of a tree further left on another row. */
  lemma NoClash(tiles: array2<int>, reg: Registry, trees: set<Coord>, t: Coord, x: int, y: int)
    requires IsMap(tiles) && Complete(reg) && 0 <= t.0 < x < MAP_W - 1 && 0 <= t.1 < MAP_H && 0 <= y < MAP_H
    requires t in trees && (x - 1, y) !in trees
    requires ValidSpawnPoint(tiles, reg, t.0, t.1) && ValidSpawnPoint(tiles, reg, x, y)
    ensures !InFootprint(t, x, y)
  {
    if t.0 == x - 1 {
      assert y != t.1;
      assert tiles[x - 1, y] != Id(reg, "air");
    }
  }

  /** Every tree stands on the surface of a tree-biome column left of `x`. */
  predicate Sites(trees: set<Coord>, surf: seq<int>, x: int)
    requires SurfaceOk(surf)
  {
    forall t :: t in trees ==> TreeSite(surf, t) && t.0 < x && t.0 < MAP_W - 1
  }

  /** Every tree stands on a valid spawn point of the grid. */
  predicate Spawns(trees: set<Coord>, tiles: array2<int>, reg: Registry)
    reads tiles
    requires IsMap(tiles) && Complete(reg)
  {
    forall t :: t in trees ==> 0 <= t.0 < MAP_W - 1 && 0 <= t.1 < MAP_H && ValidSpawnPoint(tiles, reg, t.0, t.1)
  }

  /** Two trees on one row are more than two columns apart. */
  predicate Spacing(trees: set<Coord>)
  {
    forall t, u :: t in trees && u in trees && t.1 == u.1 && t != u ==> Abs(t.0 - u.0) > 2
  }

  /** Each tree's roll is within the chance given by the trees to its left. */
  predicate Rolls(trees: set<Coord>, rolls: int -> int)
  {
    forall t :: t in trees ==>
      0 <= t.0 < MAP_W && ColumnBiome(t.0) in TREE_BIOMES && rolls(t.0) <= TreeProbAt(ColumnBiome(t.0), trees, t.0, t.1)
  }

  /** Planting at `(x, y)` with no tree within two columns on its row keeps the spacing. */
  lemma PlantSpaced(trees: set<Coord>, x: int, y: int)
    requires Spacing(trees) && TreeNeighbors(trees, x, y, 2, true, true) == 0
    ensures Spacing(trees + {(x, y)})
  {
    CountSideZero(trees, x, y, 2, -1);
    CountSideZero(trees, x, y, 2, 1);
    assert (x - 1, y) !in trees && (x - 2, y) !in trees && (x + 1, y) !in trees && (x + 2, y) !in trees;
  }

  /** Planting right of every tree, with a roll within the chance, keeps every roll within its chance. */
  lemma PlantRolls(trees: set<Coord>, rolls: int -> int, x: int, y: int)
    requires Rolls(trees, rolls) && forall t :: t in trees ==> t.0 < x
    requires 0 <= x < MAP_W && ColumnBiome(x) in TREE_BIOMES && rolls(x) <= TreeProbAt(ColumnBiome(x), trees, x, y)
    ensures Rolls(trees + {(x, y)}, rolls)
  {
    var after := trees + {(x, y)};
    forall t | t in after
      ensures rolls(t.0) <= TreeProbAt(ColumnBiome(t.0), after, t.0, t.1)
    {
      CountLeftIgnoresRight(trees, (x, y), t.0, t.1, 10);
    }
  }

  lemma PlantSites(trees: set<Coord>, surf: seq<int>, x: int, y: int)
    requires SurfaceOk(surf) && Sites(trees, surf, x) && TreeSite(surf, (x, y)) && x < MAP_W - 1
    ensures Sites(trees + {(x, y)}, surf, x + 1)
  {
  }

  lemma SitesWeaken(trees: set<Coord>, surf: seq<int>, x: int, x2: int)
    requires SurfaceOk(surf) && Sites(trees, surf, x) && x <= x2
    ensures Sites(trees, surf, x2)
  {
  }

  /** What planting at `(x, y)` keeps of the grid-free invariants, and that the new tile is in no earlier footprint. */
  lemma PlantFacts(tiles: array2<int>, reg: Registry, trees: set<Coord>, surf: seq<int>, rolls: int -> int, x: int)
    requires IsMap(tiles) && Complete(reg) && SurfaceOk(surf) && 0 <= x < MAP_W - 1 && ColumnBiome(x) in TREE_BIOMES
    requires Sites(trees, surf, x) && Spawns(trees, tiles, reg) && Spacing(trees) && Rolls(trees, rolls)
    requires ValidSpawnPoint(tiles, reg, x, surf[x]) && TreeNeighbors(trees, x, surf[x], 2, true, true) == 0
    requires rolls(x) <= TreeProbAt(ColumnBiome(x), trees, x, surf[x])
    ensures Sites(trees + {(x, surf[x])}, surf, x + 1) && Spacing(trees + {(x, surf[x])})
    ensures Rolls(trees + {(x, surf[x])}, rolls)
    ensures forall t :: t in trees ==> 0 <= t.0 < MAP_W - 1 && 0 <= t.1 < MAP_H && !InFootprint(t, x, surf[x])
  {
    var y := surf[x];
    CountSideZero(trees, x, y, 2, -1);
    assert (x - 1, y) !in trees;
    forall t | t in trees
      ensures 0 <= t.0 < MAP_W - 1 && 0 <= t.1 < MAP_H && !InFootprint(t, x, y)
    {
      NoClash(tiles, reg, trees, t, x, y);
    }
    PlantSpaced(trees, x, y);
    PlantRolls(trees, rolls, x, y);
    PlantSites(trees, surf, x, y);
  }

  /** The grid `base` with a tree base on every tree of `trees`. */
  ghost predicate Follows(tiles: array2<int>, reg: Registry, trees: set<Coord>, base: seq<seq<int>>)
    reads tiles
    requires IsMap(tiles) && Complete(reg)
  {
    GridShape(base)
    && forall i, j :: 0 <= i < MAP_W && 0 <= j < MAP_H ==>
      tiles[i, j] == if (i, j) in trees then Id(reg, "tree base") else base[i][j]
  }

  /** `valid_spawn_point` read on the value grid `base`. */
  predicate SpawnOn(base: seq<seq<int>>, reg: Registry, x: int, y: int)
    requires GridShape(base) && Complete(reg) && 0 <= x < MAP_W - 1 && 0 <= y < MAP_H
  {
    var air, water := Id(reg, "air"), Id(reg, "water");
    var left, up := NpIndex(x - 1, MAP_W), NpIndex(y - 1, MAP_H);
    base[left][y] !in {air, water} && base[x][y] !in {air, water} && base[x + 1][y] !in {air, water}
    && base[left][up] == air && base[x][up] == air && base[x + 1][up] == air
  }

  /** Every tree stands on a cell of `base` that is neither air nor water. */
  predicate OnSolid(trees: set<Coord>, reg: Registry, base: seq<seq<int>>)
    requires GridShape(base) && Complete(reg)
  {
    forall t :: t in trees ==> 0 <= t.0 < MAP_W && 0 <= t.1 < MAP_H && base[t.0][t.1] !in {Id(reg, "air"), Id(reg, "water")}
  }

  /** The scan's test for column `c`, with the trees `s` planted to its left, on the grid before the scan. */
  predicate Keeps(base: seq<seq<int>>, reg: Registry, surf: seq<int>, rolls: int -> int, s: set<Coord>, c: int)
    requires GridShape(base) && Complete(reg) && SurfaceOk(surf) && 0 <= c < MAP_W - 1
  {
    ColumnBiome(c) in TREE_BIOMES && SpawnOn(base, reg, c, surf[c])
    && TreeNeighbors(s, c, surf[c], 2, true, true) == 0 && rolls(c) <= TreeProbAt(ColumnBiome(c), s, c, surf[c])
  }

  /**
   * A left-to-right scan of the columns left of `x` that takes the surface tile
   * of every column `keep` accepts, given the tiles taken so far.
   */
  function Scan(keep: (set<Coord>, int) -> bool, surf: seq<int>, x: nat): (r: set<Coord>)
    requires SurfaceOk(surf) && x <= MAP_W
    ensures forall t :: t in r ==> 0 <= t.0 < x && t.1 == surf[t.0]
  {
    if x == 0 then {}
    else
      var s := Scan(keep, surf, x - 1);
      if keep(s, x - 1) then s + {(x - 1, surf[x - 1])} else s
  }

  /** What the scan has taken only grows as it moves right. */
  lemma {:induction false} ScanGrows(keep: (set<Coord>, int) -> bool, surf: seq<int>, x1: nat, x2: nat)
    requires SurfaceOk(surf) && x1 <= x2 <= MAP_W
    ensures Scan(keep, surf, x1) <= Scan(keep, surf, x2)
    decreases x2
  {
    if x1 < x2 {
      ScanGrows(keep, surf, x1, x2 - 1);
    }
  }

  /** Column `c` is taken exactly when `keep` accepts it given what was taken left of it. */
  lemma {:induction false} ScanDecides(keep: (set<Coord>, int) -> bool, surf: seq<int>, c: int, x: nat)
    requires SurfaceOk(surf) && 0 <= c < x <= MAP_W
    ensures (c, surf[c]) in Scan(keep, surf, x) <==> keep(Scan(keep, surf, c), c)
    decreases x
  {
    if x > c + 1 {
      ScanDecides(keep, surf, c, x - 1);
      assert (x - 1, surf[x - 1]) != (c, surf[c]);
    } else {
      assert (c, surf[c]) !in Scan(keep, surf, c);
    }
  }

  /** Columns `keep` rejects whatever was taken add nothing. */
  lemma {:induction false} ScanSkips(keep: (set<Coord>, int) -> bool, surf: seq<int>, x1: nat, x2: nat)
    requires SurfaceOk(surf) && x1 <= x2 <= MAP_W
    requires forall s, c :: x1 <= c < x2 ==> !keep(s, c)
    ensures Scan(keep, surf, x2) == Scan(keep, surf, x1)
    decreases x2
  {
    if x1 < x2 {
      ScanSkips(keep, surf, x1, x2 - 1);
    }
  }

  /** `get_tree_locations`' test for a column, on the grid `base` it starts from. */
  ghost function TreeTest(base: seq<seq<int>>, reg: Registry, surf: seq<int>, rolls: int -> int): (set<Coord>, int) -> bool
  {
    (s: set<Coord>, c: int) =>
      GridShape(base) && Complete(reg) && SurfaceOk(surf) && 0 <= c < MAP_W - 1 && Keeps(base, reg, surf, rolls, s, c)
  }

  /** The trees `get_tree_locations` plants in the columns left of `x`, on the grid `base` it starts from. */
  ghost function TreeScan(base: seq<seq<int>>, reg: Registry, surf: seq<int>, rolls: int -> int, x: nat): set<Coord>
    requires GridShape(base) && Complete(reg) && SurfaceOk(surf) && x <= MAP_W - 1
  {
    Scan(TreeTest(base, reg, surf, rolls), surf, x)
  }

  /** One step of the tree scan: column `x` is planted exactly when the scan's test holds for it. */
  lemma TreeScanStep(base: seq<seq<int>>, reg: Registry, surf: seq<int>, rolls: int -> int, x: nat)
    requires GridShape(base) && Complete(reg) && SurfaceOk(surf) && x < MAP_W - 1
    ensures var s := TreeScan(base, reg, surf, rolls, x);
      TreeScan(base, reg, surf, rolls, x + 1) == if Keeps(base, reg, surf, rolls, s, x) then s + {(x, surf[x])} else s
  {
  }

  /**
   * Completeness and soundness of the tree scan: column `c` carries a tree, on
   * its surface row, exactly when the scan's test holds for it with the trees
   * planted to its left.
   */
  lemma TreeScanDecides(base: seq<seq<int>>, reg: Registry, surf: seq<int>, rolls: int -> int, c: int, x: nat)
    requires GridShape(base) && Complete(reg) && SurfaceOk(surf) && 0 <= c < x <= MAP_W - 1
    ensures (c, surf[c]) in TreeScan(base, reg, surf, rolls, x)
      <==> Keeps(base, reg, surf, rolls, TreeScan(base, reg, surf, rolls, c), c)
  {
    ScanDecides(TreeTest(base, reg, surf, rolls), surf, c, x);
  }

  /** The tree scan plants nothing in a column outside the tree biomes. */
  lemma TreeScanSkips(base: seq<seq<int>>, reg: Registry, surf: seq<int>, rolls: int -> int, x1: nat, x2: nat)
    requires GridShape(base) && Complete(reg) && SurfaceOk(surf) && x1 <= x2 <= MAP_W - 1
    requires forall c :: x1 <= c < x2 ==> ColumnBiome(c) !in TREE_BIOMES
    ensures TreeScan(base, reg, surf, rolls, x2) == TreeScan(base, reg, surf, rolls, x1)
  {
    ScanSkips(TreeTest(base, reg, surf, rolls), surf, x1, x2);
  }

  /** A tree base keeps a solid cell solid, so a cell is air, or air or water, exactly when it was in `base`. */
  lemma SameClass(tiles: array2<int>, reg: Registry, trees: set<Coord>, base: seq<seq<int>>, i: int, j: int)
    requires IsMap(tiles) && Complete(reg) && Follows(tiles, reg, trees, base) && OnSolid(trees, reg, base)
    requires 0 <= i < MAP_W && 0 <= j < MAP_H
    ensures (tiles[i, j] == Id(reg, "air")) == (base[i][j] == Id(reg, "air"))
    ensures (tiles[i, j] in {Id(reg, "air"), Id(reg, "water")}) == (base[i][j] in {Id(reg, "air"), Id(reg, "water")})
  {
    IdsDiffer(reg, "tree base", "air");
    IdsDiffer(reg, "tree base", "water");
  }

  /** Planting trees on solid cells does not change which columns are valid spawn points. */
  lemma SpawnThroughTrees(tiles: array2<int>, reg: Registry, trees: set<Coord>, base: seq<seq<int>>, x: int, y: int)
    requires IsMap(tiles) && Complete(reg) && Follows(tiles, reg, trees, base) && OnSolid(trees, reg, base)
    requires 0 <= x < MAP_W - 1 && 0 <= y < MAP_H
    ensures ValidSpawnPoint(tiles, reg, x, y) == SpawnOn(base, reg, x, y)
  {
    var left, up := NpIndex(x - 1, MAP_W), NpIndex(y - 1, MAP_H);
    SameClass(tiles, reg, trees, base, left, y);
    SameClass(tiles, reg, trees, base, x, y);
    SameClass(tiles, reg, trees, base, x + 1, y);
    SameClass(tiles, reg, trees, base, left, up);
    SameClass(tiles, reg, trees, base, x, up);
    SameClass(tiles, reg, trees, base, x + 1, up);
  }

  /**
   * Writes the solid tile `v` on the valid spawn point `(x, y)`, which lies in
   * no footprint of the trees in `trees`: they and `(x, y)` are then all on valid
   * spawn points.
   */
  method PlantTile(tiles: array2<int>, reg: Registry, trees: set<Coord>, x: int, y: int, v: int, ghost base: seq<seq<int>>)
    requires IsMap(tiles) && Complete(reg) && 0 <= x < MAP_W - 1 && 0 <= y < MAP_H
    requires v != Id(reg, "air") && v != Id(reg, "water") && ValidSpawnPoint(tiles, reg, x, y)
    requires Spawns(trees, tiles, reg)
    requires forall t :: t in trees ==> 0 <= t.0 < MAP_W - 1 && 0 <= t.1 < MAP_H && !InFootprint(t, x, y)
    modifies tiles
    ensures forall i, j :: 0 <= i < MAP_W && 0 <= j < MAP_H ==> tiles[i, j] == if (i, j) == (x, y) then v else old(tiles[i, j])
    ensures Spawns(trees + {(x, y)}, tiles, reg)
    ensures old(Follows(tiles, reg, trees, base)) && v == Id(reg, "tree base") ==> Follows(tiles, reg, trees + {(x, y)}, base)
  {
    tiles[x, y] := v;
    forall t | t in trees + {(x, y)}
      ensures ValidSpawnPoint(tiles, reg, t.0, t.1)
    {
      if t in trees {
        assert old(ValidSpawnPoint(tiles, reg, t.0, t.1));
      }
    }
  }

  /** Between the tree biomes' spans in biome order, no column belongs to a tree biome. */
  lemma NoTreeColumns(x1: int, x2: int)
    requires x2 <= BiomeStart(Forest) || x1 == x2 || BiomeStart(Taiga) + BIOME_WIDTH <= x1
    ensures forall c :: 0 <= x1 <= c < x2 <= MAP_W ==> ColumnBiome(c) !in TREE_BIOMES
  {
    forall c | 0 <= x1 <= c < x2 <= MAP_W
      ensures ColumnBiome(c) !in TREE_BIOMES
    {
      ColumnsOfBiome(Forest, c);
      ColumnsOfBiome(Taiga, c);
    }
  }

  class TreeGen {
    /** The coordinates of the trees placed so far (`TreeGen.map`). */
    var trees: set<Coord>

    /** Everything the scan keeps true of the trees placed left of column `x`. */
    predicate Placed(tiles: array2<int>, reg: Registry, surf: seq<int>, rolls: int -> int, x: int)
      reads this, tiles
      requires IsMap(tiles) && Complete(reg) && SurfaceOk(surf) && x <= MAP_W
    {
      Sites(trees, surf, x) && Spawns(trees, tiles, reg) && Spacing(trees) && Rolls(trees, rolls)
    }

    /**
     * The scan has reached column `x`: `Placed` holds, the grid is `base` with
     * tree bases on the trees, and the trees are those of `TreeScan` on `base`.
     */
    ghost predicate Scanned(tiles: array2<int>, reg: Registry, surf: seq<int>, rolls: int -> int, base: seq<seq<int>>, x: int)
      reads this, tiles
      requires IsMap(tiles) && Complete(reg) && SurfaceOk(surf) && 0 <= x <= MAP_W - 1
    {
      Placed(tiles, reg, surf, rolls, x) && Follows(tiles, reg, trees, base) && OnSolid(trees, reg, base)
      && trees == TreeScan(base, reg, surf, rolls, x)
    }

    /** Plants a tree on the surface of column `x`, where every condition of the scan holds. */
    method Plant(tiles: array2<int>, reg: Registry, surf: seq<int>, rolls: int -> int, x: int, ghost base: seq<seq<int>>)
      requires IsMap(tiles) && Complete(reg) && SurfaceOk(surf) && 0 <= x < MAP_W - 1 && ColumnBiome(x) in TREE_BIOMES
      requires Placed(tiles, reg, surf, rolls, x) && Follows(tiles, reg, trees, base)
      requires ValidSpawnPoint(tiles, reg, x, surf[x]) && TreeNeighbors(trees, x, surf[x], 2, true, true) == 0
      requires rolls(x) <= TreeProbAt(ColumnBiome(x), trees, x, surf[x])
      modifies this, tiles
      ensures Placed(tiles, reg, surf, rolls, x + 1) && Follows(tiles, reg, trees, base)
      ensures trees == old(trees) + {(x, surf[x])}
      ensures forall i, j :: 0 <= i < MAP_W && 0 <= j < MAP_H ==>
        tiles[i, j] == if (i, j) == (x, surf[x]) then Id(reg, "tree base") else old(tiles[i, j])
    {
      PlantFacts(tiles, reg, trees, surf, rolls, x);
      var treeBase := Id(reg, "tree base");
      IdsDiffer(reg, "tree base", "air");
      IdsDiffer(reg, "tree base", "water");
      PlantTile(tiles, reg, trees, x, surf[x], treeBase, base);
      trees := trees + {(x, surf[x])};
    }

    /**
     * The scan step for column `x` of biome `b`: plants a tree exactly when the
     * column's surface is a valid spawn point, no tree stands within two columns
     * on that row and the roll is within the tree chance.
     */
    method TryTree(tiles: array2<int>, reg: Registry, surf: seq<int>, rolls: int -> int, b: Biome, x: int,
                   ghost base: seq<seq<int>>) returns (planted: bool)
      requires IsMap(tiles) && Complete(reg) && SurfaceOk(surf)
      requires b in TREE_BIOMES && BiomeStart(b) <= x < BiomeStart(b) + BIOME_WIDTH <= MAP_W - 1
      requires Scanned(tiles, reg, surf, rolls, base, x)
      modifies this, tiles
      ensures planted == (old(ValidSpawnPoint(tiles, reg, x, surf[x])) && old(TreeNeighbors(trees, x, surf[x], 2, true, true)) == 0
        && rolls(x) <= old(TreeProbAt(b, trees, x, surf[x])))
      ensures planted == Keeps(base, reg, surf, rolls, old(trees), x) && Scanned(tiles, reg, surf, rolls, base, x + 1)
      ensures trees == if planted then old(trees) + {(x, surf[x])} else old(trees)
      ensures forall i, j :: 0 <= i < MAP_W && 0 <= j < MAP_H ==>
        tiles[i, j] == if planted && (i, j) == (x, surf[x]) then Id(reg, "tree base") else old(tiles[i, j])
    {
      ColumnsOfBiome(b, x);
      var y := surf[x];
      SpawnThroughTrees(tiles, reg, trees, base, x, y);
      TreeScanStep(base, reg, surf, rolls, x);
      planted := ValidSpawnPoint(tiles, reg, x, y) && TreeNeighbors(trees, x, y, 2, true, true) == 0
        && rolls(x) <= TreeProbAt(b, trees, x, y);
      if planted {
        Plant(tiles, reg, surf, rolls, x, base);
      } else {
        SitesWeaken(trees, surf, x, x + 1);
      }
    }

    /** `TreeGen`: starts with no trees and scans the tree biomes. */
    constructor (tiles: array2<int>, reg: Registry, surf: seq<int>, rolls: int -> int)
      requires IsMap(tiles) && Complete(reg) && SurfaceOk(surf)
      modifies tiles
      ensures Placed(tiles, reg, surf, rolls, MAP_W - 1)
      ensures trees == TreeScan(old(Snapshot(tiles)), reg, surf, rolls, MAP_W - 1)
      ensures forall i, j :: 0 <= i < MAP_W && 0 <= j < MAP_H ==>
        tiles[i, j] == if (i, j) in trees then Id(reg, "tree base") else old(tiles[i, j])
    {
      trees := {};
      new;
      GetTreeLocations(tiles, reg, surf, rolls);
    }

    /**
     * `get_tree_locations`: every tree stands on the surface of a tree-biome
     * column, on a valid spawn tile of the final grid, more than two columns from
     * any tree on its row, and its roll is within the chance computed from the
     * trees to its left; the trees are exactly those of the reference scan
     * `TreeScan` on the grid it started from; the grid changes only where trees
     * were planted.
     */
    method GetTreeLocations(tiles: array2<int>, reg: Registry, surf: seq<int>, rolls: int -> int)
      requires IsMap(tiles) && Complete(reg) && SurfaceOk(surf) && trees == {}
      modifies this, tiles
      ensures Placed(tiles, reg, surf, rolls, MAP_W - 1)
      ensures trees == TreeScan(old(Snapshot(tiles)), reg, surf, rolls, MAP_W - 1)
      ensures forall i, j :: 0 <= i < MAP_W && 0 <= j < MAP_H ==>
        tiles[i, j] == if (i, j) in trees then Id(reg, "tree base") else old(tiles[i, j])
    {
      ghost var base := Snapshot(tiles);
      ScanAll(tiles, reg, surf, rolls, base);
    }

    /** The outer loop of `get_tree_locations`: the tree biomes, left to right. */
    method ScanAll(tiles: array2<int>, reg: Registry, surf: seq<int>, rolls: int -> int, ghost base: seq<seq<int>>)
      requires IsMap(tiles) && Complete(reg) && SurfaceOk(surf)
      requires Placed(tiles, reg, surf, rolls, 0) && Follows(tiles, reg, trees, base) && trees == {}
      modifies this, tiles
      ensures Placed(tiles, reg, surf, rolls, MAP_W - 1) && Follows(tiles, reg, trees, base)
      ensures trees == TreeScan(base, reg, surf, rolls, MAP_W - 1)
    {
      var k := 0;
      var x := 0;
      while k < |TREE_BIOME_ORDER|
        invariant 0 <= k <= |TREE_BIOME_ORDER|
        invariant x == if k == 0 then 0 else BiomeStart(TREE_BIOME_ORDER[k - 1]) + BIOME_WIDTH
        invariant Scanned(tiles, reg, surf, rolls, base, x)
      {
        var b := TREE_BIOME_ORDER[k];
        SkipGap(tiles, reg, surf, rolls, base, x, BiomeStart(b));
        ScanBiome(tiles, reg, surf, rolls, b, base);
        x := BiomeStart(b) + BIOME_WIDTH;
        k := k + 1;
      }
      SkipGap(tiles, reg, surf, rolls, base, x, MAP_W - 1);
    }

    /** The columns between the tree biomes' spans leave the scan's state as it was. */
    lemma SkipGap(tiles: array2<int>, reg: Registry, surf: seq<int>, rolls: int -> int, base: seq<seq<int>>, x1: int, x2: int)
      requires IsMap(tiles) && Complete(reg) && SurfaceOk(surf) && 0 <= x1 <= x2 <= MAP_W - 1
      requires x2 <= BiomeStart(Forest) || x1 == x2 || BiomeStart(Taiga) + BIOME_WIDTH <= x1
      requires Scanned(tiles, reg, surf, rolls, base, x1)
      ensures Scanned(tiles, reg, surf, rolls, base, x2)
    {
      NoTreeColumns(x1, x2);
      TreeScanSkips(base, reg, surf, rolls, x1, x2);
      SitesWeaken(trees, surf, x1, x2);
    }

    /** The inner loop of `get_tree_locations`: every column of the tree biome `b`, left to right. */
    method ScanBiome(tiles: array2<int>, reg: Registry, surf: seq<int>, rolls: int -> int, b: Biome, ghost base: seq<seq<int>>)
      requires IsMap(tiles) && Complete(reg) && SurfaceOk(surf) && b in TREE_BIOME_ORDER
      requires BiomeStart(b) + BIOME_WIDTH <= MAP_W - 1 && Scanned(tiles, reg, surf, rolls, base, BiomeStart(b))
      modifies this, tiles
      ensures Scanned(tiles, reg, surf, rolls, base, BiomeStart(b) + BIOME_WIDTH)
    {
      var startX := BiomeStart(b);
      for x := startX to startX + BIOME_WIDTH
        invariant Scanned(tiles, reg, surf, rolls, base, x)
      {
        var _ := TryTree(tiles, reg, surf, rolls, b, x, base);
      }
    }
  }
}
