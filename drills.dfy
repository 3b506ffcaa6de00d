/**
 * Drills: a drill surveys the strip of map below it once, records for every
 * ore in the strip how much can be extracted and where it lies, and then
 * extracts one unit per alarm into its output slot. An exhausted ore tile is
 * turned into the commonest tile around it. Burner drills run on fuel;
 * electric drills have no fuel slot.
 */
module Drills {
  import opened Wrappers
  import opened PyNum
  import opened Rects
  import opened Settings
  import opened Grids
  import opened TileRegistry
  import opened Collision
  import opened Machines

  // ---- The surveyed strip ----

  /** The tile columns `[minX, maxX)` and rows `[minY, maxY)` a drill surveys. */
  datatype Bounds = Bounds(minX: int, maxX: int, minY: int, maxY: int)

  /** How many rows down a drill looks at most: a quarter of the screen's height in tiles' pixels, `RES[1] // 4`. */
  const SURVEY_DEPTH := RES_H / 4

  /**
   * The strip below a drill's rectangle: its columns lie under the
   * rectangle, its rows start at the rectangle's bottom and reach
   * `SURVEY_DEPTH` rows down, but never past the bottom of the map.
   */
  function SliceBounds(r: Rect): (b: Bounds)
    ensures TILE_SIZE * b.minX <= r.Left() < TILE_SIZE * b.minX + TILE_SIZE
    ensures TILE_SIZE * b.maxX <= r.Right() < TILE_SIZE * b.maxX + TILE_SIZE
    ensures TILE_SIZE * b.minY <= r.Bottom() < TILE_SIZE * b.minY + TILE_SIZE
    ensures b.maxY == Min(MAP_H, b.minY + SURVEY_DEPTH)
    ensures b.minY <= MAP_H ==> b.minY <= b.maxY <= MAP_H && b.maxY - b.minY <= SURVEY_DEPTH
  {
    var minY := r.Bottom() / TILE_SIZE;
    Bounds(r.Left() / TILE_SIZE, r.Right() / TILE_SIZE, minY, minY + Min(MAP_H - minY, SURVEY_DEPTH))
  }

  /** The strip lies on the map, so the numpy slice is exactly these columns and rows. */
  predicate OnMap(b: Bounds)
  {
    0 <= b.minX <= b.maxX <= MAP_W && 0 <= b.minY <= b.maxY <= MAP_H
  }

  /** A strip of the map: `s[i][j]` is the tile `i` columns right of and `j` rows below the strip's corner. */
  type Slice = seq<seq<int>>

  /** `tile_map[min_x:max_x, min_y:max_y]`. */
  function MapSlice(tiles: array2<int>, b: Bounds): (s: Slice)
    reads tiles
    requires IsMap(tiles) && OnMap(b)
    ensures |s| == b.maxX - b.minX
    ensures forall i :: 0 <= i < |s| ==> |s[i]| == b.maxY - b.minY
    ensures forall i, j :: 0 <= i < |s| && 0 <= j < |s[i]| ==> s[i][j] == tiles[b.minX + i, b.minY + j]
  {
    seq(b.maxX - b.minX, i requires 0 <= i < b.maxX - b.minX reads tiles =>
      seq(b.maxY - b.minY, j requires 0 <= j < b.maxY - b.minY reads tiles => tiles[b.minX + i, b.minY + j]))
  }

  // ---- Ore data ----

  /** The strip's tiles, column after column. */
  function Flat(s: Slice): seq<int>
  {
    if s == [] then [] else Flat(s[..|s| - 1]) + s[|s| - 1]
  }

  lemma {:induction false} InFlat(s: Slice, v: int)
    ensures v in Flat(s) <==> exists i, j :: 0 <= i < |s| && 0 <= j < |s[i]| && s[i][j] == v
  {
    if s != [] {
      var init := s[..|s| - 1];
      InFlat(init, v);
      assert forall i :: 0 <= i < |init| ==> init[i] == s[i];
      if v in s[|s| - 1] {
        var j :| 0 <= j < |s[|s| - 1]| && s[|s| - 1][j] == v;
        assert s[|s| - 1][j] == v;
      }
    }
  }

  /** `argwhere` order: by column first, then by row. */
  predicate Before(a: Coord, b: Coord)
  {
    a.0 < b.0 || (a.0 == b.0 && a.1 < b.1)
  }

  /** The rows of column `i` that hold `v`, top to bottom. */
  function {:induction false} RowHits(col: seq<int>, i: int, v: int): (r: seq<Coord>)
    ensures forall p :: p in r <==> p.0 == i && 0 <= p.1 < |col| && col[p.1] == v
    ensures forall a, b :: 0 <= a < b < |r| ==> r[a].0 == r[b].0 == i && r[a].1 < r[b].1
    ensures forall a :: 0 <= a < |r| ==> r[a].0 == i
    ensures |r| == multiset(col)[v]
  {
    if col == [] then []
    else
      var init := col[..|col| - 1];
      var last := |col| - 1;
      assert col == init + [col[last]];
      var r := RowHits(init, i, v) + (if col[last] == v then [(i, last)] else []);
      assert forall j :: 0 <= j < last ==> col[j] == init[j];
      r
  }

  /** `np.argwhere(slice == v)`: every position of `v` in the strip, in column-then-row order. */
  function {:induction false} Hits(s: Slice, v: int): (r: seq<Coord>)
    ensures forall p :: p in r <==> 0 <= p.0 < |s| && 0 <= p.1 < |s[p.0]| && s[p.0][p.1] == v
    ensures forall a, b :: 0 <= a < b < |r| ==> Before(r[a], r[b])
    ensures |r| == multiset(Flat(s))[v]
  {
    if s == [] then []
    else
      var init := s[..|s| - 1];
      var h := Hits(init, v);
      var t := RowHits(s[|s| - 1], |s| - 1, v);
      assert forall i :: 0 <= i < |init| ==> init[i] == s[i];
      assert forall p :: p in h ==> p.0 < |s| - 1;
      h + t
  }

  /** One entry of `ore_data`: the units left to extract and where the ore lies in the strip. */
  datatype OreEntry = OreEntry(amount: int, locations: seq<Coord>)

  /** Every id of the strip has a name that maps back to it. */
  predicate Named(reg: Registry, s: Slice)
  {
    forall v :: v in Flat(s) ==> v in reg.idsToNames && reg.idsToNames[v] in reg.namesToIds && reg.namesToIds[reg.idsToNames[v]] == v
  }

  /** The names of the strip's ids that are not ignored. */
  function OreNames(reg: Registry, s: Slice, ignore: set<int>): set<string>
    requires Named(reg, s)
  {
    set v | v in Flat(s) && v !in ignore :: reg.idsToNames[v]
  }

  /**
   * `get_ore_data`: for every id counted by `np.unique` and not ignored, its
   * name gets `count * TILE_ORE_RATIO` units and the positions of that name's id.
   */
  function OreData(reg: Registry, s: Slice, ignore: set<int>): (d: map<string, OreEntry>)
    requires Named(reg, s)
    ensures forall n :: n in d <==> exists v :: v in Flat(s) && v !in ignore && reg.idsToNames[v] == n
  {
    map n | n in OreNames(reg, s, ignore) ::
      OreEntry(multiset(Flat(s))[reg.namesToIds[n]] * TILE_ORE_RATIO, Hits(s, reg.namesToIds[n]))
  }

  /**
   * Each ore's entry: its id lies in the strip and is not ignored, its amount
   * is `TILE_ORE_RATIO` per location and so at least one tile's worth, and
   * its locations are exactly the strip positions of that id, in
   * column-then-row order.
   */
  lemma OreEntryFacts(reg: Registry, s: Slice, ignore: set<int>, n: string)
    requires Named(reg, s) && n in OreData(reg, s, ignore)
    ensures n in reg.namesToIds
    ensures var id := reg.namesToIds[n]; var e := OreData(reg, s, ignore)[n];
      id in Flat(s) && id !in ignore && reg.idsToNames[id] == n
      && e.amount == TILE_ORE_RATIO * |e.locations| && e.amount >= TILE_ORE_RATIO
      && (forall p :: p in e.locations <==> 0 <= p.0 < |s| && 0 <= p.1 < |s[p.0]| && s[p.0][p.1] == id)
      && (forall a, b :: 0 <= a < b < |e.locations| ==> Before(e.locations[a], e.locations[b]))
  {
    var v :| v in Flat(s) && v !in ignore && reg.idsToNames[v] == n;
    assert reg.namesToIds[n] == v;
    assert multiset(Flat(s))[v] >= 1;
  }

  /** Every id in the strip that is not ignored has an entry under its name. */
  lemma EveryOreRecorded(reg: Registry, s: Slice, ignore: set<int>, i: int, j: int)
    requires Named(reg, s) && 0 <= i < |s| && 0 <= j < |s[i]| && s[i][j] !in ignore
    ensures s[i][j] in reg.idsToNames && reg.idsToNames[s[i][j]] in OreData(reg, s, ignore)
    ensures (i, j) in OreData(reg, s, ignore)[reg.idsToNames[s[i][j]]].locations
  {
    InFlat(s, s[i][j]);
  }

  // ---- The majority vote of `convert_tile` ----

  /** `Counter`'s key order: each value where it first occurs. */
  function {:induction false} Uniq(vals: seq<int>): (u: seq<int>)
    ensures forall v :: v in u <==> v in vals
    ensures NoDup(u)
  {
    if vals == [] then []
    else
      var u := Uniq(vals[..|vals| - 1]);
      assert vals == vals[..|vals| - 1] + [vals[|vals| - 1]];
      if vals[|vals| - 1] in u then u else u + [vals[|vals| - 1]]
  }

  /** The counter's `(value, count)` pairs, in key order. */
  function Tally(vals: seq<int>): (t: seq<(int, nat)>)
    ensures |t| == |Uniq(vals)|
  {
    var u := Uniq(vals);
    seq(|u|, k requires 0 <= k < |u| => (u[k], multiset(vals)[u[k]]))
  }

  /** Counts never increase along the list. */
  predicate Desc(s: seq<(int, nat)>)
  {
    forall i, j :: 0 <= i < j < |s| ==> s[i].1 >= s[j].1
  }

  /** `p` placed after every pair counted at least as often: a stable step of a descending sort. */
  function {:induction false} Insert(p: (int, nat), s: seq<(int, nat)>): (r: seq<(int, nat)>)
    ensures multiset(r) == multiset(s) + multiset{p} && |r| == |s| + 1
  {
    if s == [] then [p]
    else if p.1 > s[0].1 then [p] + s
    else
      assert s == [s[0]] + s[1..];
      [s[0]] + Insert(p, s[1..])
  }

  /** Inserting keeps the counts in descending order. */
  lemma {:induction false} InsertDesc(p: (int, nat), s: seq<(int, nat)>)
    requires Desc(s)
    ensures Desc(Insert(p, s))
  {
    if s != [] && p.1 <= s[0].1 {
      var rest := Insert(p, s[1..]);
      InsertDesc(p, s[1..]);
      forall x | x in rest
        ensures x.1 <= s[0].1
      {
        assert x in multiset(rest);
        if x != p {
          assert x in multiset(s[1..]);
          var k :| 0 <= k < |s[1..]| && s[1..][k] == x;
          assert s[k + 1] == x;
        }
      }
      var r := [s[0]] + rest;
      forall i, j | 0 <= i < j < |r|
        ensures r[i].1 >= r[j].1
      {
        assert r[j] == rest[j - 1];
        if i > 0 {
          assert r[i] == rest[i - 1];
        }
      }
      assert Insert(p, s) == r;
    }
  }

  /** `sorted(..., key=count, reverse=True)`, which Python keeps stable. */
  function {:induction false} SortDesc(ps: seq<(int, nat)>): (r: seq<(int, nat)>)
    ensures multiset(r) == multiset(ps) && |r| == |ps|
    ensures Desc(r)
  {
    if ps == [] then []
    else
      assert ps == ps[..|ps| - 1] + [ps[|ps| - 1]];
      var sorted := SortDesc(ps[..|ps| - 1]);
      InsertDesc(ps[|ps| - 1], sorted);
      Insert(ps[|ps| - 1], sorted)
  }

  /** `Counter(vals).most_common()`. */
  function MostCommon(vals: seq<int>): seq<(int, nat)>
  {
    SortDesc(Tally(vals))
  }

  /** A sequence with no repeats holds each value at most once. */
  lemma {:induction false} NoDupCount<T>(s: seq<T>, x: T)
    requires NoDup(s)
    ensures multiset(s)[x] <= 1
  {
    if s != [] {
      assert s == [s[0]] + s[1..];
      assert NoDup(s[1..]) by {
        forall i, j | 0 <= i < j < |s[1..]|
          ensures s[1..][i] != s[1..][j]
        {
          assert s[1..][i] == s[i + 1] && s[1..][j] == s[j + 1];
        }
      }
      NoDupCount(s[1..], x);
      if s[0] == x {
        assert forall k :: 0 <= k < |s[1..]| ==> s[1..][k] == s[k + 1];
        assert x !in s[1..];
      }
    }
  }

  /** A value at two positions is counted at least twice. */
  lemma CountTwo<T>(s: seq<T>, i: int, j: int)
    requires 0 <= i < j < |s| && s[i] == s[j]
    ensures multiset(s)[s[i]] >= 2
  {
    assert s == s[..j] + s[j..];
    assert s[i] == s[..j][i];
    assert s[j] == s[j..][0];
  }

  /** A sequence holding each value at most once has no repeats. */
  lemma CountOneNoDup<T>(s: seq<T>)
    requires forall x :: multiset(s)[x] <= 1
    ensures NoDup(s)
  {
    forall i, j | 0 <= i < j < |s|
      ensures s[i] != s[j]
    {
      if s[i] == s[j] {
        CountTwo(s, i, j);
        assert false;
      }
    }
  }

  /** The tally's entries are the distinct values with their counts. */
  lemma TallyFacts(vals: seq<int>)
    ensures var t := Tally(vals);
      NoDup(t)
      && (forall x :: x in t ==> x.0 in vals && x.1 == multiset(vals)[x.0])
      && (forall x, y :: x in t && y in t && x.0 == y.0 ==> x == y)
      && (forall v :: v in vals ==> exists x :: x in t && x.0 == v)
  {
    var t := Tally(vals);
    var u := Uniq(vals);
    forall v | v in vals
      ensures exists x :: x in t && x.0 == v
    {
      var i :| 0 <= i < |u| && u[i] == v;
      assert t[i] in t;
    }
  }

  /**
   * The most-common list holds every value once, with its count, and the
   * counts never increase along it.
   */
  lemma MostCommonFacts(vals: seq<int>)
    ensures var mc := MostCommon(vals);
      Desc(mc)
      && (forall k :: 0 <= k < |mc| ==> mc[k].0 in vals && mc[k].1 == multiset(vals)[mc[k].0])
      && (forall v :: v in vals ==> exists k :: 0 <= k < |mc| && mc[k].0 == v)
      && (forall a, b :: 0 <= a < b < |mc| ==> mc[a].0 != mc[b].0)
  {
    var t := Tally(vals);
    var mc := MostCommon(vals);
    TallyFacts(vals);
    assert multiset(mc) == multiset(t);
    forall x
      ensures multiset(mc)[x] <= 1
    {
      NoDupCount(t, x);
    }
    CountOneNoDup(mc);
    forall x
      ensures x in mc <==> x in t
    {
      assert x in mc <==> x in multiset(mc);
      assert x in t <==> x in multiset(t);
    }
    forall v | v in vals
      ensures exists k :: 0 <= k < |mc| && mc[k].0 == v
    {
      var x :| x in t && x.0 == v;
      assert x in mc;
    }
  }

  /** `sorted_counts[k]`'s count, or 0 past the end, as `(list(freqs) + [0, 0, 0])[:4]` pads it. */
  function Freq(mc: seq<(int, nat)>, k: nat): nat
  {
    if k < |mc| then mc[k].1 else 0
  }

  /**
   * The tile `convert_tile` writes for these neighbour ids: the commonest
   * when one count leads, one of the first two (by the draw `pick`) when two
   * lead together, and any of them otherwise.
   */
  function Vote(vals: seq<int>, pick: nat): int
    requires vals != []
  {
    var mc := MostCommon(vals);
    assert vals[0] in Uniq(vals);
    if Freq(mc, 0) > Freq(mc, 1) then mc[0].0
    else if Freq(mc, 0) == Freq(mc, 1) && Freq(mc, 1) != Freq(mc, 2) then mc[pick % 2].0
    else mc[pick % |mc|].0
  }

  /** The vote always picks one of the neighbour ids. */
  lemma VoteIsNeighbor(vals: seq<int>, pick: nat)
    requires vals != []
    ensures Vote(vals, pick) in vals
  {
    MostCommonFacts(vals);
  }

  /** A value counted more often than every other one wins the vote, whatever the draw. */
  lemma StrictMajorityWins(vals: seq<int>, pick: nat, v: int)
    requires v in vals
    requires forall w :: w in vals && w != v ==> multiset(vals)[w] < multiset(vals)[v]
    ensures Vote(vals, pick) == v
  {
    var mc := MostCommon(vals);
    MostCommonFacts(vals);
    var k :| 0 <= k < |mc| && mc[k].0 == v;
    assert mc[0].1 >= mc[k].1;
    if |mc| > 1 {
      assert mc[1].0 != v;
    }
  }

  /** Two values tied ahead of all others take the first two places, with nothing tied behind them. */
  lemma TiedLeadersFirst(vals: seq<int>, a: int, b: int)
    requires a in vals && b in vals && a != b && multiset(vals)[a] == multiset(vals)[b]
    requires forall w :: w in vals && w != a && w != b ==> multiset(vals)[w] < multiset(vals)[a]
    ensures var mc := MostCommon(vals);
      |mc| >= 2 && (mc[0].0 == a || mc[0].0 == b) && (mc[1].0 == a || mc[1].0 == b)
      && Freq(mc, 0) == Freq(mc, 1) && Freq(mc, 1) != Freq(mc, 2)
  {
    var mc := MostCommon(vals);
    MostCommonFacts(vals);
    var ka :| 0 <= ka < |mc| && mc[ka].0 == a;
    var kb :| 0 <= kb < |mc| && mc[kb].0 == b;
    assert mc[0].0 == a || mc[0].0 == b by {
      assert mc[0].1 >= mc[ka].1;
    }
    assert mc[1].0 == a || mc[1].0 == b by {
      var other := if mc[0].0 == a then kb else ka;
      assert other >= 1;
      assert mc[1].1 >= mc[other].1;
    }
    if |mc| > 2 {
      assert mc[2].0 != a && mc[2].0 != b;
    }
  }

  /** When two values tie ahead of all others, the vote picks one of the two, as the draw says. */
  lemma TwoWayTieKeepsLeaders(vals: seq<int>, pick: nat, a: int, b: int)
    requires a in vals && b in vals && a != b && multiset(vals)[a] == multiset(vals)[b]
    requires forall w :: w in vals && w != a && w != b ==> multiset(vals)[w] < multiset(vals)[a]
    ensures Vote(vals, pick) == a || Vote(vals, pick) == b
  {
    TiedLeadersFirst(vals, a, b);
  }

  // ---- The drill ----

  /** The drill's kinds: a burner drill burns fuel, an electric drill draws power. */
  datatype Variant = Burner | Electric

  /** `speed_factor`. */
  function SpeedFactor(v: Variant): real
  {
    if v == Burner then 1.0 else 1.5
  }

  /** Extraction slows down by this factor each time the drill moves a row deeper. */
  const EXTRACT_TIME_FACTOR: real := 1.05

  /** The burner drill's `max_capacity`: 50 units of fuel and 99 of output. */
  const BURNER_FUEL_CAPACITY := 50
  const BURNER_OUTPUT_CAPACITY := 99

  /** The length of the extraction and fuel alarms for a drill `oreRow` rows down. */
  function ExtractLength(v: Variant, oreRow: int): real
  {
    2000.0 * SpeedFactor(v) * EXTRACT_TIME_FACTOR * (oreRow + 1) as real
  }

  /** The four neighbours `get_neighbor_dirs` starts from: up, right, down, left. */
  const UP: Coord := (0, -1)
  const RIGHT: Coord := (1, 0)
  const DOWN: Coord := (0, 1)
  const LEFT: Coord := (-1, 0)

  const DIRS: seq<Coord> := [UP, RIGHT, DOWN, LEFT]

  /** `dirs.remove(d)` when `cond` holds. */
  function Drop(s: seq<Coord>, cond: bool, d: Coord): seq<Coord>
  {
    if cond && d in s then RemoveFirst(s, d) else s
  }

  /** `[d]` when `b` holds, else nothing. */
  function Keep(b: bool, d: Coord): seq<Coord>
  {
    if b then [d] else []
  }

  /** The list after each removal of `get_neighbor_dirs`: up, then left, right and down. */
  function DirsAfterUp(oreRow: int): seq<Coord>
  {
    Drop(DIRS, !(oreRow > 1), UP)
  }

  function DirsAfterLeft(t: Coord, oreRow: int): seq<Coord>
  {
    Drop(DirsAfterUp(oreRow), t.0 == 0, LEFT)
  }

  function DirsAfterRight(t: Coord, oreRow: int): seq<Coord>
  {
    Drop(DirsAfterLeft(t, oreRow), t.0 == MAP_W - 1, RIGHT)
  }

  /**
   * The neighbours of tile `t` that `get_neighbor_dirs` keeps: up is dropped
   * unless the drill is more than one row down, then left at the map's left
   * edge, right at its right edge and down at its bottom edge. The top edge
   * is not checked.
   */
  function NeighborDirs(t: Coord, oreRow: int): seq<Coord>
  {
    Drop(DirsAfterRight(t, oreRow), t.1 == MAP_H - 1, DOWN)
  }

  /** Dropping a value found after `a` leaves `a` and `b` around it, and the value itself only when kept. */
  lemma {:induction false} DropMiddle(a: seq<Coord>, r: Coord, b: seq<Coord>, cond: bool)
    requires r !in a
    ensures r in a + [r] + b
    ensures Drop(a + [r] + b, cond, r) == a + Keep(!cond, r) + b
  {
    if a != [] {
      var s := a + [r] + b;
      assert s[1..] == a[1..] + [r] + b;
      DropMiddle(a[1..], r, b, cond);
      assert a == [a[0]] + a[1..];
    }
  }

  /** Up is dropped unless the drill is more than one row down. */
  lemma StepUp(oreRow: int)
    ensures DirsAfterUp(oreRow) == Keep(oreRow > 1, UP) + [RIGHT, DOWN, LEFT]
  {
    DropMiddle([], UP, [RIGHT, DOWN, LEFT], !(oreRow > 1));
    assert DIRS == [] + [UP] + [RIGHT, DOWN, LEFT];
  }

  /** Left is still there to drop, and goes at the map's left edge. */
  lemma StepLeft(t: Coord, oreRow: int)
    ensures LEFT in DirsAfterUp(oreRow)
    ensures DirsAfterLeft(t, oreRow) == Keep(oreRow > 1, UP) + [RIGHT] + ([DOWN] + Keep(t.0 != 0, LEFT))
  {
    var up := Keep(oreRow > 1, UP);
    StepUp(oreRow);
    assert DirsAfterUp(oreRow) == (up + [RIGHT, DOWN]) + [LEFT] + [];
    DropMiddle(up + [RIGHT, DOWN], LEFT, [], t.0 == 0);
  }

  /** Right is still there to drop, and goes at the map's right edge. */
  lemma StepRight(t: Coord, oreRow: int)
    ensures RIGHT in DirsAfterLeft(t, oreRow)
    ensures DirsAfterRight(t, oreRow) == (Keep(oreRow > 1, UP) + Keep(t.0 != MAP_W - 1, RIGHT)) + [DOWN] + Keep(t.0 != 0, LEFT)
  {
    StepLeft(t, oreRow);
    DropMiddle(Keep(oreRow > 1, UP), RIGHT, [DOWN] + Keep(t.0 != 0, LEFT), t.0 == MAP_W - 1);
  }

  /**
   * The kept neighbours are the four directions in order, up only when the
   * drill is more than one row down, and no neighbour across the left,
   * right or bottom edge.
   */
  lemma NeighborDirsShape(t: Coord, oreRow: int)
    ensures NeighborDirs(t, oreRow) ==
      Keep(oreRow > 1, UP) + Keep(t.0 != MAP_W - 1, RIGHT) + Keep(t.1 != MAP_H - 1, DOWN) + Keep(t.0 != 0, LEFT)
  {
    StepRight(t, oreRow);
    var upRight := Keep(oreRow > 1, UP) + Keep(t.0 != MAP_W - 1, RIGHT);
    DropMiddle(upRight, DOWN, Keep(t.0 != 0, LEFT), t.1 == MAP_H - 1);
  }

  /** The kept neighbours are exactly those the conditions allow, each once. */
  lemma NeighborDirsKept(t: Coord, oreRow: int)
    ensures forall d :: d in NeighborDirs(t, oreRow) <==>
      (d == UP && oreRow > 1) || (d == RIGHT && t.0 != MAP_W - 1) || (d == DOWN && t.1 != MAP_H - 1) || (d == LEFT && t.0 != 0)
    ensures NoDup(NeighborDirs(t, oreRow))
  {
    NeighborDirsShape(t, oreRow);
  }

  /** A tile on the map always keeps its left or its right neighbour. */
  lemma NeighborDirsNonEmpty(t: Coord, oreRow: int)
    requires InMap(t)
    ensures NeighborDirs(t, oreRow) != []
  {
    NeighborDirsKept(t, oreRow);
    if t.0 != MAP_W - 1 {
      assert RIGHT in NeighborDirs(t, oreRow);
    } else {
      assert LEFT in NeighborDirs(t, oreRow);
    }
  }

  /**
   * Every kept neighbour of a tile on the map is on the map, except the one
   * above a tile of the top row, which numpy reads from the bottom row.
   */
  lemma NeighborsOnMap(t: Coord, oreRow: int, d: Coord)
    requires InMap(t) && d in NeighborDirs(t, oreRow)
    ensures InMap((t.0 + d.0, t.1 + d.1)) || (d == UP && t.1 == 0)
    ensures -MAP_W <= t.0 + d.0 < MAP_W && -MAP_H <= t.1 + d.1 < MAP_H
  {
    NeighborDirsKept(t, oreRow);
  }

  /** `tile_map[x + dx, y + dy]`, a negative row read from the bottom as numpy does. */
  function Neighbor(tiles: array2<int>, t: Coord, d: Coord): int
    reads tiles
    requires IsMap(tiles)
    requires -MAP_W <= t.0 + d.0 < MAP_W && -MAP_H <= t.1 + d.1 < MAP_H
  {
    tiles[NpIndex(t.0 + d.0, MAP_W), NpIndex(t.1 + d.1, MAP_H)]
  }

  /** The ids of the kept neighbours, in the order of `dirs`. */
  function NeighborIds(tiles: array2<int>, t: Coord, ds: seq<Coord>): (vals: seq<int>)
    reads tiles
    requires IsMap(tiles)
    requires forall k :: 0 <= k < |ds| ==> -MAP_W <= t.0 + ds[k].0 < MAP_W && -MAP_H <= t.1 + ds[k].1 < MAP_H
    ensures |vals| == |ds|
    ensures forall k :: 0 <= k < |ds| ==> vals[k] == Neighbor(tiles, t, ds[k])
  {
    seq(|ds|, k requires 0 <= k < |ds| reads tiles => Neighbor(tiles, t, ds[k]))
  }

  /** The column counter is a multiple of the strip's width: the drill goes a row deeper. */
  predicate Deepens(spanX: int, oreCol: int)
  {
    spanX != 0 && oreCol % spanX == 0
  }

  /** Going a row deeper makes the extraction alarm 5% longer; a missing alarm is left missing. */
  function SlowedAlarms(spanX: int, oreCol: int, alarms: map<string, real>): (m: map<string, real>)
    ensures m.Keys == alarms.Keys
    ensures forall k :: k in m && k != "extract" ==> m[k] == alarms[k]
    ensures "extract" in m ==>
      m["extract"] == if Deepens(spanX, oreCol) then alarms["extract"] * EXTRACT_TIME_FACTOR else alarms["extract"]
  {
    if Deepens(spanX, oreCol) && "extract" in alarms then alarms["extract" := alarms["extract"] * EXTRACT_TIME_FACTOR]
    else alarms
  }

  /**
   * How the end of `extract` finishes: ZeroDivisionError for a strip of
   * width 0, KeyError when the drill goes deeper without an extraction
   * alarm (the alarms were cleared), and otherwise whether it went deeper.
   */
  function DeliverOutcome(spanX: int, oreCol: int, alarms: map<string, real>): (r: Result<bool>)
    ensures r.Ok? <==> spanX != 0 && (Deepens(spanX, oreCol) ==> "extract" in alarms)
    ensures r.Ok? ==> r.value == Deepens(spanX, oreCol)
  {
    if spanX == 0 then Err(ZeroDivision)
    else if oreCol % spanX != 0 then Ok(false)
    else if "extract" !in alarms then Err(KeyError)
    else Ok(true)
  }

  /** What a drill is restored from. */
  datatype DrillSave = DrillSave(
    mapSlice: Slice, oreData: map<string, OreEntry>, targetOre: Option<string>,
    numOreAvailable: int, oreCol: int, oreRow: int)

  class Drill {
    const variant: Variant
    /** The shared tile grid and the registry. */
    const tiles: array2<int>
    const reg: Registry
    const inv: Inv
    const spanX: int
    const spanY: int
    const mapSlice: Slice
    /** The ids of air, dirt and 'item extended', which are never ore. */
    const ignoreIds: set<int>
    const oreData: map<string, OreEntry>
    var targetOre: Option<string>
    var numOreAvailable: int
    var oreCol: int
    var oreRow: int
    /** The lengths of the drill's alarms by name: 'extract', and 'burn fuel' for a burner drill. */
    var alarms: map<string, real>
    var active: bool

    /** The grid is the map's, air has an id, the strip's width is not negative and the inventory is well formed. */
    ghost predicate Valid()
      reads this, inv
    {
      IsMap(tiles) && "air" in reg.namesToIds && spanX >= 0 && inv.Valid()
    }

    /**
     * `Drill.__init__` with the burner or electric subclass: the strip below
     * the rectangle, its ore data, no target yet, and the extraction alarm
     * (and the fuel alarm of a burner drill) set for the current row. Save
     * data restores the strip, the ore data and the counters.
     */
    constructor (variant: Variant, tiles: array2<int>, reg: Registry, rect: Rect, saved: Option<DrillSave>)
      requires IsMap(tiles) && rect.w >= 0
      requires "air" in reg.namesToIds && "dirt" in reg.namesToIds && "item extended" in reg.namesToIds
      requires saved.None? ==> OnMap(SliceBounds(rect)) && Named(reg, MapSlice(tiles, SliceBounds(rect)))
      ensures Valid() && fresh(inv) && fresh(inv.output)
      ensures this.variant == variant && this.tiles == tiles && this.reg == reg && !active
      ensures var b := SliceBounds(rect); spanX == b.maxX - b.minX && spanY == b.maxY - b.minY
      ensures ignoreIds == {reg.namesToIds["air"], reg.namesToIds["dirt"], reg.namesToIds["item extended"]}
      ensures saved.None? ==>
        mapSlice == MapSlice(tiles, SliceBounds(rect)) && oreData == OreData(reg, mapSlice, ignoreIds)
        && targetOre.None? && numOreAvailable == 0 && oreCol == 0 && oreRow == 0
      ensures saved.Some? ==>
        mapSlice == saved.value.mapSlice && oreData == saved.value.oreData && targetOre == saved.value.targetOre
        && numOreAvailable == saved.value.numOreAvailable && oreCol == saved.value.oreCol && oreRow == saved.value.oreRow
      ensures alarms == if variant == Burner
        then map["extract" := ExtractLength(variant, oreRow), "burn fuel" := ExtractLength(variant, oreRow)]
        else map["extract" := ExtractLength(variant, oreRow)]
      ensures variant == Burner ==>
        inv.inputKeys == ["fuel"] && "fuel" in inv.inputSlots && fresh(inv.inputSlots["fuel"])
        && inv.inputSlots["fuel"].item.None? && inv.inputSlots["fuel"].amount == 0
        && inv.inputSlots["fuel"].validInputs == Some({"wood", "coal"})
        && inv.inputSlots["fuel"].maxCapacity == BURNER_FUEL_CAPACITY
      ensures variant == Electric ==> inv.inputKeys == [] && inv.inputSlots == map[]
      ensures inv.output.item.None? && inv.output.amount == 0
    {
      var b := SliceBounds(rect);
      this.variant := variant;
      this.tiles := tiles;
      this.reg := reg;
      var slots := new Inv([], map[]);
      inv := slots;
      spanX := b.maxX - b.minX;
      spanY := b.maxY - b.minY;
      var ignore := {reg.namesToIds["air"], reg.namesToIds["dirt"], reg.namesToIds["item extended"]};
      ignoreIds := ignore;
      if saved.Some? {
        mapSlice := saved.value.mapSlice;
        oreData := saved.value.oreData;
        targetOre := saved.value.targetOre;
        numOreAvailable := saved.value.numOreAvailable;
        oreCol := saved.value.oreCol;
        oreRow := saved.value.oreRow;
      } else {
        var s := MapSlice(tiles, b);
        mapSlice := s;
        oreData := OreData(reg, s, ignore);
        targetOre := None;
        numOreAvailable := 0;
        oreCol := 0;
        oreRow := 0;
      }
      active := false;
      new;
      var length := ExtractLength(variant, oreRow);
      alarms := map["extract" := length];
      if variant == Burner {
        var fuel := new InvSlot(None, Some({"wood", "coal"}), BURNER_FUEL_CAPACITY);
        slots.inputKeys := ["fuel"];
        slots.inputSlots := map["fuel" := fuel];
        alarms := alarms["burn fuel" := length];
      }
    }

    /** `get_neighbor_dirs`: the four directions, each dropped in turn when its condition says so. */
    method GetNeighborDirs(t: Coord) returns (dirs: seq<Coord>)
      ensures dirs == NeighborDirs(t, oreRow)
    {
      StepLeft(t, oreRow);
      StepRight(t, oreRow);
      NeighborDirsShape(t, oreRow);
      dirs := [UP, RIGHT, DOWN, LEFT];
      if !(oreRow > 1) {
        dirs := RemoveFirst(dirs, UP);
      }
      if t.0 == 0 {
        dirs := RemoveFirst(dirs, LEFT);
      }
      if t.0 == MAP_W - 1 {
        dirs := RemoveFirst(dirs, RIGHT);
      }
      if t.1 == MAP_H - 1 {
        dirs := RemoveFirst(dirs, DOWN);
      }
    }

    /**
     * The corrected `convert_tile`: the tile takes the vote of its
     * neighbours' ids. Nothing else on the map changes. The source turns a
     * tile without neighbours into air, but a tile on the map always has one
     * (`NeighborDirsNonEmpty`).
     */
    method ConvertTile(t: Coord, pick: nat)
      requires Valid() && InMap(t)
      modifies tiles
      ensures var ds := NeighborDirs(t, oreRow);
        ds != []
        && (forall k :: 0 <= k < |ds| ==> -MAP_W <= t.0 + ds[k].0 < MAP_W && -MAP_H <= t.1 + ds[k].1 < MAP_H)
        && tiles[t.0, t.1] == Vote(old(NeighborIds(tiles, t, ds)), pick)
      ensures forall i, j :: 0 <= i < MAP_W && 0 <= j < MAP_H && (i, j) != t ==> tiles[i, j] == old(tiles[i, j])
    {
      var dirs := GetNeighborDirs(t);
      NeighborDirsNonEmpty(t, oreRow);
      forall k | 0 <= k < |dirs|
        ensures -MAP_W <= t.0 + dirs[k].0 < MAP_W && -MAP_H <= t.1 + dirs[k].1 < MAP_H
      {
        NeighborsOnMap(t, oreRow, dirs[k]);
      }
      var vals := NeighborIds(tiles, t, dirs);
      tiles[t.0, t.1] := Vote(vals, pick);
    }

    /**
     * `convert_tile` as written: the neighbour is read at `tile_xy + xy`,
     * which joins the two pairs into one 4-tuple, and a 4-tuple index on the
     * 2-D grid raises IndexError. A tile on the map always has a neighbour
     * to look at, so every call raises before anything is written.
     */
    method ConvertTileAsWritten(t: Coord) returns (r: Result<bool>)
      requires Valid() && InMap(t)
      ensures r == Err(IndexError)
    {
      var dirs := GetNeighborDirs(t);
      NeighborDirsNonEmpty(t, oreRow);
      if dirs != [] {
        r := Err(IndexError);
      } else {
        assert false;
      }
    }

    /**
     * The end of `extract`: one more unit in the output slot, tagged with the
     * target ore if it held nothing; then the row, the alarms and the outcome
     * as `Deepens`, `SlowedAlarms` and `DeliverOutcome` give them.
     */
    method Deliver() returns (r: Result<bool>)
      requires Valid()
      modifies inv.output, this`oreRow, this`alarms
      ensures inv.output.amount == old(inv.output.amount) + 1
      ensures inv.output.item == if Truthy(old(inv.output.item)) then old(inv.output.item) else targetOre
      ensures r == DeliverOutcome(spanX, oreCol, old(alarms))
      ensures oreRow == old(oreRow) + (if Deepens(spanX, oreCol) then 1 else 0)
      ensures alarms == SlowedAlarms(spanX, oreCol, old(alarms))
      ensures inv.output.rect == old(inv.output.rect) && inv.output.validInputs == old(inv.output.validInputs)
      ensures inv.output.maxCapacity == old(inv.output.maxCapacity)
    {
      inv.output.amount := inv.output.amount + 1;
      if !Truthy(inv.output.item) {
        inv.output.item := targetOre;
      }
      if spanX == 0 {
        return Err(ZeroDivision);
      }
      r := Ok(false);
      if oreCol % spanX == 0 {
        oreRow := oreRow + 1;
        if "extract" !in alarms {
          return Err(KeyError);
        }
        alarms := alarms["extract" := alarms["extract"] * EXTRACT_TIME_FACTOR];
        r := Ok(true);
      }
    }

    /**
     * The corrected `extract`, given the ore tile `oreXY` it works on: one
     * unit less available, the tile converted when that was the last unit,
     * then the delivery. The result says, when no error was raised, whether
     * the drill went a row deeper.
     */
    method Extract(oreXY: Coord, pick: nat) returns (r: Result<bool>)
      requires Valid() && InMap(oreXY)
      modifies this`numOreAvailable, this`oreRow, this`alarms, inv.output, tiles
      ensures numOreAvailable == old(numOreAvailable) - 1
      ensures numOreAvailable != 0 ==> unchanged(tiles)
      ensures numOreAvailable == 0 ==>
        var ds := NeighborDirs(oreXY, old(oreRow));
        (forall k :: 0 <= k < |ds| ==> -MAP_W <= oreXY.0 + ds[k].0 < MAP_W && -MAP_H <= oreXY.1 + ds[k].1 < MAP_H)
        && tiles[oreXY.0, oreXY.1] == Vote(old(NeighborIds(tiles, oreXY, ds)), pick)
      ensures forall i, j :: 0 <= i < MAP_W && 0 <= j < MAP_H && (i, j) != oreXY ==> tiles[i, j] == old(tiles[i, j])
      ensures inv.output.amount == old(inv.output.amount) + 1
      ensures inv.output.item == if Truthy(old(inv.output.item)) then old(inv.output.item) else targetOre
      ensures r == DeliverOutcome(spanX, oreCol, old(alarms))
      ensures oreRow == old(oreRow) + (if Deepens(spanX, oreCol) then 1 else 0)
      ensures alarms == SlowedAlarms(spanX, oreCol, old(alarms))
    {
      numOreAvailable := numOreAvailable - 1;
      if numOreAvailable == 0 {
        ConvertTile(oreXY, pick);
      }
      r := Deliver();
    }

    /**
     * `extract` as written: when the last unit goes, it reads the undefined
     * attribute `ore_xy` and raises AttributeError, with the counter already
     * down and nothing delivered. Otherwise it goes on as the corrected one.
     */
    method ExtractAsWritten() returns (r: Result<bool>)
      requires Valid()
      modifies this`numOreAvailable, this`oreRow, this`alarms, inv.output
      ensures numOreAvailable == old(numOreAvailable) - 1
      ensures numOreAvailable == 0 ==>
        r == Err(AttributeError) && oreRow == old(oreRow) && alarms == old(alarms)
        && inv.output.amount == old(inv.output.amount) && inv.output.item == old(inv.output.item)
      ensures numOreAvailable != 0 ==>
        inv.output.amount == old(inv.output.amount) + 1 && r == DeliverOutcome(spanX, oreCol, old(alarms))
        && oreRow == old(oreRow) + (if Deepens(spanX, oreCol) then 1 else 0)
    {
      numOreAvailable := numOreAvailable - 1;
      if numOreAvailable == 0 {
        return Err(AttributeError);
      }
      r := Deliver();
    }

    /**
     * The corrected `burn_fuel` of a burner drill: one unit of fuel burnt,
     * and the slot emptied of its item once the last unit is gone.
     */
    method BurnFuel()
      requires Valid() && "fuel" in inv.inputSlots
      modifies inv.inputSlots["fuel"]
      ensures var fuel := inv.inputSlots["fuel"];
        fuel.amount == old(fuel.amount) - 1
        && fuel.item == (if fuel.amount == 0 then None else old(fuel.item))
        && fuel.validInputs == old(fuel.validInputs) && fuel.maxCapacity == old(fuel.maxCapacity)
    {
      var fuel := inv.inputSlots["fuel"];
      fuel.amount := fuel.amount - 1;
      if fuel.amount == 0 {
        fuel.item := None;
      }
    }

    /**
     * `burn_fuel` as written: emptying the slot goes through `self.self`,
     * which raises AttributeError, so the slot keeps the item of the fuel
     * it no longer holds.
     */
    method BurnFuelAsWritten() returns (r: Result<bool>)
      requires Valid() && "fuel" in inv.inputSlots
      modifies inv.inputSlots["fuel"]
      ensures var fuel := inv.inputSlots["fuel"];
        fuel.amount == old(fuel.amount) - 1 && fuel.item == old(fuel.item)
        && (r.Err? <==> fuel.amount == 0) && (r.Err? ==> r.error == AttributeError)
    {
      var fuel := inv.inputSlots["fuel"];
      fuel.amount := fuel.amount - 1;
      if fuel.amount == 0 {
        return Err(AttributeError);
      }
      r := Ok(true);
    }

    /** The condition `get_active_state` tests: fuel in the fuel slot and room in the output. */
    predicate Runnable()
      reads this, inv, inv.output, inv.inputSlots.Values
      requires "fuel" in inv.inputSlots
    {
      Truthy(inv.inputSlots["fuel"].item) && inv.output.amount < BURNER_OUTPUT_CAPACITY
    }

    /**
     * `get_active_state`: afterwards the drill is active exactly when it can
     * run; a running drill that cannot run any more also loses its alarms.
     * An electric drill has no fuel slot (its input slots are None), so the
     * lookup raises TypeError.
     */
    method GetActiveState() returns (r: Result<bool>)
      modifies this`active, this`alarms
      ensures "fuel" !in inv.inputSlots ==> r == Err(TypeError) && active == old(active) && alarms == old(alarms)
      ensures "fuel" in inv.inputSlots ==>
        r == Ok(active) && (active <==> Runnable())
        && alarms == (if old(active) && !Runnable() then map[] else old(alarms))
    {
      if "fuel" !in inv.inputSlots {
        return Err(TypeError);
      }
      var conditions := Runnable();
      if !active {
        if conditions {
          active := true;
        }
      } else if !conditions {
        active := false;
        alarms := map[];
      }
      r := Ok(active);
    }
  }
}
