/**
 * Lakes: the valley search along the surface of the lake biomes and the
 * carving of each accepted valley into a basin of water with air above it.
 */
module Lakes {
  import opened Wrappers
  import opened Settings
  import opened PyNum
  import opened TileRegistry
  import opened Grids
  import opened Terrain

  /** A valley: the surface columns and rows where it starts and ends. */
  datatype MapSlice = MapSlice(startX: int, startY: int, endX: int, endY: int)
  {
    function Width(): int { endX - startX }
  }

  const MIN_WIDTH := 8
  /** Half a screen of tiles. */
  const MAX_WIDTH := 40
  const MIN_DEPTH := 4
  const MAX_DEPTH := 16

  /** The biomes with a 'lake prob', in biome order. */
  const LAKE_BIOMES: seq<Biome> := [Forest, Taiga]

  lemma LakeBiomes()
    ensures forall b :: b in LAKE_BIOMES <==> LakeProb(b).Some?
    ensures BiomeIndex(LAKE_BIOMES[0]) < BiomeIndex(LAKE_BIOMES[1])
    ensures MAX_WIDTH == (RES_W / TILE_SIZE) / 2
  {
  }

  /**
   * What every accepted valley satisfies: it lies within one lake biome, is
   * 8 to 40 columns wide, starts and ends on surface tiles, ends higher than it
   * starts, no column strictly inside rises above its start, and the lake roll
   * of its closing column came in under the biome's lake probability.
   */
  predicate ValleyOk(surf: seq<int>, rolls: int -> int, v: MapSlice)
    requires SurfaceOk(surf)
  {
    0 <= v.startX < v.endX < MAP_W
    && ColumnBiome(v.startX) in LAKE_BIOMES && ColumnBiome(v.endX) == ColumnBiome(v.startX)
    && MIN_WIDTH <= v.Width() <= MAX_WIDTH
    && v.startY == surf[v.startX] && v.endY == surf[v.endX] && v.endY < v.startY
    && (forall c :: v.startX < c < v.endX ==> surf[c] >= v.startY)
    && rolls(v.endX) < LakeProb(ColumnBiome(v.endX)).value
  }

  /** Each valley starts at least the previous one's width after the previous one ends. */
  predicate Spaced(vs: seq<MapSlice>)
  {
    forall k :: 0 < k < |vs| ==> vs[k].startX - vs[k - 1].endX >= vs[k - 1].Width()
  }

  predicate AllOk(surf: seq<int>, rolls: int -> int, vs: seq<MapSlice>)
    requires SurfaceOk(surf)
  {
    forall k :: 0 <= k < |vs| ==> ValleyOk(surf, rolls, vs[k])
  }

  /** Spacing makes the valleys strictly left to right: any later valley starts past any earlier one's end. */
  lemma {:induction false} SpacedOrdered(surf: seq<int>, rolls: int -> int, vs: seq<MapSlice>, i: nat, j: nat)
    requires SurfaceOk(surf) && AllOk(surf, rolls, vs) && Spaced(vs)
    requires i < j < |vs|
    ensures vs[i].endX + vs[i].Width() <= vs[j].startX
    decreases j
  {
    if j > i + 1 {
      SpacedOrdered(surf, rolls, vs, i, j - 1);
      assert ValleyOk(surf, rolls, vs[j - 1]);
    }
  }

  /** Hence the column ranges `[startX, endX)` of two valleys never overlap. */
  predicate Disjoint(vs: seq<MapSlice>)
  {
    (forall k :: 0 <= k < |vs| ==> vs[k].startX < vs[k].endX)
    && forall i, j :: 0 <= i < j < |vs| ==> vs[i].endX <= vs[j].startX
  }

  lemma ValleysDisjoint(surf: seq<int>, rolls: int -> int, vs: seq<MapSlice>)
    requires SurfaceOk(surf) && AllOk(surf, rolls, vs) && Spaced(vs)
    ensures Disjoint(vs)
  {
    forall i, j | 0 <= i < j < |vs|
      ensures vs[i].endX <= vs[j].startX
    {
      SpacedOrdered(surf, rolls, vs, i, j);
    }
  }

  /** Keeping a valid valley keeps every valley valid. */
  lemma AppendOk(surf: seq<int>, rolls: int -> int, vs: seq<MapSlice>, v: MapSlice)
    requires SurfaceOk(surf) && AllOk(surf, rolls, vs) && ValleyOk(surf, rolls, v)
    ensures AllOk(surf, rolls, vs + [v])
  {
    var ws := vs + [v];
    forall k | 0 <= k < |ws|
      ensures ValleyOk(surf, rolls, ws[k])
    {
      if k < |vs| {
        assert ws[k] == vs[k];
      }
    }
  }

  /** Keeping a valley that passed the spacing test keeps the list spaced, and keeps the earlier valleys in place. */
  lemma AppendSpaced(valleys: seq<MapSlice>, vs: seq<MapSlice>, v: MapSlice, lo: int, hi: int)
    requires Spaced(vs)
    requires |vs| == 0 || v.startX - vs[|vs| - 1].endX >= vs[|vs| - 1].Width()
    requires |valleys| <= |vs| && vs[..|valleys|] == valleys
    requires forall k :: |valleys| <= k < |vs| ==> lo <= vs[k].startX < hi
    requires lo <= v.startX < hi
    ensures Spaced(vs + [v])
    ensures (vs + [v])[..|valleys|] == valleys
    ensures forall k :: |valleys| <= k < |vs + [v]| ==> lo <= (vs + [v])[k].startX < hi
  {
    var ws := vs + [v];
    assert ws[..|valleys|] == vs[..|valleys|];
    forall k | 0 < k < |ws|
      ensures ws[k].startX - ws[k - 1].endX >= ws[k - 1].Width()
    {
      if k < |vs| {
        assert ws[k] == vs[k] && ws[k - 1] == vs[k - 1];
      }
    }
  }

  /** A candidate valley of biome `b` closed at column `x` is a valid valley when wide enough and lucky. */
  lemma CandidateOk(surf: seq<int>, rolls: int -> int, b: Biome, startX: int, x: int)
    requires SurfaceOk(surf) && b in LAKE_BIOMES
    requires BiomeStart(b) <= startX < x < BiomeStart(b) + BIOME_WIDTH
    requires MIN_WIDTH <= x - startX <= MAX_WIDTH && surf[x] < surf[startX]
    requires forall c :: startX < c < x ==> surf[c] >= surf[startX]
    requires rolls(x) < LakeProb(b).value
    ensures ValleyOk(surf, rolls, MapSlice(startX, surf[startX], x, surf[x]))
  {
    ColumnsOfBiome(b, startX);
    ColumnsOfBiome(b, x);
  }

  /** `out` is `valleys` followed by valid valleys starting in `[lo, hi)`, and the whole list is valid and spaced. */
  predicate Extends(surf: seq<int>, rolls: int -> int, valleys: seq<MapSlice>, out: seq<MapSlice>, lo: int, hi: int)
    requires SurfaceOk(surf)
  {
    |valleys| <= |out| && out[..|valleys|] == valleys
    && AllOk(surf, rolls, out) && Spaced(out)
    && forall k :: |valleys| <= k < |out| ==> lo <= out[k].startX < hi
  }

  /** Keeping a closed candidate valley that passed the width, roll and spacing tests keeps the list an extension. */
  lemma KeepValley(surf: seq<int>, rolls: int -> int, b: Biome, valleys: seq<MapSlice>, out: seq<MapSlice>, startX: int, x: int)
    requires SurfaceOk(surf) && b in LAKE_BIOMES
    requires Extends(surf, rolls, valleys, out, BiomeStart(b), BiomeStart(b) + BIOME_WIDTH)
    requires BiomeStart(b) <= startX < x < BiomeStart(b) + BIOME_WIDTH
    requires MIN_WIDTH <= x - startX <= MAX_WIDTH && surf[x] < surf[startX]
    requires forall c :: startX < c < x ==> surf[c] >= surf[startX]
    requires rolls(x) < LakeProb(b).value
    requires |out| == 0 || startX - out[|out| - 1].endX >= out[|out| - 1].Width()
    ensures Extends(surf, rolls, valleys, out + [MapSlice(startX, surf[startX], x, surf[x])], BiomeStart(b), BiomeStart(b) + BIOME_WIDTH)
  {
    var v := MapSlice(startX, surf[startX], x, surf[x]);
    CandidateOk(surf, rolls, b, startX, x);
    AppendOk(surf, rolls, out, v);
    AppendSpaced(valleys, out, v, BiomeStart(b), BiomeStart(b) + BIOME_WIDTH);
  }

  /**
   * One column of the valley search of biome `b`, from the state (candidate
   * start column, valleys kept): a candidate wider than the widest lake is
   * restarted at `x`; a column lower than the candidate's start closes it,
   * keeps it when wide enough, lucky and far enough from the last valley kept,
   * and starts the next candidate at `x`; any other column extends it.
   */
  function ValleyStep(surf: seq<int>, rolls: int -> int, b: Biome, st: (int, seq<MapSlice>), x: int): (r: (int, seq<MapSlice>))
    requires SurfaceOk(surf) && b in LAKE_BIOMES && 0 <= st.0 < x < MAP_W
    ensures r.0 == st.0 || r.0 == x
    ensures r.1 == st.1 || r.1 == st.1 + [MapSlice(st.0, surf[st.0], x, surf[x])]
  {
    var (startX, out) := st;
    if x - startX > MAX_WIDTH then (x, out)
    else if surf[x] < surf[startX] then
      var keep := x - startX >= MIN_WIDTH && rolls(x) < LakeProb(b).value
        && (|out| == 0 || startX - out[|out| - 1].endX >= out[|out| - 1].Width());
      (x, if keep then out + [MapSlice(startX, surf[startX], x, surf[x])] else out)
    else (startX, out)
  }

  /** The search state of biome `b` once the columns before `x` have been walked, starting from the valleys `valleys`. */
  function ValleyRun(surf: seq<int>, rolls: int -> int, b: Biome, valleys: seq<MapSlice>, x: int): (st: (int, seq<MapSlice>))
    requires SurfaceOk(surf) && b in LAKE_BIOMES && BiomeStart(b) < x <= BiomeStart(b) + BIOME_WIDTH
    ensures BiomeStart(b) <= st.0 < x
    decreases x
  {
    if x == BiomeStart(b) + 1 then (BiomeStart(b), valleys)
    else ValleyStep(surf, rolls, b, ValleyRun(surf, rolls, b, valleys, x - 1), x - 1)
  }

  /** The valleys after the whole of biome `b` has been searched. */
  function ValleyScan(surf: seq<int>, rolls: int -> int, b: Biome, valleys: seq<MapSlice>): seq<MapSlice>
    requires SurfaceOk(surf) && b in LAKE_BIOMES
  {
    ValleyRun(surf, rolls, b, valleys, BiomeStart(b) + BIOME_WIDTH).1
  }

  /** The valleys of the first `i` lake biomes, searched in biome order. */
  function LakeValleys(surf: seq<int>, rolls: int -> int, i: nat): seq<MapSlice>
    requires SurfaceOk(surf) && i <= |LAKE_BIOMES|
  {
    if i == 0 then [] else ValleyScan(surf, rolls, LAKE_BIOMES[i - 1], LakeValleys(surf, rolls, i - 1))
  }

  /**
   * What the search keeps true from state `st` before column `x`: no column
   * after the candidate's start rises above it, and the valleys kept extend the
   * earlier ones with valid, spaced valleys of biome `b`.
   */
  predicate SearchOk(surf: seq<int>, rolls: int -> int, b: Biome, valleys: seq<MapSlice>, st: (int, seq<MapSlice>), x: int)
    requires SurfaceOk(surf) && b in LAKE_BIOMES && BiomeStart(b) <= st.0 < x <= BiomeStart(b) + BIOME_WIDTH
  {
    (forall c :: st.0 < c < x ==> surf[c] >= surf[st.0])
    && Extends(surf, rolls, valleys, st.1, BiomeStart(b), BiomeStart(b) + BIOME_WIDTH)
  }

  /** One column of the search keeps what it keeps true. */
  lemma ValleyStepOk(surf: seq<int>, rolls: int -> int, b: Biome, valleys: seq<MapSlice>, st: (int, seq<MapSlice>), x: int)
    requires SurfaceOk(surf) && b in LAKE_BIOMES && BiomeStart(b) <= st.0 < x < BiomeStart(b) + BIOME_WIDTH
    requires SearchOk(surf, rolls, b, valleys, st, x)
    ensures SearchOk(surf, rolls, b, valleys, ValleyStep(surf, rolls, b, st, x), x + 1)
  {
    var startX, out := st.0, st.1;
    if x - startX <= MAX_WIDTH && surf[x] < surf[startX] && x - startX >= MIN_WIDTH && rolls(x) < LakeProb(b).value
      && (|out| == 0 || startX - out[|out| - 1].endX >= out[|out| - 1].Width())
    {
      KeepValley(surf, rolls, b, valleys, out, startX, x);
    }
  }

  /** The search keeps `SearchOk` over every column it walks. */
  lemma {:induction false} ValleyRunOk(surf: seq<int>, rolls: int -> int, b: Biome, valleys: seq<MapSlice>, x: int)
    requires SurfaceOk(surf) && b in LAKE_BIOMES && BiomeStart(b) < x <= BiomeStart(b) + BIOME_WIDTH
    requires AllOk(surf, rolls, valleys) && Spaced(valleys)
    ensures SearchOk(surf, rolls, b, valleys, ValleyRun(surf, rolls, b, valleys, x), x)
    decreases x
  {
    if x == BiomeStart(b) + 1 {
      assert valleys[..|valleys|] == valleys;
    } else {
      ValleyRunOk(surf, rolls, b, valleys, x - 1);
      ValleyStepOk(surf, rolls, b, valleys, ValleyRun(surf, rolls, b, valleys, x - 1), x - 1);
    }
  }

  /** Every valley `ValleyScan` adds is valid and spaced, and starts inside biome `b`. */
  lemma ValleyScanOk(surf: seq<int>, rolls: int -> int, b: Biome, valleys: seq<MapSlice>)
    requires SurfaceOk(surf) && b in LAKE_BIOMES && AllOk(surf, rolls, valleys) && Spaced(valleys)
    ensures Extends(surf, rolls, valleys, ValleyScan(surf, rolls, b, valleys), BiomeStart(b), BiomeStart(b) + BIOME_WIDTH)
  {
    ValleyRunOk(surf, rolls, b, valleys, BiomeStart(b) + BIOME_WIDTH);
  }

  /** The valleys of the lake biomes are all valid, spaced and pairwise disjoint. */
  lemma {:induction false} LakeValleysOk(surf: seq<int>, rolls: int -> int, i: nat)
    requires SurfaceOk(surf) && i <= |LAKE_BIOMES|
    ensures AllOk(surf, rolls, LakeValleys(surf, rolls, i)) && Spaced(LakeValleys(surf, rolls, i))
    ensures Disjoint(LakeValleys(surf, rolls, i))
  {
    if i > 0 {
      LakeValleysOk(surf, rolls, i - 1);
      ValleyScanOk(surf, rolls, LAKE_BIOMES[i - 1], LakeValleys(surf, rolls, i - 1));
    }
    ValleysDisjoint(surf, rolls, LakeValleys(surf, rolls, i));
  }

  /**
   * One lake biome of `get_valley_locations`: walks the biome's columns,
   * restarting the candidate valley whenever it grows past the widest lake or
   * the surface climbs above its start, and keeping a closed valley that is
   * wide enough, wins its roll and is far enough from the last valley kept.
   */
  method ScanBiome(surf: seq<int>, rolls: int -> int, b: Biome, valleys: seq<MapSlice>) returns (out: seq<MapSlice>)
    requires SurfaceOk(surf) && b in LAKE_BIOMES
    ensures out == ValleyScan(surf, rolls, b, valleys)
  {
    out := valleys;
    var lo := BiomeStart(b);
    var startX := lo;
    var endX := startX + BIOME_WIDTH;
    var startY := surf[startX];
    var x := startX + 1;
    while x < endX
      invariant lo < x <= endX && endX == lo + BIOME_WIDTH && lo == BiomeStart(b)
      invariant (startX, out) == ValleyRun(surf, rolls, b, valleys, x) && startY == surf[startX]
    {
      var y := surf[x];
      if x - startX > MAX_WIDTH {
        startX, startY := x, y;
        x := x + 1;
        continue;
      }
      if y < startY {
        if x - startX >= MIN_WIDTH && rolls(x) < LakeProb(b).value {
          if |out| == 0 || startX - out[|out| - 1].endX >= out[|out| - 1].Width() {
            out := out + [MapSlice(startX, startY, x, y)];
          }
        }
        startX, startY := x, y;
        x := x + 1;
        continue;
      }
      x := x + 1;
    }
  }

  /** `get_valley_locations`: the valleys of the lake biomes in order, each checked against the last one kept overall. */
  method GetValleyLocations(surf: seq<int>, rolls: int -> int) returns (valleys: seq<MapSlice>)
    requires SurfaceOk(surf)
    ensures valleys == LakeValleys(surf, rolls, |LAKE_BIOMES|)
    ensures AllOk(surf, rolls, valleys) && Spaced(valleys) && Disjoint(valleys)
  {
    valleys := [];
    var i := 0;
    while i < |LAKE_BIOMES|
      invariant 0 <= i <= |LAKE_BIOMES| && valleys == LakeValleys(surf, rolls, i)
    {
      valleys := ScanBiome(surf, rolls, LAKE_BIOMES[i], valleys);
      i := i + 1;
    }
    LakeValleysOk(surf, rolls, i);
  }

  // ---- Carving ----

  /** LakeGen's own ramp set: the ids of all registered names containing 'ramp'. */
  function LakeRampIds(reg: Registry): set<int>
  {
    set k | k in reg.namesToIds && Contains(k, "ramp") :: reg.namesToIds[k]
  }

  /**
   * The top row of the water: the deeper of the two rims, which is the start
   * row, one lower when the rim tile is a ramp so the water stops under the
   * next full tile.
   */
  function FillPeak(tiles: array2<int>, reg: Registry, v: MapSlice): (p: int)
    reads tiles
    requires IsMap(tiles) && 0 <= v.startX < MAP_W && 0 <= v.endX < MAP_W && 0 <= v.startY < MAP_H && 0 <= v.endY < MAP_H
    ensures v.endY < v.startY ==> p == v.startY || p == v.startY + 1
  {
    var peak := Max(v.startY, v.endY);
    var rimX := if peak == v.startY then v.startX else v.endX;
    if tiles[rimX, peak] in LakeRampIds(reg) then peak + 1 else peak
  }

  /** The valley whose columns `[startX, endX)` contain `x`, the last such one. */
  function ValleyAt(vs: seq<MapSlice>, x: int): (r: Option<nat>)
    ensures r.Some? ==> r.value < |vs| && vs[r.value].startX <= x < vs[r.value].endX
    ensures r.None? ==> forall k :: 0 <= k < |vs| ==> !(vs[k].startX <= x < vs[k].endX)
    decreases |vs|
  {
    if |vs| == 0 then None
    else if vs[|vs| - 1].startX <= x < vs[|vs| - 1].endX then Some(|vs| - 1)
    else ValleyAt(vs[..|vs| - 1], x)
  }

  /** For disjoint valleys the valley of a column is the only one containing it. */
  lemma ValleyAtUnique(vs: seq<MapSlice>, x: int, k: nat)
    requires Disjoint(vs) && k < |vs| && vs[k].startX <= x < vs[k].endX
    ensures ValleyAt(vs, x) == Some(k)
  {
  }

  /** Every valley lies on the map, which is all that carving needs of it. */
  predicate OnMap(vs: seq<MapSlice>)
  {
    forall k :: 0 <= k < |vs| ==>
      0 <= vs[k].startX < MAP_W && 0 <= vs[k].endX < MAP_W && 0 <= vs[k].startY < MAP_H && 0 <= vs[k].endY < MAP_H
  }

  /** The fill peak of every valley, read off the grid. */
  function Peaks(tiles: array2<int>, reg: Registry, vs: seq<MapSlice>): (ps: seq<int>)
    reads tiles
    requires IsMap(tiles) && OnMap(vs)
    ensures |ps| == |vs| && forall k :: 0 <= k < |vs| ==> ps[k] == FillPeak(tiles, reg, vs[k])
  {
    seq(|vs|, k requires 0 <= k < |vs| reads tiles => FillPeak(tiles, reg, vs[k]))
  }

  /** A water cell: in a valley's columns, from its fill peak down to its floor. */
  predicate LakeCell(vs: seq<MapSlice>, peaks: seq<int>, depths: seq<int>, x: int, y: int)
    requires |peaks| == |vs| && |depths| == |vs|
  {
    var k := ValleyAt(vs, x);
    k.Some? && peaks[k.value] <= y < peaks[k.value] + depths[k.value]
  }

  /** A cell cleared to air: in a valley's columns, above its fill peak. */
  predicate AirCell(vs: seq<MapSlice>, peaks: seq<int>, x: int, y: int)
    requires |peaks| == |vs|
  {
    var k := ValleyAt(vs, x);
    k.Some? && y < peaks[k.value]
  }

  /** The loop body of `LakeGen.gen_map` for one valley: water from the peak to the floor, air above the peak. */
  method CarveValley(tiles: array2<int>, lakeMap: array2<bool>, air: int, v: MapSlice, peak: int, floor: int)
    requires IsMap(tiles) && IsMap(lakeMap) && 0 <= v.startX && v.endX <= MAP_W && 0 <= peak
    modifies tiles, lakeMap
    ensures forall i, j :: 0 <= i < MAP_W && 0 <= j < MAP_H ==>
      lakeMap[i, j] == if v.startX <= i < v.endX && peak <= j < floor then true else old(lakeMap[i, j])
    ensures forall i, j :: 0 <= i < MAP_W && 0 <= j < MAP_H ==>
      tiles[i, j] == if v.startX <= i < v.endX && j < peak then air else old(tiles[i, j])
  {
    var x := v.startX;
    while x < v.endX
      invariant v.startX <= x && (x == v.startX || x <= v.endX)
      invariant forall i, j :: 0 <= i < MAP_W && 0 <= j < MAP_H ==>
        lakeMap[i, j] == if v.startX <= i < x && peak <= j < floor then true else old(lakeMap[i, j])
      invariant forall i, j :: 0 <= i < MAP_W && 0 <= j < MAP_H ==>
        tiles[i, j] == if v.startX <= i < x && j < peak then air else old(tiles[i, j])
    {
      AssignColumnSlice(lakeMap, x, peak, floor, true);
      AssignColumnSlice(tiles, x, 0, peak, air);
      x := x + 1;
    }
  }

  /** Adding the valley `vs[k]` to the first `k` valleys changes the valley of its own columns only. */
  lemma ValleyAtExtend(vs: seq<MapSlice>, k: nat, x: int)
    requires k < |vs|
    ensures ValleyAt(vs[..k + 1], x) == if vs[k].startX <= x < vs[k].endX then Some(k) else ValleyAt(vs[..k], x)
  {
    assert vs[..k + 1][..k] == vs[..k];
  }

  /** Carving valley `k` after the first `k`: its columns get its own lake and air, every other column keeps what it had. */
  lemma CellsExtend(vs: seq<MapSlice>, peaks: seq<int>, depths: seq<int>, k: nat, x: int, y: int)
    requires Disjoint(vs) && |peaks| == |vs| && |depths| == |vs| && k < |vs|
    ensures LakeCell(vs[..k + 1], peaks[..k + 1], depths[..k + 1], x, y) ==
      if vs[k].startX <= x < vs[k].endX then peaks[k] <= y < peaks[k] + depths[k] else LakeCell(vs[..k], peaks[..k], depths[..k], x, y)
    ensures AirCell(vs[..k + 1], peaks[..k + 1], x, y) ==
      if vs[k].startX <= x < vs[k].endX then y < peaks[k] else AirCell(vs[..k], peaks[..k], x, y)
  {
    ValleyAtExtend(vs, k, x);
    if vs[k].startX <= x < vs[k].endX {
      assert ValleyAt(vs[..k + 1], x) == Some(k);
    } else {
      var r := ValleyAt(vs[..k], x);
      if r.Some? {
        assert peaks[..k + 1][r.value] == peaks[..k][r.value] && depths[..k + 1][r.value] == depths[..k][r.value];
      }
    }
  }

  /**
   * `LakeGen.gen_map` before the water is written: each valley, in order, gets
   * its lake in the mask and air above its fill peak. Because the valleys are
   * disjoint, every fill peak is the one read off the grid before carving.
   */
  method CarveLakes(tiles: array2<int>, reg: Registry, vs: seq<MapSlice>, depths: seq<int>) returns (lakeMap: array2<bool>)
    requires IsMap(tiles) && Complete(reg) && OnMap(vs) && Disjoint(vs) && |depths| == |vs|
    ensures fresh(lakeMap) && IsMap(lakeMap)
    modifies tiles
    ensures forall i, j :: 0 <= i < MAP_W && 0 <= j < MAP_H ==>
      lakeMap[i, j] == LakeCell(vs, old(Peaks(tiles, reg, vs)), depths, i, j)
    ensures forall i, j :: 0 <= i < MAP_W && 0 <= j < MAP_H ==>
      tiles[i, j] == if AirCell(vs, old(Peaks(tiles, reg, vs)), i, j) then Id(reg, "air") else old(tiles[i, j])
  {
    ghost var peaks := Peaks(tiles, reg, vs);
    ghost var orig := Snapshot(tiles);
    lakeMap := new bool[MAP_W, MAP_H]((i, j) => false);
    var air := Id(reg, "air");
    var k := 0;
    while k < |vs|
      invariant 0 <= k <= |vs|
      invariant forall i, j :: 0 <= i < MAP_W && 0 <= j < MAP_H ==>
        lakeMap[i, j] == LakeCell(vs[..k], peaks[..k], depths[..k], i, j)
      invariant forall i, j :: 0 <= i < MAP_W && 0 <= j < MAP_H ==>
        tiles[i, j] == if AirCell(vs[..k], peaks[..k], i, j) then air else orig[i][j]
    {
      var v := vs[k];
      assert ValleyAt(vs[..k], v.startX).None? && ValleyAt(vs[..k], v.endX).None?;
      var peak := FillPeak(tiles, reg, v);
      assert peak == peaks[k];
      CarveNext(tiles, lakeMap, air, vs, peaks, depths, k, peak, orig);
      k := k + 1;
    }
    assert vs[..k] == vs && peaks[..k] == peaks && depths[..k] == depths;
  }

  /** Carves valley `k` after the first `k`, keeping the loop's picture of both grids one valley further on. */
  method CarveNext(tiles: array2<int>, lakeMap: array2<bool>, air: int, vs: seq<MapSlice>, ghost peaks: seq<int>, depths: seq<int>,
                   k: nat, peak: int, ghost orig: seq<seq<int>>)
    requires IsMap(tiles) && IsMap(lakeMap) && GridShape(orig) && OnMap(vs) && Disjoint(vs)
    requires |peaks| == |vs| && |depths| == |vs| && k < |vs| && 0 <= peak == peaks[k]
    requires forall i, j :: 0 <= i < MAP_W && 0 <= j < MAP_H ==>
      lakeMap[i, j] == LakeCell(vs[..k], peaks[..k], depths[..k], i, j)
    requires forall i, j :: 0 <= i < MAP_W && 0 <= j < MAP_H ==>
      tiles[i, j] == if AirCell(vs[..k], peaks[..k], i, j) then air else orig[i][j]
    modifies tiles, lakeMap
    ensures forall i, j :: 0 <= i < MAP_W && 0 <= j < MAP_H ==>
      lakeMap[i, j] == LakeCell(vs[..k + 1], peaks[..k + 1], depths[..k + 1], i, j)
    ensures forall i, j :: 0 <= i < MAP_W && 0 <= j < MAP_H ==>
      tiles[i, j] == if AirCell(vs[..k + 1], peaks[..k + 1], i, j) then air else orig[i][j]
  {
    CarveValley(tiles, lakeMap, air, vs[k], peak, peak + depths[k]);
    forall i, j | 0 <= i < MAP_W && 0 <= j < MAP_H
      ensures lakeMap[i, j] == LakeCell(vs[..k + 1], peaks[..k + 1], depths[..k + 1], i, j)
      ensures tiles[i, j] == if AirCell(vs[..k + 1], peaks[..k + 1], i, j) then air else orig[i][j]
    {
      CellsExtend(vs, peaks, depths, k, i, j);
    }
  }

  /** `randint(MIN_DEPTH, MAX_DEPTH)` for each valley in turn. */
  function Depths(depthDraw: nat -> int, n: nat): (ds: seq<int>)
    ensures |ds| == n && forall k :: 0 <= k < n ==> ds[k] == depthDraw(k)
  {
    seq(n, k requires 0 <= k < n => depthDraw(k))
  }

  lemma AllOkOnMap(surf: seq<int>, rolls: int -> int, vs: seq<MapSlice>)
    requires SurfaceOk(surf) && AllOk(surf, rolls, vs)
    ensures OnMap(vs)
  {
    forall k | 0 <= k < |vs|
      ensures 0 <= vs[k].startY < MAP_H && 0 <= vs[k].endY < MAP_H
    {
      assert ValleyOk(surf, rolls, vs[k]);
    }
  }

  /**
   * `LakeGen`: find the valleys, carve them, then write water into every cell
   * of the lake mask. The result is water in each lake, air above each lake
   * within its columns, and the grid as it was everywhere else.
   */
  method GenLakes(tiles: array2<int>, reg: Registry, surf: seq<int>, rolls: int -> int, depthDraw: nat -> int)
    returns (valleys: seq<MapSlice>, lakeMap: array2<bool>)
    requires IsMap(tiles) && Complete(reg) && SurfaceOk(surf)
    modifies tiles
    ensures AllOk(surf, rolls, valleys) && Spaced(valleys) && Disjoint(valleys) && OnMap(valleys)
    ensures fresh(lakeMap) && IsMap(lakeMap)
    ensures forall i, j :: 0 <= i < MAP_W && 0 <= j < MAP_H ==>
      lakeMap[i, j] == LakeCell(valleys, old(Peaks(tiles, reg, valleys)), Depths(depthDraw, |valleys|), i, j)
    ensures forall i, j :: 0 <= i < MAP_W && 0 <= j < MAP_H ==>
      tiles[i, j] == if lakeMap[i, j] then Id(reg, "water")
                     else if AirCell(valleys, old(Peaks(tiles, reg, valleys)), i, j) then Id(reg, "air")
                     else old(tiles[i, j])
  {
    valleys := GetValleyLocations(surf, rolls);
    AllOkOnMap(surf, rolls, valleys);
    lakeMap := CarveLakes(tiles, reg, valleys, Depths(depthDraw, |valleys|));
    WriteMask(tiles, lakeMap, Id(reg, "water"));
  }

  /** Inside the columns of valley `k`, water fills rows `[peak, peak + depth)` and air everything above the peak. */
  lemma LakeColumns(vs: seq<MapSlice>, peaks: seq<int>, depths: seq<int>, k: nat, x: int, y: int)
    requires Disjoint(vs) && |peaks| == |vs| && |depths| == |vs| && k < |vs|
    requires vs[k].startX <= x < vs[k].endX
    ensures LakeCell(vs, peaks, depths, x, y) <==> peaks[k] <= y < peaks[k] + depths[k]
    ensures AirCell(vs, peaks, x, y) <==> y < peaks[k]
  {
    ValleyAtUnique(vs, x, k);
  }

  /** Outside every valley's columns nothing is carved. */
  lemma OutsideLakes(vs: seq<MapSlice>, peaks: seq<int>, depths: seq<int>, x: int, y: int)
    requires |peaks| == |vs| && |depths| == |vs|
    requires forall k :: 0 <= k < |vs| ==> !(vs[k].startX <= x < vs[k].endX)
    ensures !LakeCell(vs, peaks, depths, x, y) && !AirCell(vs, peaks, x, y)
  {
  }

  /** A lake is 4 to 16 rows deep below a peak on or just under its start row. */
  lemma LakeDepthBounds(tiles: array2<int>, reg: Registry, surf: seq<int>, rolls: int -> int, vs: seq<MapSlice>, depthDraw: nat -> int, k: nat)
    requires IsMap(tiles) && SurfaceOk(surf) && AllOk(surf, rolls, vs) && OnMap(vs) && k < |vs|
    requires MIN_DEPTH <= depthDraw(k) <= MAX_DEPTH
    ensures Peaks(tiles, reg, vs)[k] == vs[k].startY || Peaks(tiles, reg, vs)[k] == vs[k].startY + 1
    ensures MIN_DEPTH <= Depths(depthDraw, |vs|)[k] <= MAX_DEPTH
  {
    assert ValleyOk(surf, rolls, vs[k]);
  }
}
