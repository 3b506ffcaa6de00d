/**
 * The mini-map: an 80 x 80 window of the tile map centred on the camera's
 * tile, drawn only where the player has been. Each frame marks the tiles
 * within 6 of the camera's tile as visited, then copies the window of the
 * tile map and of the visited map into two fresh 80 x 80 grids. The
 * arithmetic follows Python's slice rules: negative ends count from the
 * end of the axis, ends past the axis are cut back to it, and numpy accepts a
 * slice assignment only when the value's shape matches the target's (or is 1).
 */
module MiniMaps {
  import opened Wrappers
  import opened PyNum
  import opened Settings

  type Coord = (int, int)

  const TILES_X := 80
  const TILES_Y := 80
  /** `tiles_x // 2` and `tiles_y // 2`. */
  const BORDER_X := 40
  const BORDER_Y := 40
  const UPDATE_RADIUS := 6
  /** `screen.get_width() // 2` and `screen.get_height() // 2`. */
  const HALF_W := 640
  const HALF_H := 360

  // ---- Python slices ----

  /** The run of indices `[lo, hi)`. */
  datatype Span = Span(lo: int, hi: int)
  {
    function Len(): int { hi - lo }
    predicate Has(i: int) { lo <= i < hi }
  }

  /** One end of a slice, as Python reads it against an axis of length `n`. */
  function Bound(i: int, n: nat): (b: int)
    ensures 0 <= b <= n
    ensures 0 <= i <= n ==> b == i
    ensures i < 0 && -i <= n ==> b == n + i
  {
    if i < 0 then Max(0, i + n) else Min(i, n)
  }

  /** `[start:stop]` on an axis of length `n`: the indices it selects. */
  function Slice(start: int, stop: int, n: nat): (s: Span)
    ensures 0 <= s.lo <= s.hi <= n
    ensures 0 <= start <= stop <= n ==> s == Span(start, stop)
    ensures 0 <= stop <= start ==> s.Len() == 0
  {
    var lo := Bound(start, n);
    Span(lo, Max(lo, Bound(stop, n)))
  }

  /** numpy accepts a slice assignment along an axis when the value has the target's length, or length 1. */
  predicate Broadcasts(target: Span, value: Span)
  {
    value.Len() == target.Len() || value.Len() == 1
  }

  /** The value index whose element lands on target index `i`. */
  function Source(target: Span, value: Span, i: int): int
  {
    value.lo + (if value.Len() == 1 then 0 else i - target.lo)
  }

  // ---- The window ----

  /** `int((cam_offset + half_screen) / TILE_SIZE)`: the tile under the screen's centre. */
  function TileOffset(cam: real, half: int): int
  {
    Trunc((cam + half as real) / TILE_SIZE as real)
  }

  /**
   * The bounds `get_map_slices` computes along one axis of length `n` from
   * the centre tile `t`: the display window's first index `lo` and the map
   * slice it selects, the visited window, where the slice is placed in the
   * 80-cell grid (`start`) and how many of its cells are copied (`count`).
   */
  datatype Axis = Axis(n: nat, t: int, lo: int, win: Span, vis: Span, start: int, count: int)

  /** The bounds an axis holds together: both windows inside the map and the copied run inside the grid. */
  predicate AxisFits(a: Axis)
  {
    0 <= a.win.lo <= a.win.hi <= a.n && 0 <= a.vis.lo <= a.vis.hi <= a.n
    && 0 <= a.start && a.count <= a.win.Len() && a.start + a.count <= TILES_X
  }

  /** The display window's first index, `max(0, t - 40)`. */
  function WindowLo(t: int): (lo: int)
    ensures lo >= 0 && lo >= t - BORDER_X
    ensures lo == t - BORDER_X || (lo == 0 && t < BORDER_X)
  {
    Max(0, t - BORDER_X)
  }

  /**
   * The display window's end, `min(n, t + 40)`; on the vertical axis
   * (`extend`) it is pushed on by as much as the window's start was cut off
   * by the map's edge.
   */
  function WindowHi(t: int, n: nat, extend: bool): int
  {
    Min(n, t + BORDER_X) + (if extend && t - BORDER_X < 0 then BORDER_X - t else 0)
  }

  /** The cells of the map the display window selects. */
  function Window(t: int, n: nat, extend: bool): (s: Span)
    ensures 0 <= s.lo <= s.hi <= n
    ensures 0 <= t < n ==> s.lo == WindowLo(t) && t < s.hi
  {
    WindowInside(t, n, extend);
    Slice(WindowLo(t), WindowHi(t, n, extend), n)
  }

  /** The window's slice starts at its first index and passes the centre when the centre is on the axis. */
  lemma WindowInside(t: int, n: nat, extend: bool)
    ensures var s := Slice(WindowLo(t), WindowHi(t, n, extend), n);
      0 <= t < n ==> s.lo == WindowLo(t) && t < s.hi
  {
    if 0 <= t < n {
      var lo, hi := WindowLo(t), WindowHi(t, n, extend);
      assert 0 <= lo <= t;
      assert t < hi;
      assert Bound(lo, n) == lo;
      assert t < Bound(hi, n);
    }
  }

  /** The visited window: as the display window, with 6 in place of 40. */
  function VisitedWindow(t: int, n: nat, extend: bool): (s: Span)
    ensures 0 <= s.lo <= s.hi <= n
  {
    var hi := Min(n, t + UPDATE_RADIUS) + (if extend && t - UPDATE_RADIUS < 0 then UPDATE_RADIUS - t else 0);
    Slice(Max(0, t - UPDATE_RADIUS), hi, n)
  }

  /** `max(0, 40 - (t - lo))`: where the window's first cell goes in the grid. */
  function GridStart(t: int): (s: int)
    ensures s == if t >= BORDER_X then 0 else BORDER_X - t
  {
    Max(0, BORDER_X - (t - WindowLo(t)))
  }

  /** The bounds along one axis, the horizontal one not extended and the vertical one extended. */
  function AxisOf(t: int, n: nat, extend: bool): (a: Axis)
    ensures AxisFits(a) && a.n == n && a.t == t
  {
    var win := Window(t, n, extend);
    Axis(n, t, WindowLo(t), win, VisitedWindow(t, n, extend), GridStart(t), Min(win.Len(), TILES_X - GridStart(t)))
  }

  /** A view of the `w` x `h` map: the horizontal axis is not extended, the vertical one is. */
  datatype View = View(x: Axis, y: Axis)

  function ViewOf(tx: int, ty: int, w: nat, h: nat): (v: View)
    ensures AxisFits(v.x) && AxisFits(v.y)
  {
    View(AxisOf(tx, w, false), AxisOf(ty, h, true))
  }

  /** The map index shown at grid index `i` along an axis, or None where the grid keeps its default. */
  function AxisSource(a: Axis, i: int): (r: Option<int>)
    ensures r.Some? <==> a.start <= i < a.start + a.count
    ensures AxisFits(a) && r.Some? ==> a.win.Has(r.value)
  {
    if a.start <= i < a.start + a.count then Some(a.win.lo + (i - a.start)) else None
  }

  /**
   * The map cell shown at grid position `(i, j)`, or None where the grid
   * keeps its default: the copied block starts at `(start_x, start_y)` and
   * shows the map slice from its own first row and column on.
   */
  function CellSource(v: View, i: int, j: int): (r: Option<Coord>)
    ensures r.Some? <==> AxisSource(v.x, i).Some? && AxisSource(v.y, j).Some?
    ensures r.Some? ==> r.value == (AxisSource(v.x, i).value, AxisSource(v.y, j).value)
  {
    if AxisSource(v.x, i).Some? && AxisSource(v.y, j).Some?
    then Some((AxisSource(v.x, i).value, AxisSource(v.y, j).value))
    else None
  }

  /** With the centre on the map, the grid's middle cell shows the centre. */
  lemma AxisCentre(t: int, n: nat, extend: bool)
    requires 0 <= t < n
    ensures AxisSource(AxisOf(t, n, extend), BORDER_X) == Some(t)
  {
  }

  /** With the centre tile on the map, the grid's centre shows exactly that tile. */
  lemma CentreTileShownAtCentre(tx: int, ty: int, w: nat, h: nat)
    requires 0 <= tx < w && 0 <= ty < h
    ensures CellSource(ViewOf(tx, ty, w, h), BORDER_X, BORDER_Y) == Some((tx, ty))
  {
    AxisCentre(tx, w, false);
    AxisCentre(ty, h, true);
  }

  /**
   * With the centre on the map, the visited window holds it and reaches at
   * most 6 cells before it; it ends at most 6 cells after it, or, on the
   * vertical axis near the top edge, at cell 12.
   */
  lemma VisitedAroundCentre(t: int, n: nat, extend: bool)
    requires 0 <= t < n
    ensures AxisOf(t, n, extend).vis.Has(t)
    ensures forall b :: AxisOf(t, n, extend).vis.Has(b) ==> t - UPDATE_RADIUS <= b
    ensures forall b :: AxisOf(t, n, extend).vis.Has(b) ==>
      b < (if extend then Max(t + UPDATE_RADIUS, 2 * UPDATE_RADIUS) else t + UPDATE_RADIUS)
  {
    var s := VisitedWindow(t, n, extend);
    assert AxisOf(t, n, extend).vis == s;
    var lo := Max(0, t - UPDATE_RADIUS);
    var hi := Min(n, t + UPDATE_RADIUS) + (if extend && t - UPDATE_RADIUS < 0 then UPDATE_RADIUS - t else 0);
    assert s == Slice(lo, hi, n);
    assert 0 <= lo <= t < hi;
    assert Bound(lo, n) == lo;
    assert t < Bound(hi, n) <= hi;
    assert s.lo == lo && s.hi == Bound(hi, n);
  }

  /** Near the top edge the pushed-down bottom keeps the map slice 80 rows tall. */
  lemma TopRowsExtended(ty: int, h: nat)
    requires -BORDER_Y <= ty < BORDER_Y && h >= TILES_Y
    ensures AxisOf(ty, h, true).win == Span(0, TILES_Y)
    ensures AxisOf(ty, h, true).start == BORDER_Y - ty
    ensures AxisOf(ty, h, true).count == BORDER_Y + ty
  {
  }

  // ---- The slice assignments as written ----

  /**
   * The target and value runs `full_slice[s:s+map_len] = map_slice[s:s+map_len]`
   * selects along an axis: the value is sliced from the map slice at the
   * grid offset `s` too.
   */
  function TileRunsAsWritten(a: Axis): (Span, Span)
    requires AxisFits(a)
  {
    (Slice(a.start, a.start + a.win.Len(), TILES_X), Slice(a.start, a.start + a.win.Len(), a.win.Len()))
  }

  /**
   * The runs `visited_slice[s:s+count] = visited_tiles[lo:lo+count]` selects
   * along an axis; a negative `count` turns the value's stop into an index
   * from the end of the axis.
   */
  function VisitedRunsAsWritten(a: Axis): (Span, Span)
  {
    (Slice(a.start, a.start + a.count, TILES_X), Slice(a.lo, a.lo + a.count, a.n))
  }

  /** The value index a pair of runs copies to grid index `i`, if `i` is in the target run. */
  function Pick(runs: (Span, Span), i: int): (r: Option<int>)
    ensures r.Some? <==> runs.0.Has(i)
  {
    if runs.0.Has(i) then Some(Source(runs.0, runs.1, i)) else None
  }

  /**
   * The tile grid as written: a ValueError unless both axes broadcast, else
   * the map cell copied to `(i, j)`, or None where the grid stays air.
   */
  function TileSourceAsWritten(v: View, i: int, j: int): (r: Result<Option<Coord>>)
    requires AxisFits(v.x) && AxisFits(v.y)
  {
    var rx, ry := TileRunsAsWritten(v.x), TileRunsAsWritten(v.y);
    if !(Broadcasts(rx.0, rx.1) && Broadcasts(ry.0, ry.1)) then Err(ValueError)
    else if Pick(rx, i).Some? && Pick(ry, j).Some? then Ok(Some((v.x.win.lo + Pick(rx, i).value, v.y.win.lo + Pick(ry, j).value)))
    else Ok(None)
  }

  /** The visited grid as written, in the same terms. */
  function VisitedSourceAsWritten(v: View, i: int, j: int): (r: Result<Option<Coord>>)
  {
    var rx, ry := VisitedRunsAsWritten(v.x), VisitedRunsAsWritten(v.y);
    if !(Broadcasts(rx.0, rx.1) && Broadcasts(ry.0, ry.1)) then Err(ValueError)
    else if Pick(rx, i).Some? && Pick(ry, j).Some? then Ok(Some((Pick(rx, i).value, Pick(ry, j).value)))
    else Ok(None)
  }

  /** At least 40 cells from the near edge the window is not cut, and all of it is copied from grid cell 0 on. */
  lemma AxisAwayFromEdge(t: int, n: nat, extend: bool)
    requires BORDER_X <= t <= n + BORDER_X
    ensures AxisOf(t, n, extend).start == 0 && AxisOf(t, n, extend).lo == t - BORDER_X
    ensures AxisOf(t, n, extend).win == Span(t - BORDER_X, Min(n, t + BORDER_X))
    ensures AxisOf(t, n, extend).count == AxisOf(t, n, extend).win.Len() <= TILES_X
  {
    assert WindowHi(t, n, extend) == Min(n, t + BORDER_X);
  }

  /** At least 40 cells from the near edge, both runs as written broadcast and copy exactly what `AxisSource` names. */
  lemma AxisAsWrittenAgrees(t: int, n: nat, extend: bool, i: int)
    requires BORDER_X <= t <= n + BORDER_X
    ensures Broadcasts(TileRunsAsWritten(AxisOf(t, n, extend)).0, TileRunsAsWritten(AxisOf(t, n, extend)).1)
    ensures Broadcasts(VisitedRunsAsWritten(AxisOf(t, n, extend)).0, VisitedRunsAsWritten(AxisOf(t, n, extend)).1)
    ensures Pick(TileRunsAsWritten(AxisOf(t, n, extend)), i).Some? <==> AxisSource(AxisOf(t, n, extend), i).Some?
    ensures Pick(VisitedRunsAsWritten(AxisOf(t, n, extend)), i) == AxisSource(AxisOf(t, n, extend), i)
    ensures Pick(TileRunsAsWritten(AxisOf(t, n, extend)), i).Some? ==>
      AxisOf(t, n, extend).win.lo + Pick(TileRunsAsWritten(AxisOf(t, n, extend)), i).value == AxisSource(AxisOf(t, n, extend), i).value
  {
    var a := AxisOf(t, n, extend);
    AxisAwayFromEdge(t, n, extend);
    var len := a.win.Len();
    assert TileRunsAsWritten(a) == (Span(0, len), Span(0, len));
    assert VisitedRunsAsWritten(a) == (Span(0, len), Span(a.lo, a.lo + len));
  }

  /** Away from the map's left and top edges both assignments as written copy exactly the cells `CellSource` names. */
  lemma AsWrittenAgreesAwayFromEdges(tx: int, ty: int, w: nat, h: nat, i: int, j: int)
    requires BORDER_X <= tx <= w + BORDER_X && BORDER_Y <= ty <= h + BORDER_Y
    ensures TileSourceAsWritten(ViewOf(tx, ty, w, h), i, j) == Ok(CellSource(ViewOf(tx, ty, w, h), i, j))
    ensures VisitedSourceAsWritten(ViewOf(tx, ty, w, h), i, j) == Ok(CellSource(ViewOf(tx, ty, w, h), i, j))
  {
    AxisAsWrittenAgrees(tx, w, false, i);
    AxisAsWrittenAgrees(ty, h, true, j);
  }

  /**
   * The vertical runs for a centre `t` rows from the top, `0 <= t < 40`: the
   * tile grid's middle row copies row 40 of the map slice, the visited grid's
   * copies row `t`.
   */
  lemma RunsNearTop(a: Axis)
    requires AxisFits(a) && a.n >= TILES_Y && 0 <= a.t < BORDER_Y
    requires a.lo == 0 && a.win == Span(0, TILES_Y) && a.start == BORDER_Y - a.t && a.count == BORDER_Y + a.t
    ensures Broadcasts(TileRunsAsWritten(a).0, TileRunsAsWritten(a).1)
    ensures Broadcasts(VisitedRunsAsWritten(a).0, VisitedRunsAsWritten(a).1)
    ensures Pick(TileRunsAsWritten(a), BORDER_Y) == Some(BORDER_Y)
    ensures Pick(VisitedRunsAsWritten(a), BORDER_Y) == AxisSource(a, BORDER_Y) == Some(a.t)
  {
    assert TileRunsAsWritten(a) == (Span(a.start, TILES_Y), Span(a.start, TILES_Y));
    assert VisitedRunsAsWritten(a) == (Span(a.start, TILES_Y), Span(0, a.count));
  }

  /**
   * With the centre `ty` rows from the top, `0 <= ty < 40`, the grid's centre,
   * which should show the centre tile, shows the map's row 40 as written,
   * while the visited grid marks that position with the centre's own row.
   */
  lemma TileRowsShiftedNearTop(tx: int, ty: int, w: nat, h: nat)
    requires BORDER_X <= tx < w && 0 <= ty < BORDER_Y && h >= TILES_Y
    ensures TileSourceAsWritten(ViewOf(tx, ty, w, h), BORDER_X, BORDER_Y) == Ok(Some((tx, BORDER_Y)))
    ensures VisitedSourceAsWritten(ViewOf(tx, ty, w, h), BORDER_X, BORDER_Y) == Ok(Some((tx, ty)))
    ensures CellSource(ViewOf(tx, ty, w, h), BORDER_X, BORDER_Y) == Some((tx, ty))
  {
    var ax, ay := AxisOf(tx, w, false), AxisOf(ty, h, true);
    assert ViewOf(tx, ty, w, h) == View(ax, ay);
    AxisCentre(tx, w, false);
    AxisAsWrittenAgrees(tx, w, false, BORDER_X);
    TopRowsExtended(ty, h);
    assert ay.lo == 0;
    RunsNearTop(ay);
    var tileX, tileY := TileRunsAsWritten(ax), TileRunsAsWritten(ay);
    assert Pick(tileX, BORDER_X).Some? && ax.win.lo + Pick(tileX, BORDER_X).value == tx;
    assert Pick(tileY, BORDER_Y) == Some(BORDER_Y) && ay.win.lo == 0;
    var visX, visY := VisitedRunsAsWritten(ax), VisitedRunsAsWritten(ay);
    assert Pick(visX, BORDER_X) == Some(tx) && Pick(visY, BORDER_Y) == Some(ty);
  }

  /** The vertical runs for a centre 41 rows above the map: an empty target and a 199-row value. */
  lemma RunsAboveMap(a: Axis)
    requires a.n == MAP_H && a.lo == 0 && a.start == 81 && a.count == -1
    ensures !Broadcasts(VisitedRunsAsWritten(a).0, VisitedRunsAsWritten(a).1)
  {
    assert VisitedRunsAsWritten(a) == (Span(80, 80), Span(0, 199));
  }

  /** A centre 41 rows above the map makes the visited assignment's shapes disagree. */
  lemma VisitedFailsAboveMap()
    ensures VisitedSourceAsWritten(ViewOf(100, -41, MAP_W, MAP_H), 0, 0) == Err(ValueError)
  {
    assert AxisOf(-41, MAP_H, true).win == Span(0, TILES_Y);
    RunsAboveMap(AxisOf(-41, MAP_H, true));
  }

  // ---- In-place slice writes ----

  /** `a[xs, ys] = x`: the block is set, every other cell kept. */
  method SetBlock<T>(a: array2<T>, xs: Span, ys: Span, x: T)
    requires 0 <= xs.lo <= xs.hi <= a.Length0 && 0 <= ys.lo <= ys.hi <= a.Length1
    modifies a
    ensures forall p, q :: 0 <= p < a.Length0 && 0 <= q < a.Length1 ==>
      a[p, q] == if xs.Has(p) && ys.Has(q) then x else old(a[p, q])
  {
    var p := xs.lo;
    while p < xs.hi
      invariant xs.lo <= p <= xs.hi
      invariant forall p', q :: 0 <= p' < a.Length0 && 0 <= q < a.Length1 ==>
        a[p', q] == if xs.lo <= p' < p && ys.Has(q) then x else old(a[p', q])
    {
      var q := ys.lo;
      while q < ys.hi
        invariant ys.lo <= q <= ys.hi
        invariant forall p', q' :: 0 <= p' < a.Length0 && 0 <= q' < a.Length1 ==>
          a[p', q'] == if (xs.lo <= p' < p && ys.Has(q')) || (p' == p && ys.lo <= q' < q) then x else old(a[p', q'])
      {
        a[p, q] := x;
        q := q + 1;
      }
      p := p + 1;
    }
  }

  /** Copies the map block a view shows into the grid `dst`; every other grid cell is kept. */
  method Blit<T>(src: array2<T>, dst: array2<T>, v: View)
    requires AxisFits(v.x) && AxisFits(v.y) && src != dst
    requires src.Length0 == v.x.n && src.Length1 == v.y.n
    requires dst.Length0 == TILES_X && dst.Length1 == TILES_Y
    modifies dst
    ensures forall i, j :: 0 <= i < TILES_X && 0 <= j < TILES_Y ==>
      dst[i, j] == if CellSource(v, i, j).Some? then src[CellSource(v, i, j).value.0, CellSource(v, i, j).value.1] else old(dst[i, j])
  {
    var x, y := v.x, v.y;
    var k := 0;
    while k < x.count
      invariant 0 <= k <= Max(0, x.count)
      invariant forall i, j :: 0 <= i < TILES_X && 0 <= j < TILES_Y ==>
        dst[i, j] ==
          if CellSource(v, i, j).Some? && i < x.start + k
          then src[x.win.lo + (i - x.start), y.win.lo + (j - y.start)]
          else old(dst[i, j])
    {
      var l := 0;
      while l < y.count
        invariant 0 <= l <= Max(0, y.count)
        invariant forall i, j :: 0 <= i < TILES_X && 0 <= j < TILES_Y ==>
          dst[i, j] ==
            if CellSource(v, i, j).Some? && (i < x.start + k || (i == x.start + k && j < y.start + l))
            then src[x.win.lo + (i - x.start), y.win.lo + (j - y.start)]
            else old(dst[i, j])
      {
        dst[x.start + k, y.start + l] := src[x.win.lo + k, y.win.lo + l];
        l := l + 1;
      }
      k := k + 1;
    }
  }

  // ---- The mini-map ----

  class MiniMap {
    /** The game's tile map, shared and only read here. */
    const tiles: array2<int>
    /** `visited_tiles`: one flag per map cell. */
    const visited: array2<bool>
    /** `names_to_ids['air']`. */
    const air: int

    ghost predicate Valid()
      reads this
    {
      visited.Length0 == tiles.Length0 && visited.Length1 == tiles.Length1
    }

    /** A mini-map without save data: nothing visited yet. */
    constructor (tiles: array2<int>, air: int)
      ensures Valid() && fresh(visited) && this.tiles == tiles && this.air == air
      ensures forall a, b :: 0 <= a < visited.Length0 && 0 <= b < visited.Length1 ==> !visited[a, b]
    {
      this.tiles := tiles;
      this.air := air;
      visited := new bool[tiles.Length0, tiles.Length1]((a, b) => false);
    }

    /** The body of `get_map_slices` once the centre tile's view `v` is known. */
    method ShowView(v: View) returns (shownTiles: array2<int>, shownVisited: array2<bool>)
      requires Valid() && AxisFits(v.x) && AxisFits(v.y)
      requires v.x.n == tiles.Length0 && v.y.n == tiles.Length1
      modifies visited
      ensures fresh(shownTiles) && fresh(shownVisited)
      ensures shownTiles.Length0 == TILES_X && shownTiles.Length1 == TILES_Y
      ensures shownVisited.Length0 == TILES_X && shownVisited.Length1 == TILES_Y
      ensures forall a, b :: 0 <= a < visited.Length0 && 0 <= b < visited.Length1 ==>
        visited[a, b] == (old(visited[a, b]) || (v.x.vis.Has(a) && v.y.vis.Has(b)))
      ensures forall i, j :: 0 <= i < TILES_X && 0 <= j < TILES_Y ==>
        shownTiles[i, j] == if CellSource(v, i, j).Some? then tiles[CellSource(v, i, j).value.0, CellSource(v, i, j).value.1] else air
      ensures forall i, j :: 0 <= i < TILES_X && 0 <= j < TILES_Y ==>
        shownVisited[i, j] == (CellSource(v, i, j).Some? && visited[CellSource(v, i, j).value.0, CellSource(v, i, j).value.1])
    {
      SetBlock(visited, v.x.vis, v.y.vis, true);
      shownTiles := new int[TILES_X, TILES_Y]((i, j) => air);
      Blit(tiles, shownTiles, v);
      shownVisited := new bool[TILES_X, TILES_Y]((i, j) => false);
      Blit(visited, shownVisited, v);
    }

    /**
     * `get_map_slices`, with the camera offset `(camX, camY)`: marks the
     * visited window, then returns the 80 x 80 tile grid (air outside the
     * copied block) and visited grid (unvisited outside it). Both grids show
     * the same map cell at every position of the block.
     */
    method GetMapSlices(camX: real, camY: real) returns (shownTiles: array2<int>, shownVisited: array2<bool>)
      requires Valid()
      modifies visited
      ensures fresh(shownTiles) && fresh(shownVisited)
      ensures shownTiles.Length0 == TILES_X && shownTiles.Length1 == TILES_Y
      ensures shownVisited.Length0 == TILES_X && shownVisited.Length1 == TILES_Y
      ensures
        var v := ViewOf(TileOffset(camX, HALF_W), TileOffset(camY, HALF_H), tiles.Length0, tiles.Length1);
        && (forall a, b :: 0 <= a < visited.Length0 && 0 <= b < visited.Length1 ==>
              visited[a, b] == (old(visited[a, b]) || (v.x.vis.Has(a) && v.y.vis.Has(b))))
        && (forall i, j :: 0 <= i < TILES_X && 0 <= j < TILES_Y ==>
              shownTiles[i, j] == if CellSource(v, i, j).Some? then tiles[CellSource(v, i, j).value.0, CellSource(v, i, j).value.1] else air)
        && (forall i, j :: 0 <= i < TILES_X && 0 <= j < TILES_Y ==>
              shownVisited[i, j] == (CellSource(v, i, j).Some? && visited[CellSource(v, i, j).value.0, CellSource(v, i, j).value.1]))
    {
      var v := ViewOf(TileOffset(camX, HALF_W), TileOffset(camY, HALF_H), tiles.Length0, tiles.Length1);
      shownTiles, shownVisited := ShowView(v);
    }
  }
}
