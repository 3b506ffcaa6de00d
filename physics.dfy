/**
 * The physics engine: stepping over a one-tile ledge, pushing a sprite out of
 * the solid tiles it overlaps axis by axis, riding ramps, the effect of
 * water, and the horizontal and vertical movement with the world's edges.
 * Positions are pygame's integer rectangles; a fractional move is truncated
 * when it is stored back into the rectangle.
 */
module Physics {
  import opened Wrappers
  import opened Settings
  import opened Rects
  import opened PyNum
  import opened Grids
  import opened TileReads
  import opened TileRegistry
  import opened Collision
  import opened Colonists

  // ---- The moving sprite as a value ----

  /** The fields of a sprite that moving and the collision pass read and write, as one value. */
  datatype Body = Body(rect: Rect, state: State, grounded: bool, dirX: real, dirY: real,
                       underwater: bool, gravity: int, jumpHeight: int, oxygen: int)

  /** The sprite's current body. */
  function BodyOf(s: Colonist): Body
    reads s
  {
    Body(s.rect, s.state, s.grounded, s.dirX, s.dirY, s.underwater, s.gravity, s.jumpHeight, s.oxygen)
  }

  // ---- Stepping over a tile ----

  /**
   * The tiles `step_over_tile` reads for a tile `(tx, ty)` and a sprite `h`
   * pixels tall: the tiles above it up to the sprite's height in tiles, and
   * then the tile above the sprite's head one column back.
   */
  function AboveTiles(tx: int, ty: int, h: int): (cs: seq<Coord>)
    ensures |cs| == AboveCount(h) + 1
    ensures forall k :: 0 <= k < AboveCount(h) ==> cs[k] == (tx, ty - (k + 1))
    ensures cs[AboveCount(h)] == (tx - 1, ty - 2)
  {
    seq(AboveCount(h), k => (tx, ty - (k + 1))) + [(tx - 1, ty - 2)]
  }

  /** The length of `range(1, ceil(h / TILE_SIZE))`. */
  function AboveCount(h: int): nat
  {
    if TilesSpanned(h) <= 1 then 0 else TilesSpanned(h) - 1
  }

  /** Reads every tile of `cs` first, as building the list does: the first read off the grid raises. */
  function ReadEach(tiles: array2<int>, cs: seq<Coord>): (r: Result<seq<int>>)
    reads tiles
    requires IsMap(tiles)
    ensures r.Err? <==> exists k :: 0 <= k < |cs| && Read(tiles, cs[k]).Err?
    ensures r.Err? ==> r.error == IndexError
    ensures r.Ok? ==> |r.value| == |cs| && forall k :: 0 <= k < |cs| ==> Read(tiles, cs[k]) == Ok(r.value[k])
  {
    if cs == [] then Ok([])
    else
      assert forall k :: 1 <= k < |cs| ==> cs[1..][k - 1] == cs[k];
      match Read(tiles, cs[0])
      case Err(e) => Err(e)
      case Ok(v) =>
        match ReadEach(tiles, cs[1..])
        case Err(e) => Err(e)
        case Ok(vs) =>
          assert forall k :: 1 <= k < |cs| ==> ([v] + vs)[k] == vs[k - 1];
          Ok([v] + vs)
  }

  /**
   * `step_over_tile`: only a sprite that is not moving vertically steps
   * over a tile, and only when every tile above the tile up to the sprite's
   * height, and the tile above its head, is air.
   */
  function StepOver(tiles: array2<int>, air: int, dirY: real, h: int, tx: int, ty: int): Result<bool>
    reads tiles
    requires IsMap(tiles)
  {
    if dirY != 0.0 then Ok(false)
    else
      match ReadEach(tiles, AboveTiles(tx, ty, h))
      case Err(e) => Err(e)
      case Ok(vs) => Ok(forall k :: 0 <= k < |vs| ==> vs[k] == air)
  }

  /**
   * For a tile on the map and a sprite no taller than the map, every read
   * stays within numpy's range, so the step-over test never raises; it holds
   * exactly when the tiles it reads are air.
   */
  lemma StepOverOnMap(tiles: array2<int>, air: int, dirY: real, h: int, tx: int, ty: int)
    requires IsMap(tiles) && 0 <= tx < MAP_W && 0 <= ty < MAP_H && h <= MAP_H * TILE_SIZE
    ensures StepOver(tiles, air, dirY, h, tx, ty).Ok?
    ensures StepOver(tiles, air, dirY, h, tx, ty).value <==>
      dirY == 0.0 && forall k :: 0 <= k < |AboveTiles(tx, ty, h)| ==> Read(tiles, AboveTiles(tx, ty, h)[k]) == Ok(air)
  {
    var cs := AboveTiles(tx, ty, h);
    assert TilesSpanned(h) <= MAP_H;
    assert forall k :: 0 <= k < |cs| ==> Read(tiles, cs[k]).Ok?;
  }

  /** `step_over_tile` as the game runs it: the list of tile ids is built first, then checked for air. */
  method StepOverTile(tiles: array2<int>, air: int, dirY: real, h: int, tx: int, ty: int) returns (r: Result<bool>)
    requires IsMap(tiles)
    ensures r == StepOver(tiles, air, dirY, h, tx, ty)
  {
    if dirY != 0.0 {
      return Ok(false);
    }
    ghost var cs := AboveTiles(tx, ty, h);
    var n := TilesSpanned(h);
    var above: seq<int> := [];
    var i := 1;
    while i < n
      invariant 1 <= i && (n <= 1 ==> i == 1) && (n > 1 ==> i <= n)
      invariant |above| == i - 1
      invariant forall k :: 0 <= k < |above| ==> Read(tiles, cs[k]) == Ok(above[k])
    {
      var v := Read(tiles, (tx, ty - i));
      if v.Err? {
        assert Read(tiles, cs[i - 1]).Err?;
        return Err(v.error);
      }
      above := above + [v.value];
      i := i + 1;
    }
    var head := Read(tiles, (tx - 1, ty - 2));
    if head.Err? {
      assert Read(tiles, cs[|cs| - 1]).Err?;
      return Err(head.error);
    }
    above := above + [head.value];
    assert |above| == |cs|;
    assert forall k :: 0 <= k < |cs| ==> Read(tiles, cs[k]) == Ok(above[k]);
    var each := ReadEach(tiles, cs);
    assert each.Ok? && each.value == above;
    r := Ok(forall k :: 0 <= k < |above| ==> above[k] == air);
  }

  // ---- Solid tiles ----

  /**
   * `tile_collision_x`: a sprite that cannot step over the tile is pushed
   * back to the tile's side it came from and stops; one that can, and is on
   * the ground, lands on the tile's top corner. Either way its horizontal
   * motion ends. Only the step-over test can raise.
   */
  method TileCollisionX(sprite: Colonist, tiles: array2<int>, air: int, tile: Rect, right: bool) returns (r: Result<()>)
    requires IsMap(tiles)
    modifies sprite`rect, sprite`state, sprite`dirX
    ensures var so := StepOver(tiles, air, sprite.dirY, old(sprite.rect.h), tile.x / TILE_SIZE, tile.y / TILE_SIZE);
      (so.Err? ==>
        (r == Err(so.error) && sprite.rect == old(sprite.rect) && sprite.state == old(sprite.state)
         && sprite.dirX == old(sprite.dirX)))
      && (so == Ok(false) ==>
        (r.Ok? && sprite.state == Idle && sprite.dirX == 0.0
         && sprite.rect == (if right then old(sprite.rect).WithRight(tile.Left()) else old(sprite.rect).WithLeft(tile.Right()))))
      && (so == Ok(true) ==>
        (r.Ok? && sprite.state == old(sprite.state) && sprite.dirX == 0.0
         && sprite.rect == (if !sprite.grounded then old(sprite.rect)
           else if right then old(sprite.rect).WithRight(tile.Left()).WithBottom(tile.Top())
           else old(sprite.rect).WithLeft(tile.Right()).WithBottom(tile.Top()))))
    ensures sprite.rect.w == old(sprite.rect.w) && sprite.rect.h == old(sprite.rect.h)
    ensures StepOver(tiles, air, sprite.dirY, old(sprite.rect.h), tile.x / TILE_SIZE, tile.y / TILE_SIZE) == Ok(false) ==>
      !Collides(sprite.rect, tile)
    ensures (BodyOf(sprite), r) == CollideX(old(BodyOf(sprite)), tiles, air, tile, right)
  {
    var so := StepOverTile(tiles, air, sprite.dirY, sprite.rect.h, tile.x / TILE_SIZE, tile.y / TILE_SIZE);
    if so.Err? {
      return Err(so.error);
    }
    if !so.value {
      if right {
        sprite.rect := sprite.rect.WithRight(tile.Left());
      } else {
        sprite.rect := sprite.rect.WithLeft(tile.Right());
      }
      TouchingDoesNotCollide(sprite.rect, tile);
      sprite.state := Idle;
    } else if sprite.grounded {
      if right {
        sprite.rect := sprite.rect.WithRight(tile.Left()).WithBottom(tile.Top());
      } else {
        sprite.rect := sprite.rect.WithLeft(tile.Right()).WithBottom(tile.Top());
      }
    }
    sprite.dirX := 0.0;
    return Ok(());
  }

  /**
   * `tile_collision_y`: moving up, the sprite's top meets the tile's bottom;
   * moving down, its bottom meets the tile's top and it lands (a jump ends).
   * Its vertical motion ends, and it no longer overlaps the tile.
   */
  method TileCollisionY(sprite: Colonist, tile: Rect, up: bool)
    modifies sprite`rect, sprite`grounded, sprite`state, sprite`dirY
    ensures up ==>
      (sprite.rect == old(sprite.rect).WithTop(tile.Bottom())
       && sprite.grounded == old(sprite.grounded) && sprite.state == old(sprite.state))
    ensures !up ==>
      (sprite.rect == old(sprite.rect).WithBottom(tile.Top()) && sprite.grounded
       && sprite.state == (if old(sprite.state) == Jumping then Idle else old(sprite.state)))
    ensures sprite.dirY == 0.0
    ensures !Collides(sprite.rect, tile)
    ensures BodyOf(sprite) == CollideY(old(BodyOf(sprite)), tile, up)
  {
    if up {
      sprite.rect := sprite.rect.WithTop(tile.Bottom());
    } else {
      sprite.rect := sprite.rect.WithBottom(tile.Top());
      if !sprite.grounded {
        sprite.grounded := true;
      }
      if sprite.state == Jumping {
        sprite.state := Idle;
      }
    }
    TouchingDoesNotCollide(sprite.rect, tile);
    sprite.dirY := 0.0;
  }

  // ---- Ramps ----

  /**
   * The height of a ramp's surface under a sprite centred at `cx`, as
   * written: a left ramp rises from its bottom-left corner to its top-right
   * corner; a right ramp measures the centre from the tile's right edge.
   */
  function RampLineAsWritten(tile: Rect, cx: int, left: bool): int
  {
    if left then tile.Top() + (TILE_SIZE - Clip(cx - tile.Left(), 0, TILE_SIZE))
    else tile.Top() + Clip(cx - tile.Right(), 0, TILE_SIZE)
  }

  /** As written, a right ramp is flat: under any centre left of its right edge its surface is the tile's top. */
  lemma RightRampFlatAsWritten(tile: Rect, cx: int)
    requires cx <= tile.Right()
    ensures RampLineAsWritten(tile, cx, false) == tile.Top()
  {
  }

  /** The height of a ramp's surface, the right ramp measured from the tile's left edge like the left ramp. */
  function RampLine(tile: Rect, cx: int, left: bool): int
  {
    var rel := Clip(cx - tile.Left(), 0, TILE_SIZE);
    if left then tile.Top() + (TILE_SIZE - rel) else tile.Top() + rel
  }

  /**
   * A ramp's surface stays within its tile; a right ramp falls from the top
   * at its left edge to the bottom at its right edge, a left ramp the other
   * way, and the two are mirror images.
   */
  lemma RampLineShape(tile: Rect, cx: int, cx2: int)
    requires cx <= cx2
    ensures tile.Top() <= RampLine(tile, cx, false) <= tile.Top() + TILE_SIZE
    ensures RampLine(tile, cx, false) <= RampLine(tile, cx2, false)
    ensures RampLine(tile, cx, true) >= RampLine(tile, cx2, true)
    ensures RampLine(tile, tile.Left(), false) == tile.Top() && RampLine(tile, tile.Left() + TILE_SIZE, false) == tile.Top() + TILE_SIZE
    ensures RampLine(tile, cx, true) + RampLine(tile, cx, false) == 2 * tile.Top() + TILE_SIZE
  {
  }

  /** A right ramp as written and as intended differ under its centre: a sprite at the middle stands 8 pixels too high. */
  lemma RightRampCounterexample()
    ensures RampLineAsWritten(Rect(0, 0, 16, 16), 8, false) == 0
    ensures RampLine(Rect(0, 0, 16, 16), 8, false) == 8
  {
  }

  /**
   * `ramp_collision` with the intended right ramp: falling, a sprite whose
   * bottom is below the surface is set on it and lands; rising, its top
   * meets the tile's bottom. Horizontal motion always ends.
   */
  method RampCollision(sprite: Colonist, tile: Rect, left: bool)
    modifies sprite`rect, sprite`grounded, sprite`state, sprite`dirX, sprite`dirY
    ensures var line := RampLine(tile, old(sprite.rect).CenterX(), left);
      (old(sprite.dirY) > 0.0 && old(sprite.rect).Bottom() > line ==>
        sprite.rect == old(sprite.rect).WithBottom(line) && sprite.grounded && sprite.dirY == 0.0 && sprite.state == Idle)
      && (old(sprite.dirY) > 0.0 && old(sprite.rect).Bottom() <= line ==>
        sprite.rect == old(sprite.rect) && sprite.grounded == old(sprite.grounded)
        && sprite.dirY == old(sprite.dirY) && sprite.state == old(sprite.state))
      && (old(sprite.dirY) > 0.0 ==> sprite.rect.Bottom() <= line)
    ensures old(sprite.dirY) < 0.0 ==>
      sprite.rect == old(sprite.rect).WithTop(tile.Bottom()) && sprite.dirY == 0.0
      && sprite.grounded == old(sprite.grounded) && sprite.state == old(sprite.state)
    ensures old(sprite.dirY) == 0.0 ==>
      sprite.rect == old(sprite.rect) && sprite.dirY == 0.0 && sprite.grounded == old(sprite.grounded) && sprite.state == old(sprite.state)
    ensures sprite.dirX == 0.0
    ensures BodyOf(sprite) == Ramp(old(BodyOf(sprite)), tile, left)
  {
    var line := RampLine(tile, sprite.rect.CenterX(), left);
    if sprite.dirY > 0.0 {
      if sprite.rect.Bottom() > line {
        sprite.rect := sprite.rect.WithBottom(line);
        sprite.grounded := true;
        sprite.dirY := 0.0;
        sprite.state := Idle;
      }
    } else if sprite.dirY < 0.0 {
      sprite.rect := sprite.rect.WithTop(tile.Bottom());
      sprite.dirY := 0.0;
    }
    sprite.dirX := 0.0;
  }

  // ---- Water ----

  /** The gravity under water: a tenth of the default, cut only from the default. */
  function SubmergedGravity(g: int, defaultG: int): int
  {
    if g == defaultG then g / 10 else g
  }

  /** The jump height under water: `int(h / 1.25)`, cut only from the default. */
  function SubmergedJump(j: int, defaultJ: int): int
  {
    if j == defaultJ then Trunc(j as real / 1.25) else j
  }

  /**
   * Staying under water does not cut again: with positive defaults a second
   * check leaves the reduced gravity and jump height as they are, and both
   * are below their defaults.
   */
  lemma SubmergedOnce(g: int, defaultG: int, j: int, defaultJ: int)
    requires defaultG > 0 && defaultJ > 0
    ensures SubmergedGravity(SubmergedGravity(defaultG, defaultG), defaultG) == SubmergedGravity(defaultG, defaultG) < defaultG
    ensures SubmergedJump(SubmergedJump(defaultJ, defaultJ), defaultJ) == SubmergedJump(defaultJ, defaultJ) < defaultJ
    ensures g != defaultG ==> SubmergedGravity(g, defaultG) == g
    ensures j != defaultJ ==> SubmergedJump(j, defaultJ) == j
  {
    var r := defaultJ as real / 1.25;
    assert r < defaultJ as real;
  }

  /** The number of tiles `range(int(n))` walks. */
  function Count(n: int): nat
  {
    if n < 0 then 0 else n
  }

  /**
   * The tiles `check_spr_underwater` tests: from the tile under the
   * sprite's top centre, the sprite's width in tiles by its height in tiles
   * less one, column by column.
   */
  function Footprint(r: Rect): seq<Coord>
  {
    Block((r.CenterX() / TILE_SIZE, r.Top() / TILE_SIZE), Count(r.w / TILE_SIZE), Count(r.h / TILE_SIZE - 1))
  }

  /**
   * `check_spr_underwater`: the sprite is under water exactly when every
   * footprint tile is water. Under water, gravity and jump height are cut
   * from their defaults; out of it, both are restored and the sprite's
   * oxygen is refilled. A read off the grid raises before anything changes.
   */
  method CheckSprUnderwater(sprite: Colonist, tiles: array2<int>, water: int) returns (r: Result<()>)
    requires IsMap(tiles)
    modifies sprite`underwater, sprite`gravity, sprite`jumpHeight, sprite`oxygen
    ensures var w := AllIn(tiles, Footprint(sprite.rect), {water});
      (w.Err? ==>
        (r == Err(w.error) && sprite.underwater == old(sprite.underwater) && sprite.gravity == old(sprite.gravity)
         && sprite.jumpHeight == old(sprite.jumpHeight) && sprite.oxygen == old(sprite.oxygen)))
      && (w.Ok? ==> r.Ok? && sprite.underwater == w.value)
    ensures r.Ok? && sprite.underwater ==>
      sprite.gravity == SubmergedGravity(old(sprite.gravity), sprite.defaultGravity)
      && sprite.jumpHeight == SubmergedJump(old(sprite.jumpHeight), sprite.defaultJumpHeight)
      && sprite.oxygen == old(sprite.oxygen)
    ensures r.Ok? && !sprite.underwater ==>
      sprite.gravity == sprite.defaultGravity && sprite.jumpHeight == sprite.defaultJumpHeight && sprite.oxygen == sprite.maxOxygen
    ensures (BodyOf(sprite), r) == Soak(old(BodyOf(sprite)), sprite, tiles, water)
  {
    var w := AllIn(tiles, Footprint(sprite.rect), {water});
    if w.Err? {
      return Err(w.error);
    }
    sprite.underwater := w.value;
    if sprite.underwater {
      if sprite.gravity == sprite.defaultGravity {
        sprite.gravity := sprite.gravity / 10;
      }
      if sprite.jumpHeight == sprite.defaultJumpHeight {
        sprite.jumpHeight := Trunc(sprite.jumpHeight as real / 1.25);
      }
    } else {
      sprite.gravity := sprite.defaultGravity;
      sprite.jumpHeight := sprite.defaultJumpHeight;
      sprite.oxygen := sprite.maxOxygen;
    }
    return Ok(());
  }

  // ---- The collision pass ----

  /** `CollisionDetection.ramp_ids`: the ids of the names that contain 'ramp'. */
  function DetectionRampIds(reg: Registry): set<int>
  {
    set n | n in reg.namesToIds && Contains(n, "ramp") :: reg.namesToIds[n]
  }

  /** The registry knows the ids of air and water, which the collision pass reads. */
  predicate KnowsLiquids(reg: Registry)
  {
    "air" in reg.namesToIds && "water" in reg.namesToIds
  }

  /** A ramp's direction from its name: 'left' in the name means a left ramp. */
  predicate RampIsLeft(reg: Registry, id: int)
  {
    id in reg.idsToNames && Contains(reg.idsToNames[id], "left")
  }

  /** `tile_collision_x` on a body: the result of the step and whether it raised. */
  function CollideX(b: Body, tiles: array2<int>, air: int, tile: Rect, right: bool): (o: (Body, Result<()>))
    reads tiles
    requires IsMap(tiles)
    ensures o.1.Err? ==> o.0 == b
    ensures o.1.Ok? ==> o.0.dirX == 0.0
    ensures o.0.rect.w == b.rect.w && o.0.rect.h == b.rect.h
    ensures o.0.(rect := b.rect, state := b.state, dirX := b.dirX) == b
  {
    match StepOver(tiles, air, b.dirY, b.rect.h, tile.x / TILE_SIZE, tile.y / TILE_SIZE)
    case Err(e) => (b, Err(e))
    case Ok(over) =>
      if !over then
        (b.(rect := if right then b.rect.WithRight(tile.Left()) else b.rect.WithLeft(tile.Right()),
            state := Idle, dirX := 0.0), Ok(()))
      else
        (b.(rect := if !b.grounded then b.rect
                    else if right then b.rect.WithRight(tile.Left()).WithBottom(tile.Top())
                    else b.rect.WithLeft(tile.Right()).WithBottom(tile.Top()),
            dirX := 0.0), Ok(()))
  }

  /** `tile_collision_y` on a body. */
  function CollideY(b: Body, tile: Rect, up: bool): (c: Body)
    ensures c.dirY == 0.0 && !Collides(c.rect, tile)
    ensures c.rect.w == b.rect.w && c.rect.h == b.rect.h
    ensures c.(rect := b.rect, grounded := b.grounded, state := b.state, dirY := b.dirY) == b
  {
    var c := if up then b.(rect := b.rect.WithTop(tile.Bottom()))
      else b.(rect := b.rect.WithBottom(tile.Top()), grounded := true,
              state := if b.state == Jumping then Idle else b.state);
    TouchingDoesNotCollide(c.rect, tile);
    c.(dirY := 0.0)
  }

  /** `ramp_collision` on a body, with the intended right ramp. */
  function Ramp(b: Body, tile: Rect, left: bool): (c: Body)
    ensures c.dirX == 0.0 && (c.dirY == b.dirY || c.dirY == 0.0)
    ensures c.rect.w == b.rect.w && c.rect.h == b.rect.h
    ensures c.(rect := b.rect, grounded := b.grounded, state := b.state, dirX := b.dirX, dirY := b.dirY) == b
  {
    var line := RampLine(tile, b.rect.CenterX(), left);
    var c :=
      if b.dirY > 0.0 then
        (if b.rect.Bottom() > line then b.(rect := b.rect.WithBottom(line), grounded := true, dirY := 0.0, state := Idle) else b)
      else if b.dirY < 0.0 then b.(rect := b.rect.WithTop(tile.Bottom()), dirY := 0.0)
      else b;
    c.(dirX := 0.0)
  }

  /** `check_spr_underwater` on a body; the defaults are the sprite's. */
  function Soak(b: Body, s: Colonist, tiles: array2<int>, water: int): (o: (Body, Result<()>))
    reads tiles
    requires IsMap(tiles)
    ensures o.1.Err? ==> o.0 == b
    ensures o.0.(underwater := b.underwater, gravity := b.gravity, jumpHeight := b.jumpHeight, oxygen := b.oxygen) == b
    ensures o.0.gravity == b.gravity || o.0.gravity == s.defaultGravity || o.0.gravity == s.defaultGravity / 10
  {
    match AllIn(tiles, Footprint(b.rect), {water})
    case Err(e) => (b, Err(e))
    case Ok(w) =>
      if w then
        (b.(underwater := true, gravity := SubmergedGravity(b.gravity, s.defaultGravity),
            jumpHeight := SubmergedJump(b.jumpHeight, s.defaultJumpHeight)), Ok(()))
      else
        (b.(underwater := false, gravity := s.defaultGravity, jumpHeight := s.defaultJumpHeight,
            oxygen := s.maxOxygen), Ok(()))
  }

  /** A solid tile on a body: resolved only on the axis being processed, and only when it moves along that axis. */
  function Solid(b: Body, tiles: array2<int>, air: int, tile: Rect, axisX: bool): (o: (Body, Result<()>))
    reads tiles
    requires IsMap(tiles)
    ensures !axisX ==> o.1.Ok?
    ensures axisX && b.dirX != 0.0 && o.1.Ok? ==> o.0.dirX == 0.0
    ensures !axisX && b.dirY != 0.0 ==> o.0.dirY == 0.0 && !Collides(o.0.rect, tile)
    ensures (axisX && b.dirX == 0.0) || (!axisX && b.dirY == 0.0) ==> o == (b, Ok(()))
    ensures o.0.rect.w == b.rect.w && o.0.rect.h == b.rect.h && o.0.gravity == b.gravity
    ensures (o.0.dirX == b.dirX || o.0.dirX == 0.0) && (o.0.dirY == b.dirY || o.0.dirY == 0.0)
  {
    if axisX && b.dirX != 0.0 then CollideX(b, tiles, air, tile, b.dirX > 0.0)
    else if !axisX && b.dirY != 0.0 then (CollideY(b, tile, b.dirY < 0.0), Ok(()))
    else (b, Ok(()))
  }

  /**
   * One tile of the collision pass on a body: an overlapped ramp resolves by
   * its slope, any other overlapped tile but water as a solid tile, and the
   * water test follows every overlap; a tile it does not overlap changes
   * nothing. The tile's id is read as numpy reads it.
   */
  function TileStep(b: Body, s: Colonist, tiles: array2<int>, reg: Registry, tile: Rect, axisX: bool): (o: (Body, Result<()>))
    reads tiles
    requires IsMap(tiles) && KnowsLiquids(reg)
    ensures !Collides(b.rect, tile) ==> o == (b, Ok(()))
    ensures Kept(s, b, o.0)
  {
    if !Collides(b.rect, tile) then (b, Ok(()))
    else
      match Read(tiles, TileOf(tile))
      case Err(e) => (b, Err(e))
      case Ok(id) =>
        var mid := Overlap(b, tiles, reg, id, tile, axisX);
        if mid.1.Err? then mid else Soak(mid.0, s, tiles, reg.namesToIds["water"])
  }

  /** An overlapped tile by kind: a ramp by its slope, water not at all, any other tile as a solid tile. */
  function Overlap(b: Body, tiles: array2<int>, reg: Registry, id: int, tile: Rect, axisX: bool): (o: (Body, Result<()>))
    reads tiles
    requires IsMap(tiles) && KnowsLiquids(reg)
    ensures o.0.rect.w == b.rect.w && o.0.rect.h == b.rect.h && o.0.gravity == b.gravity
    ensures (o.0.dirX == b.dirX || o.0.dirX == 0.0) && (o.0.dirY == b.dirY || o.0.dirY == 0.0)
    ensures o.0.(underwater := b.underwater, jumpHeight := b.jumpHeight, oxygen := b.oxygen) == o.0
  {
    if id in DetectionRampIds(reg) then (Ramp(b, tile, RampIsLeft(reg, id)), Ok(()))
    else if id != reg.namesToIds["water"] then Solid(b, tiles, reg.namesToIds["air"], tile, axisX)
    else (b, Ok(()))
  }

  /** The loop of `tile_collision_update` on a body: each tile in turn, stopping at the first that raises. */
  function Pass(b: Body, s: Colonist, tiles: array2<int>, reg: Registry, near: seq<Rect>, axisX: bool): (o: (Body, Result<()>))
    reads tiles
    requires IsMap(tiles) && KnowsLiquids(reg)
    decreases |near|
  {
    if near == [] then (b, Ok(()))
    else
      var o := TileStep(b, s, tiles, reg, near[0], axisX);
      if o.1.Err? then o else Pass(o.0, s, tiles, reg, near[1..], axisX)
  }

  /** `tile_collision_update` on a body and the index's buckets: with nothing indexed near, it is in the air and shown jumping; otherwise the pass. */
  function Collide(b: Body, s: Colonist, tiles: array2<int>, cells: map<Coord, seq<Rect>>, reg: Registry, axisX: bool): (o: (Body, Result<()>))
    reads tiles
    requires IsMap(tiles) && KnowsLiquids(reg)
  {
    var near := Gather(cells, MinCellX(b.rect), MaxCellX(b.rect) + 1, MinCellY(b.rect), MaxCellY(b.rect) + 1);
    if near == [] then (b.(grounded := false, state := Jumping), Ok(()))
    else Pass(b, s, tiles, reg, near, axisX)
  }

  /**
   * What the collision pass may change: the size stays, the motion on each
   * axis stays or ends, and gravity stays or becomes the default or the
   * default cut under water.
   */
  predicate Kept(s: Colonist, b0: Body, b: Body)
  {
    b.rect.w == b0.rect.w && b.rect.h == b0.rect.h
    && (b.dirX == b0.dirX || b.dirX == 0.0)
    && (b.dirY == b0.dirY || b.dirY == 0.0)
    && (b.gravity == b0.gravity || b.gravity == s.defaultGravity || b.gravity == s.defaultGravity / 10)
  }

  /** The first tile of what is left of a pass, and the rest. */
  lemma PassFrom(b: Body, s: Colonist, tiles: array2<int>, reg: Registry, near: seq<Rect>, k: nat, axisX: bool)
    requires IsMap(tiles) && KnowsLiquids(reg) && k < |near|
    ensures var o := TileStep(b, s, tiles, reg, near[k], axisX);
      Pass(b, s, tiles, reg, near[k..], axisX) == if o.1.Err? then o else Pass(o.0, s, tiles, reg, near[k + 1..], axisX)
  {
    assert near[k..][0] == near[k] && near[k..][1..] == near[k + 1..];
  }

  /** The whole pass keeps what it may change, tile after tile. */
  lemma {:induction false} PassKept(b: Body, s: Colonist, tiles: array2<int>, reg: Registry, near: seq<Rect>, axisX: bool)
    requires IsMap(tiles) && KnowsLiquids(reg)
    ensures Kept(s, b, Pass(b, s, tiles, reg, near, axisX).0)
    decreases |near|
  {
    if near != [] {
      var o := TileStep(b, s, tiles, reg, near[0], axisX);
      if o.1.Ok? {
        PassKept(o.0, s, tiles, reg, near[1..], axisX);
      }
    }
  }

  /**
   * No tile the sprite does not overlap changes it: a pass over tiles none
   * of which it overlaps leaves it as it was and does not raise.
   */
  lemma {:induction false} PassClear(b: Body, s: Colonist, tiles: array2<int>, reg: Registry, near: seq<Rect>, axisX: bool)
    requires IsMap(tiles) && KnowsLiquids(reg)
    requires forall k :: 0 <= k < |near| ==> !Collides(b.rect, near[k])
    ensures Pass(b, s, tiles, reg, near, axisX) == (b, Ok(()))
    decreases |near|
  {
    if near != [] {
      assert forall k :: 0 <= k < |near[1..]| ==> near[1..][k] == near[k + 1];
      PassClear(b, s, tiles, reg, near[1..], axisX);
    }
  }

  /** A solid tile on the axis being resolved, when the sprite moves along it. */
  method ResolveSolid(sprite: Colonist, tiles: array2<int>, air: int, tile: Rect, axisX: bool) returns (r: Result<()>)
    requires IsMap(tiles)
    modifies sprite`rect, sprite`state, sprite`grounded, sprite`dirX, sprite`dirY
    ensures (BodyOf(sprite), r) == Solid(old(BodyOf(sprite)), tiles, air, tile, axisX)
  {
    r := Ok(());
    if axisX && sprite.dirX != 0.0 {
      r := TileCollisionX(sprite, tiles, air, tile, sprite.dirX > 0.0);
    } else if !axisX && sprite.dirY != 0.0 {
      TileCollisionY(sprite, tile, sprite.dirY < 0.0);
    }
  }

  /** One tile of the collision pass, as the game runs it. */
  method ResolveTile(sprite: Colonist, world: CollisionMap, reg: Registry, tile: Rect, axisX: bool) returns (r: Result<()>)
    requires IsMap(world.tiles) && KnowsLiquids(reg)
    modifies sprite`rect, sprite`state, sprite`grounded, sprite`dirX, sprite`dirY
    modifies sprite`underwater, sprite`gravity, sprite`jumpHeight, sprite`oxygen
    ensures (BodyOf(sprite), r) == TileStep(old(BodyOf(sprite)), sprite, world.tiles, reg, tile, axisX)
  {
    if !Collides(sprite.rect, tile) {
      return Ok(());
    }
    var read := Read(world.tiles, TileOf(tile));
    if read.Err? {
      return Err(read.error);
    }
    var id := read.value;
    if id in DetectionRampIds(reg) {
      RampCollision(sprite, tile, RampIsLeft(reg, id));
    } else if id != reg.namesToIds["water"] {
      r := ResolveSolid(sprite, world.tiles, reg.namesToIds["air"], tile, axisX);
      if r.Err? {
        return;
      }
    }
    r := CheckSprUnderwater(sprite, world.tiles, reg.namesToIds["water"]);
  }

  /**
   * `tile_collision_update`: the sprite ends as `Collide` says: with nothing
   * indexed near it is in the air and shown jumping; otherwise each nearby
   * tile it overlaps, in the order the search returns them, resolves by
   * kind, and the first read error stops the pass.
   */
  method TileCollisionUpdate(sprite: Colonist, world: CollisionMap, reg: Registry, axisX: bool) returns (r: Result<()>)
    requires IsMap(world.tiles) && KnowsLiquids(reg)
    modifies sprite`rect, sprite`state, sprite`grounded, sprite`dirX, sprite`dirY
    modifies sprite`underwater, sprite`gravity, sprite`jumpHeight, sprite`oxygen
    ensures (BodyOf(sprite), r) == Collide(old(BodyOf(sprite)), sprite, world.tiles, world.cells, reg, axisX)
  {
    var near := world.SearchMap(sprite.rect);
    if |near| == 0 {
      sprite.grounded := false;
      sprite.state := Jumping;
      return Ok(());
    }
    assert near != [];
    ghost var goal := Collide(BodyOf(sprite), sprite, world.tiles, world.cells, reg, axisX);
    assert goal == Pass(BodyOf(sprite), sprite, world.tiles, reg, near, axisX);
    var k := 0;
    while k < |near|
      invariant 0 <= k <= |near|
      invariant goal == Pass(BodyOf(sprite), sprite, world.tiles, reg, near[k..], axisX)
    {
      ghost var bk := BodyOf(sprite);
      PassFrom(bk, sprite, world.tiles, reg, near, k, axisX);
      r := ResolveTile(sprite, world, reg, near[k], axisX);
      if r.Err? {
        assert goal == (BodyOf(sprite), r);
        return;
      }
      k := k + 1;
    }
    assert near[k..] == [];
    return Ok(());
  }

  /** With nothing indexed near it, the pass puts the sprite in the air; otherwise it keeps what it may change. */
  lemma CollideKept(b: Body, s: Colonist, tiles: array2<int>, cells: map<Coord, seq<Rect>>, reg: Registry, axisX: bool)
    requires IsMap(tiles) && KnowsLiquids(reg)
    ensures Gather(cells, MinCellX(b.rect), MaxCellX(b.rect) + 1, MinCellY(b.rect), MaxCellY(b.rect) + 1) == [] ==>
      Collide(b, s, tiles, cells, reg, axisX) == (b.(grounded := false, state := Jumping), Ok(()))
    ensures Kept(s, b, Collide(b, s, tiles, cells, reg, axisX).0)
  {
    var near := Gather(cells, MinCellX(b.rect), MaxCellX(b.rect) + 1, MinCellY(b.rect), MaxCellY(b.rect) + 1);
    if near != [] {
      PassKept(b, s, tiles, reg, near, axisX);
    }
  }

  // ---- Movement ----

  /**
   * `update_movement_x`: the sprite takes the direction and moves by it
   * times its speed over `dt`, kept between the world's left edge and
   * `WORLD_EDGE_RIGHT`; an idle sprite starts walking.
   */
  method UpdateMovementX(sprite: Colonist, directionX: real, dt: real)
    modifies sprite`rect, sprite`dirX, sprite`state
    ensures sprite.dirX == directionX
    ensures sprite.rect == old(sprite.rect).(x := Clip(Trunc(old(sprite.rect.x) as real + directionX * sprite.moveSpeed as real * dt), 0, WORLD_EDGE_RIGHT))
    ensures 0 <= sprite.rect.x <= WORLD_EDGE_RIGHT
    ensures sprite.state == (if old(sprite.state) == Idle then Walking else old(sprite.state))
    ensures BodyOf(sprite) == MoveX(old(BodyOf(sprite)), sprite, directionX, dt)
  {
    sprite.dirX := directionX;
    var x := Trunc(sprite.rect.x as real + sprite.dirX * sprite.moveSpeed as real * dt);
    sprite.rect := sprite.rect.(x := Clip(x, 0, WORLD_EDGE_RIGHT));
    if sprite.state == Idle {
      sprite.state := Walking;
    }
  }

  /**
   * `update_movement_y`: half the gravity's pull over `dt` before the move
   * and half after, so the move uses the average speed; the sprite never
   * goes below `WORLD_EDGE_BOTTOM`.
   */
  method UpdateMovementY(sprite: Colonist, dt: real)
    modifies sprite`rect, sprite`dirY
    ensures var pull := Pull(old(sprite.gravity), dt);
      var speed := old(sprite.dirY) + pull;
      sprite.dirY == speed + pull && sprite.rect == old(sprite.rect).(y := FallTo(old(sprite.rect.y), speed, dt))
    ensures sprite.rect.y <= WORLD_EDGE_BOTTOM
    ensures BodyOf(sprite) == Fall(old(BodyOf(sprite)), dt)
  {
    var pull := Pull(sprite.gravity, dt);
    var speed := sprite.dirY + pull;
    var y := FallTo(sprite.rect.y, speed, dt);
    sprite.dirY := speed + pull;
    sprite.rect := sprite.rect.(y := y);
  }

  /** `(gravity // 2) * dt`: half a step's pull; `//` by 2 floors, as Dafny's `/` does for a positive divisor. */
  function Pull(gravity: int, dt: real): real
  {
    (gravity / 2) as real * dt
  }

  /** The top after moving at `speed` for `dt`, truncated and kept at or above `WORLD_EDGE_BOTTOM`. */
  function FallTo(y: int, speed: real, dt: real): (r: int)
    ensures r <= WORLD_EDGE_BOTTOM
    ensures Trunc(y as real + speed * dt) <= WORLD_EDGE_BOTTOM ==> r == Trunc(y as real + speed * dt)
  {
    Min(Trunc(y as real + speed * dt), WORLD_EDGE_BOTTOM)
  }

  /** The three states a stop on the ground should keep. */
  predicate ActiveState(s: State)
  {
    s == Jumping || s == Mining || s == Chopping
  }

  /**
   * The state `move_sprite` leaves a sprite in when there is no horizontal
   * input, as written: the test `sprite not in active_states` asks whether
   * the sprite object is one of three strings, which it never is, so every
   * sprite becomes idle.
   */
  function StopStateAsWritten(s: State): State
  {
    Idle
  }

  /** The intended rule tests the sprite's state: a jump, mining or chopping carries on. */
  function StopState(s: State): (t: State)
    ensures ActiveState(s) ==> t == s
    ensures !ActiveState(s) ==> t == Idle
  {
    if ActiveState(s) then s else Idle
  }

  /** As written, releasing the movement keys interrupts mining, chopping and a jump in the air. */
  lemma StopInterruptsAsWritten()
    ensures StopStateAsWritten(Mining) == Idle && StopState(Mining) == Mining
    ensures StopStateAsWritten(Jumping) == Idle && StopState(Jumping) == Jumping
  {
  }

  /** Under water the horizontal speed is halved: the direction becomes plus or minus one half. */
  function WaterDirection(directionX: real, underwater: bool): (d: real)
    ensures directionX != 0.0 && underwater ==> (d == 0.5 || d == -0.5) && (d > 0.0 <==> directionX > 0.0)
    ensures !underwater ==> d == directionX
  {
    if underwater then (if directionX > 0.0 then 0.5 else -0.5) else directionX
  }

  /** `update_movement_x` on a body; the speed is the sprite's. */
  function MoveX(b: Body, s: Colonist, directionX: real, dt: real): Body
  {
    b.(dirX := directionX,
       rect := b.rect.(x := Clip(Trunc(b.rect.x as real + directionX * s.moveSpeed as real * dt), 0, WORLD_EDGE_RIGHT)),
       state := if b.state == Idle then Walking else b.state)
  }

  /** `update_movement_y` on a body. */
  function Fall(b: Body, dt: real): Body
  {
    var pull := Pull(b.gravity, dt);
    var speed := b.dirY + pull;
    b.(dirY := speed + pull, rect := b.rect.(y := FallTo(b.rect.y, speed, dt)))
  }

  /**
   * `move_sprite` on a body, with the intended stop rule: the horizontal
   * move (at half speed under water) or stop, the horizontal collision
   * pass, gravity, and the vertical collision pass; a read error in the
   * first pass skips the rest.
   */
  function Move(b: Body, s: Colonist, tiles: array2<int>, cells: map<Coord, seq<Rect>>, reg: Registry, directionX: real, dt: real): (o: (Body, Result<()>))
    reads tiles
    requires IsMap(tiles) && KnowsLiquids(reg)
  {
    var o := Collide(Horizontal(b, s, directionX, dt), s, tiles, cells, reg, true);
    if o.1.Err? then o else Collide(Fall(o.0, dt), s, tiles, cells, reg, false)
  }

  /** The horizontal phase of `move_sprite`: a move, at half speed under water, or a stop. */
  function Horizontal(b: Body, s: Colonist, directionX: real, dt: real): Body
  {
    if directionX != 0.0 then MoveX(b, s, WaterDirection(directionX, b.underwater), dt)
    else b.(dirX := 0.0, state := StopState(b.state))
  }

  /**
   * The sprite keeps its size through a move, and without horizontal input
   * and with no read error, its horizontal motion has ended.
   */
  lemma MoveKeepsSize(b: Body, s: Colonist, tiles: array2<int>, cells: map<Coord, seq<Rect>>, reg: Registry, directionX: real, dt: real)
    requires IsMap(tiles) && KnowsLiquids(reg)
    ensures Move(b, s, tiles, cells, reg, directionX, dt).0.rect.w == b.rect.w
    ensures Move(b, s, tiles, cells, reg, directionX, dt).0.rect.h == b.rect.h
    ensures directionX == 0.0 ==> Move(b, s, tiles, cells, reg, directionX, dt).0.dirX == 0.0
  {
    var b1 := Horizontal(b, s, directionX, dt);
    CollideKept(b1, s, tiles, cells, reg, true);
    var o := Collide(b1, s, tiles, cells, reg, true);
    if o.1.Ok? {
      CollideKept(Fall(o.0, dt), s, tiles, cells, reg, false);
    }
  }

  /** The horizontal phase of `move_sprite`: the move, at half speed under water, or the stop. */
  method MoveAcross(sprite: Colonist, directionX: real, dt: real)
    modifies sprite`rect, sprite`state, sprite`dirX
    ensures BodyOf(sprite) == Horizontal(old(BodyOf(sprite)), sprite, directionX, dt)
  {
    if directionX != 0.0 {
      UpdateMovementX(sprite, WaterDirection(directionX, sprite.underwater), dt);
    } else {
      sprite.dirX := 0.0;
      sprite.state := StopState(sprite.state);
    }
  }

  /**
   * `move_sprite` with the intended stop rule: the sprite ends as `Move`
   * says.
   */
  method MoveSprite(sprite: Colonist, world: CollisionMap, reg: Registry, directionX: real, dt: real) returns (r: Result<()>)
    requires IsMap(world.tiles) && KnowsLiquids(reg)
    modifies sprite`rect, sprite`state, sprite`grounded, sprite`dirX, sprite`dirY
    modifies sprite`underwater, sprite`gravity, sprite`jumpHeight, sprite`oxygen
    ensures (BodyOf(sprite), r) == Move(old(BodyOf(sprite)), sprite, world.tiles, world.cells, reg, directionX, dt)
    ensures sprite.rect.w == old(sprite.rect.w) && sprite.rect.h == old(sprite.rect.h)
  {
    ghost var goal := Move(BodyOf(sprite), sprite, world.tiles, world.cells, reg, directionX, dt);
    MoveKeepsSize(BodyOf(sprite), sprite, world.tiles, world.cells, reg, directionX, dt);
    MoveAcross(sprite, directionX, dt);
    ghost var first := Collide(BodyOf(sprite), sprite, world.tiles, world.cells, reg, true);
    r := TileCollisionUpdate(sprite, world, reg, true);
    assert (BodyOf(sprite), r) == first;
    if r.Err? {
      assert goal == first;
      return;
    }
    UpdateMovementY(sprite, dt);
    ghost var second := Collide(Fall(first.0, dt), sprite, world.tiles, world.cells, reg, false);
    assert goal == second;
    r := TileCollisionUpdate(sprite, world, reg, false);
    assert (BodyOf(sprite), r) == second;
  }

  /**
   * `jump`: a grounded sprite that is not already jumping, with the jump key
   * just pressed, gains upward speed equal to its jump height and leaves the
   * ground; otherwise nothing changes.
   */
  method Jump(sprite: Colonist, pressed: bool)
    modifies sprite`dirY, sprite`grounded, sprite`state
    ensures pressed && old(sprite.grounded) && old(sprite.state) != Jumping ==>
      sprite.dirY == old(sprite.dirY) - sprite.jumpHeight as real && !sprite.grounded && sprite.state == Jumping
    ensures !(pressed && old(sprite.grounded) && old(sprite.state) != Jumping) ==>
      sprite.dirY == old(sprite.dirY) && sprite.grounded == old(sprite.grounded) && sprite.state == old(sprite.state)
    ensures BodyOf(sprite) == Leap(old(BodyOf(sprite)), pressed)
  {
    if pressed && sprite.grounded && sprite.state != Jumping {
      sprite.dirY := sprite.dirY - sprite.jumpHeight as real;
      sprite.grounded := false;
      sprite.state := Jumping;
    }
  }

  /** `jump` on a body. */
  function Leap(b: Body, pressed: bool): Body
  {
    if pressed && b.grounded && b.state != Jumping then
      b.(dirY := b.dirY - b.jumpHeight as real, grounded := false, state := Jumping)
    else b
  }

  /** The direction the held keys give: right minus left. */
  function HeldDirection(heldRight: bool, heldLeft: bool): (d: real)
    ensures d == 1.0 <==> heldRight && !heldLeft
    ensures d == -1.0 <==> heldLeft && !heldRight
    ensures d == 0.0 <==> heldRight == heldLeft
  {
    (if heldRight then 1.0 else 0.0) - (if heldLeft then 1.0 else 0.0)
  }

  /** `SpriteMovement.update`: the held keys give the direction, the sprite moves, then it may jump; it keeps its size. */
  method Update(player: Colonist, world: CollisionMap, reg: Registry, heldRight: bool, heldLeft: bool, jumpPressed: bool, dt: real)
    returns (r: Result<()>)
    requires IsMap(world.tiles) && KnowsLiquids(reg)
    modifies player`rect, player`state, player`grounded, player`dirX, player`dirY
    modifies player`underwater, player`gravity, player`jumpHeight, player`oxygen
    ensures var m := Move(old(BodyOf(player)), player, world.tiles, world.cells, reg, HeldDirection(heldRight, heldLeft), dt);
      r == m.1 && BodyOf(player) == (if m.1.Err? then m.0 else Leap(m.0, jumpPressed))
    ensures player.rect.w == old(player.rect.w) && player.rect.h == old(player.rect.h)
  {
    var dir := HeldDirection(heldRight, heldLeft);
    ghost var m := Move(BodyOf(player), player, world.tiles, world.cells, reg, dir, dt);
    r := MoveSprite(player, world, reg, dir, dt);
    assert (BodyOf(player), r) == m;
    if r.Err? {
      return;
    }
    Jump(player, jumpPressed);
    assert BodyOf(player) == Leap(m.0, jumpPressed);
  }
}
