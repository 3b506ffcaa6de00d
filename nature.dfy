/**
 * The nature sprites: clouds that drift left until they leave the screen, and
 * trees that lose strength to each axe hit and, once felled, leave the shared
 * tree map and drop their wood.
 */
module Nature {
  import opened Wrappers
  import opened PyNum
  import opened Rects
  import opened Alarms
  import opened Collision
  import opened Colonists
  import opened Sprites

  // ---- Clouds ----

  /** `rect.x -= speed * dt`: the exact new left edge, truncated back to an integer. */
  function Drift(x: int, speed: int, dt: real): (nx: int)
    ensures speed as real * dt >= 0.0 ==> nx <= x
    ensures -1.0 < nx as real - (x as real - speed as real * dt) < 1.0
  {
    Trunc(x as real - speed as real * dt)
  }

  /** A step of at least one pixel always moves the cloud left. */
  lemma DriftMovesLeft(x: int, speed: int, dt: real)
    requires speed as real * dt >= 1.0
    ensures Drift(x, speed, dt) < x
  {
  }

  class Cloud {
    var rect: Rect
    const speed: int
    /** Whether the cloud is still in its sprite groups. */
    var alive: bool

    constructor (rect: Rect, speed: int)
      ensures this.rect == rect && this.speed == speed && alive
    {
      this.rect := rect;
      this.speed := speed;
      alive := true;
    }

    /** `move`: drifts left by `speed * dt`, and is killed once its right edge is at or left of 0. */
    method Move(dt: real)
      modifies this
      ensures rect == old(rect).WithLeft(Drift(old(rect).x, speed, dt))
      ensures alive <==> old(alive) && rect.Right() > 0
    {
      rect := rect.WithLeft(Drift(rect.x, speed, dt));
      if rect.Right() <= 0 {
        alive := false;
      }
    }
  }

  // ---- Tree strength ----

  const MAX_STRENGTH := 50
  /** The delay between two hits, in milliseconds. */
  const DELAY_LENGTH := 500
  /** One wood item per started 25 pixels of the tree image's height. */
  const WOOD_HEIGHT := 25

  /** `max(0, current_strength - tool_strength)`. */
  function Chop(strength: int, tool: int): (s: int)
    ensures s >= 0
    ensures s == 0 <==> strength <= tool
    ensures s > 0 ==> s == strength - tool
    ensures strength >= 0 && tool >= 0 ==> s <= strength
  {
    Max(0, strength - tool)
  }

  /** The strength left after `k` hits with the same tool. */
  function ChopTimes(strength: int, tool: int, k: nat): int
  {
    if k == 0 then strength else Chop(ChopTimes(strength, tool, k - 1), tool)
  }

  /** After `k` hits, the strength is what `k` hits take off, floored at 0. */
  lemma {:induction false} ChopTimesValue(strength: int, tool: int, k: nat)
    requires strength >= 0 && tool >= 0
    ensures ChopTimes(strength, tool, k) == Max(0, strength - k * tool)
  {
    if k > 0 {
      ChopTimesValue(strength, tool, k - 1);
      assert (k - 1) * tool + tool == k * tool;
    }
  }

  lemma MulMonotone(a: int, b: int, t: int)
    requires a <= b && t >= 0
    ensures a * t <= b * t
  {
  }

  /** A tree of strength `s` falls on exactly the `ceil(s / t)`-th hit of a tool of strength `t > 0`. */
  lemma HitsToFell(strength: int, tool: int, k: nat)
    requires strength >= 0 && tool > 0
    ensures ChopTimes(strength, tool, k) == 0 <==> k >= CeilDiv(strength, tool)
  {
    ChopTimesValue(strength, tool, k);
    var n := CeilDiv(strength, tool);
    if k >= n {
      MulMonotone(n, k, tool);
    } else {
      MulMonotone(k, n - 1, tool);
    }
  }

  /**
   * `max_strength // tool_strength` and the `1 / rel_strength` after it: a
   * tool of strength 0 fails the floor division, and a tool stronger than the
   * tree's maximum makes the quotient 0 and fails the reciprocal.
   */
  function RelStrength(tool: int): (r: Result<int>)
    ensures r.Err? <==> tool == 0 || tool > MAX_STRENGTH
    ensures r.Err? ==> r.error == ZeroDivision
    ensures r.Ok? && tool > 0 ==> r.value >= 1 && r.value * tool <= MAX_STRENGTH < (r.value + 1) * tool
    ensures r.Ok? && tool < 0 ==> r.value < 0
  {
    if tool == 0 then Err(ZeroDivision)
    else
      var q := FloorDiv(MAX_STRENGTH, tool);
      if q == 0 then Err(ZeroDivision) else Ok(q)
  }

  /** Every tool in the strength table is at most the tree's maximum, so a held tool never divides by zero. */
  lemma HeldToolNeverDividesByZero(holding: string, armStrength: int)
    requires holding != "" && GetToolStrength(Some(holding), armStrength).Ok?
    ensures RelStrength(GetToolStrength(Some(holding), armStrength).value).Ok?
  {
  }

  /** `max(0, alpha - alpha * (1 / rel_strength))`. */
  function Fade(alpha: real, rel: int): (a: real)
    requires rel != 0
    ensures a >= 0.0
    ensures alpha >= 0.0 && rel >= 1 ==> a <= alpha
    ensures rel == 1 ==> a == 0.0
  {
    RMax(0.0, alpha - alpha * (1.0 / rel as real))
  }

  // ---- The tree map ----

  /** `list.remove` takes away exactly one occurrence. */
  lemma {:induction false} RemoveFirstTakesOne<T>(s: seq<T>, x: T)
    requires x in s
    ensures multiset(RemoveFirst(s, x)) == multiset(s) - multiset{x}
  {
    assert s == [s[0]] + s[1..];
    if s[0] != x {
      RemoveFirstTakesOne(s[1..], x);
    }
  }

  /**
   * The sprite manager's `tree_map`, the tree coordinates every tree shares:
   * the set `TreeGen.map` for a new world, the saved list for a loaded one.
   * Both are a sequence here; on a new world's coordinates, which have no
   * duplicates, removing the first occurrence is set removal
   * (`Collision.RemoveFirstKeeps`).
   */
  class TreeMap {
    var coords: seq<(int, int)>

    constructor (coords: seq<(int, int)>)
      ensures this.coords == coords
    {
      this.coords := coords;
    }

    /** `tree_map.remove(xy)`: the first occurrence of `xy` goes (on a set, `xy` itself). */
    method Remove(xy: (int, int))
      requires xy in coords
      modifies this
      ensures coords == RemoveFirst(old(coords), xy)
    {
      coords := RemoveFirst(coords, xy);
    }
  }

  // ---- Trees ----

  class Tree {
    /** `tree_map_xy`. */
    const xy: (int, int)
    const treeMap: TreeMap
    const maxStrength: int
    /** `ceil(image.height / 25)`. */
    const totalWood: nat
    const delay: Alarm
    var currentStrength: int
    var alpha: real
    /** Whether the tree is still in its sprite groups. */
    var alive: bool

    /** The delay alarm is the 500 ms one-shot without a callback. */
    ghost predicate Valid()
      reads this, delay
    {
      maxStrength == MAX_STRENGTH
      && delay.length == DELAY_LENGTH && delay.callback.None? && !delay.loop
    }

    /** A new tree: the saved strength or the maximum, fully opaque, its delay stopped. */
    constructor (xy: (int, int), imageHeight: nat, treeMap: TreeMap, saved: Option<int>, now: int)
      ensures Valid() && fresh(delay) && !delay.running
      ensures this.xy == xy && this.treeMap == treeMap && alive && alpha == 255.0
      ensures currentStrength == (if saved.Some? then saved.value else MAX_STRENGTH)
      ensures totalWood == CeilDiv(imageHeight, WOOD_HEIGHT)
      ensures WOOD_HEIGHT * (totalWood - 1) < imageHeight <= WOOD_HEIGHT * totalWood
    {
      this.xy := xy;
      this.treeMap := treeMap;
      maxStrength := MAX_STRENGTH;
      currentStrength := if saved.Some? then saved.value else MAX_STRENGTH;
      alpha := 255.0;
      totalWood := CeilDiv(imageHeight, WOOD_HEIGHT);
      delay := new Alarm(Bind(DELAY_LENGTH, []), now);
      alive := true;
    }

    /**
     * `cut_down`, with `tool` the result of `get_tool_strength(sprite)`: a hit
     * lands only while the delay alarm is idle. The hit puts the sprite in the
     * chopping state, splits the held item's name, takes the tool's strength
     * off the tree and fades it; at strength 0, with its coordinate still in
     * the tree map, the tree leaves the map, dies, sets the sprite idle and
     * returns the number of wood items it drops. Any other hit restarts the
     * delay. The result is the number of wood items dropped.
     */
    method CutDown(sprite: Colonist, tool: Result<int>, now: int) returns (r: Result<nat>)
      requires Valid()
      modifies this, delay, treeMap, sprite`state
      ensures Valid()
      ensures
        var hit := !old(delay.running) || now - old(delay.startTime) >= DELAY_LENGTH;
        var holding := sprite.inventory.holding;
        var split := holding.Some? && Words(holding.value) != [];
        var struck := hit && split && tool.Ok?;
        var counted := struck && RelStrength(tool.value).Ok?;
        var felled := counted && currentStrength == 0 && xy in old(treeMap.coords);
        && (!hit ==> r == Ok(0) && delay.running && sprite.state == old(sprite.state))
        && (hit && holding.None? ==> r == Err(AttributeError))
        && (hit && holding.Some? && !split ==> r == Err(IndexError))
        && (hit && split && tool.Err? ==> r == Err(tool.error))
        && (struck ==> currentStrength == Chop(old(currentStrength), tool.value))
        && (!struck ==> currentStrength == old(currentStrength))
        && (struck && !counted ==> r == Err(ZeroDivision))
        && (counted ==> alpha == Fade(old(alpha), RelStrength(tool.value).value))
        && (!counted ==> alpha == old(alpha))
        && (felled ==>
              (r == Ok(totalWood) && treeMap.coords == RemoveFirst(old(treeMap.coords), xy)
               && !alive && sprite.state == Idle && !delay.running))
        && (!felled ==> treeMap.coords == old(treeMap.coords) && alive == old(alive))
        && (counted && !felled ==> r == Ok(0) && sprite.state == Chopping && delay.running && delay.startTime == now)
        && (hit && !counted ==> sprite.state == Chopping && !delay.running)
    {
      var fired := delay.Update(now);
      if delay.running {
        return Ok(0);
      }
      sprite.state := Chopping;
      var holding := sprite.inventory.holding;
      if holding.None? {
        return Err(AttributeError);
      }
      if Words(holding.value) == [] {
        return Err(IndexError);
      }
      if tool.Err? {
        return Err(tool.error);
      }
      currentStrength := Chop(currentStrength, tool.value);
      var rel := RelStrength(tool.value);
      if rel.Err? {
        return Err(rel.error);
      }
      alpha := Fade(alpha, rel.value);
      if currentStrength == 0 && xy in treeMap.coords {
        treeMap.Remove(xy);
        alive := false;
        sprite.state := Idle;
        return Ok(totalWood);
      }
      delay.Start(now);
      r := Ok(0);
    }
  }
}
