/**
 * The sprite manager's queries: the strength of the held tool, the
 * radius test between sprites, the left/right flip of a placed item, and the
 * parameters a placed item's class is built from.
 */
module Sprites {
  import opened Wrappers
  import opened Settings
  import opened Rects
  import opened PyNum

  // ---- Words of an item name ----

  /** The first word of `s`: its characters up to the first space. */
  function WordAt(s: string): (w: string)
    ensures |w| <= |s| && w == s[..|w|]
    ensures ' ' !in w
    ensures |w| == |s| || s[|w|] == ' '
    ensures s != [] && s[0] != ' ' ==> |w| > 0
  {
    if s == [] || s[0] == ' ' then [] else [s[0]] + WordAt(s[1..])
  }

  /** `str.split()`, spaces being the only whitespace an item name holds: the runs of non-space characters, in order. */
  function Words(s: string): (r: seq<string>)
    ensures forall i :: 0 <= i < |r| ==> r[i] != [] && ' ' !in r[i]
    decreases |s|
  {
    if s == [] then []
    else if s[0] == ' ' then Words(s[1..])
    else
      var w := WordAt(s);
      [w] + Words(s[|w|..])
  }

  /** A word followed by nothing or by a space is read as that word. */
  lemma {:induction false} WordAtPrefix(a: string, rest: string)
    requires ' ' !in a && (rest == [] || rest[0] == ' ')
    ensures WordAt(a + rest) == a
  {
    if a != [] {
      assert (a + rest)[1..] == a[1..] + rest;
      WordAtPrefix(a[1..], rest);
    }
  }

  lemma OneWord(a: string)
    requires a != [] && ' ' !in a
    ensures Words(a) == [a]
  {
    WordAtPrefix(a, []);
    assert a + [] == a;
  }

  /** Two words joined by one space split back into those two words. */
  lemma TwoWords(a: string, b: string)
    requires a != [] && ' ' !in a && b != [] && ' ' !in b
    ensures Words(a + " " + b) == [a, b]
  {
    var s := a + " " + b;
    assert s == a + (" " + b);
    WordAtPrefix(a, " " + b);
    assert s[|a|..] == " " + b;
    assert (" " + b)[1..] == b;
    OneWord(b);
  }

  // ---- Tool strength ----

  /**
   * `get_tool_strength`: with an item held, the name splits into a material
   * and a tool, and the strength is that tool table entry's; with nothing held
   * (or the empty name) it is the sprite's arm strength. A name that is not
   * two words cannot be unpacked, and a pair with no strength entry is missing
   * from the table.
   */
  function GetToolStrength(holding: Option<string>, armStrength: int): (r: Result<int>)
    ensures holding.None? || holding == Some("") ==> r == Ok(armStrength)
    ensures r == Err(ValueError) <==> holding.Some? && holding.value != "" && |Words(holding.value)| != 2
    ensures r.Ok? && holding.Some? && holding.value != "" ==> 10 <= r.value <= 50
    ensures r.Err? ==> r.error in {ValueError, KeyError}
  {
    if holding.None? || holding.value == "" then Ok(armStrength)
    else
      var w := Words(holding.value);
      if |w| != 2 then Err(ValueError)
      else
        match ToolStrength(w[1], w[0])
        case Some(v) => Ok(v)
        case None => Err(KeyError)
  }

  /** A held '<material> <tool>' has exactly the table's strength for that pair, or is a missing key. */
  lemma HeldToolStrength(material: string, tool: string, armStrength: int)
    requires material != [] && ' ' !in material && tool != [] && ' ' !in tool
    ensures GetToolStrength(Some(material + " " + tool), armStrength) ==
      if ToolStrength(tool, material).Some? then Ok(ToolStrength(tool, material).value) else Err(KeyError)
  {
    TwoWords(material, tool);
  }

  /** The player's starting pickaxe mines at strength 15; a one-word item cannot be unpacked. */
  lemma StonePickaxeStrength(armStrength: int)
    ensures GetToolStrength(Some("stone pickaxe"), armStrength) == Ok(15)
    ensures GetToolStrength(Some("wood"), armStrength) == Err(ValueError)
  {
    HeldToolStrength("stone", "pickaxe", armStrength);
    assert "stone" + " " + "pickaxe" == "stone pickaxe";
    OneWord("wood");
  }

  // ---- Radius test ----

  /** A rectangle's centre, moved by the camera offset when it is given in screen space. */
  function Center(r: Rect, worldSpace: bool, camOffset: (int, int)): (int, int)
  {
    if worldSpace then (r.CenterX(), r.CenterY()) else (r.CenterX() + camOffset.0, r.CenterY() + camOffset.1)
  }

  /** `rect_in_sprite_radius`: both centres closer than the distances on their axes, strictly. */
  predicate RectInSpriteRadius(spr: Rect, rect: Rect, xDist: int, yDist: int,
                               sprWorldSpace: bool, rectWorldSpace: bool, camOffset: (int, int))
  {
    var a := Center(spr, sprWorldSpace, camOffset);
    var b := Center(rect, rectWorldSpace, camOffset);
    Abs(a.0 - b.0) < xDist && Abs(a.1 - b.1) < yDist
  }

  /** The default call: both in world space. */
  predicate InRadius(spr: Rect, rect: Rect, xDist: int, yDist: int)
  {
    RectInSpriteRadius(spr, rect, xDist, yDist, true, true, (0, 0))
  }

  /** The test is symmetric, strict at the distance, and holds for any larger distances. */
  lemma InRadiusFacts(a: Rect, b: Rect, xDist: int, yDist: int)
    ensures InRadius(a, b, xDist, yDist) == InRadius(b, a, xDist, yDist)
    ensures a.CenterX() - b.CenterX() == xDist ==> !InRadius(a, b, xDist, yDist)
    ensures InRadius(a, b, xDist, yDist) ==>
      forall x, y :: x >= xDist && y >= yDist ==> InRadius(a, b, x, y)
    ensures xDist > 0 && yDist > 0 ==> InRadius(a, a, xDist, yDist)
  {
  }

  /** A sprite and a rectangle both given in screen space compare as if both were in world space. */
  lemma ScreenSpaceBoth(a: Rect, b: Rect, xDist: int, yDist: int, camOffset: (int, int))
    ensures RectInSpriteRadius(a, b, xDist, yDist, false, false, camOffset) == InRadius(a, b, xDist, yDist)
  {
  }

  /** `get_sprites_in_radius`: the sprites of the group, in order, whose rectangles pass the radius test. */
  function GetSpritesInRadius(group: seq<Rect>, rect: Rect, xDist: int, yDist: int): (r: seq<Rect>)
    ensures forall s :: s in r <==> s in group && InRadius(s, rect, xDist, yDist)
    ensures |r| <= |group|
  {
    if group == [] then []
    else
      var tail := GetSpritesInRadius(group[1..], rect, xDist, yDist);
      assert forall s :: s in group <==> s == group[0] || s in group[1..];
      if InRadius(group[0], rect, xDist, yDist) then [group[0]] + tail else tail
  }

  /** Filtering a split group is filtering each part, so group order is kept. */
  lemma {:induction false} SpritesInRadiusAppend(g: seq<Rect>, h: seq<Rect>, rect: Rect, xDist: int, yDist: int)
    ensures GetSpritesInRadius(g + h, rect, xDist, yDist) ==
      GetSpritesInRadius(g, rect, xDist, yDist) + GetSpritesInRadius(h, rect, xDist, yDist)
  {
    if g != [] {
      assert (g + h)[1..] == g[1..] + h;
      SpritesInRadiusAppend(g[1..], h, rect, xDist, yDist);
    } else {
      assert g + h == h;
    }
  }

  /** When every sprite of the group passes, the whole group is returned. */
  lemma {:induction false} SpritesInRadiusAll(g: seq<Rect>, rect: Rect, xDist: int, yDist: int)
    requires forall i :: 0 <= i < |g| ==> InRadius(g[i], rect, xDist, yDist)
    ensures GetSpritesInRadius(g, rect, xDist, yDist) == g
  {
    if g != [] {
      SpritesInRadiusAll(g[1..], rect, xDist, yDist);
    }
  }

  // ---- Direction flip ----

  /** The new facing of `check_dir_flip`: right and unset become left, left becomes right. */
  function FlipDir(d: Option<Facing>): (r: Facing)
    ensures Some(r) != d
    ensures d.Some? ==> r != d.value
  {
    if d == Some(FacingLeft) then FacingRight else FacingLeft
  }

  /** Flipping twice restores a set facing; an unset one ends up facing right. */
  lemma FlipTwice(d: Option<Facing>)
    ensures FlipDir(Some(FlipDir(d))) == if d.Some? then d.value else FacingRight
  {
  }

  /** A placed item that can be turned between left and right. */
  class Flippable {
    var rect: Rect
    var direction: Option<Facing>
    /** Whether the image is mirrored relative to how it was loaded. */
    var mirrored: bool

    constructor (rect: Rect, direction: Option<Facing>)
      ensures this.rect == rect && this.direction == direction && !mirrored
    {
      this.rect := rect;
      this.direction := direction;
      mirrored := false;
    }

    /** `check_dir_flip`: with the mouse over the item and the rotate key pressed, the image mirrors and the facing turns. */
    method CheckDirFlip(mouseWorld: (int, int), rotatePressed: bool)
      modifies this
      ensures rect == old(rect)
      ensures CollidePoint(rect, mouseWorld) && rotatePressed ==>
        direction == Some(FlipDir(old(direction))) && mirrored == !old(mirrored)
      ensures !(CollidePoint(rect, mouseWorld) && rotatePressed) ==>
        direction == old(direction) && mirrored == old(mirrored)
    {
      if CollidePoint(rect, mouseWorld) && rotatePressed {
        mirrored := !mirrored;
        direction := Some(FlipDir(direction));
      }
    }
  }

  // ---- Parameters of a placed item's class ----

  /** What an item covers: one tile, or a list whose first entry is its top-left tile. */
  datatype Covered = OneTile(tile: Coord) | Tiles(tiles: seq<Coord>)

  /**
   * The arguments that depend on the item: its top-left position in pixels,
   * a pipe's variant, whether the UI is passed, and the facing of a flippable
   * item (`None` when no `direction` argument is passed).
   */
  datatype InitParams = InitParams(xy: (int, int), variant: Option<int>, hasUi: bool, direction: Option<Option<Facing>>)

  /** Python's `int` of one character: its digit, or a ValueError. */
  function DigitValue(c: char): Result<int>
  {
    if '0' <= c <= '9' then Ok(c as int - '0' as int) else Err(ValueError)
  }

  /**
   * `get_cls_init_params`: the first covered tile, scaled to pixels; a pipe
   * reads its variant from the last character of its name, so 'pipe 10' is
   * variant 0; any other item gets the UI and, when it can flip, the player's
   * facing.
   */
  function GetClsInitParams(name: string, covered: Covered, flipDir: Option<Facing>): (r: Result<InitParams>)
    ensures covered.Tiles? && covered.tiles == [] ==> r == Err(IndexError)
    ensures r.Ok? ==> r.value.xy == (
      (if covered.OneTile? then covered.tile else covered.tiles[0]).0 * TILE_SIZE,
      (if covered.OneTile? then covered.tile else covered.tiles[0]).1 * TILE_SIZE)
    ensures r.Ok? ==> (r.value.variant.Some? <==> Contains(name, "pipe")) && (r.value.hasUi <==> !Contains(name, "pipe"))
    ensures r.Ok? && r.value.variant.Some? ==> 0 <= r.value.variant.value <= 9
    ensures r.Ok? ==> (r.value.direction.Some? <==> !Contains(name, "pipe") && name in ITEMS_CAN_FLIP)
    ensures r.Ok? && r.value.direction.Some? ==> r.value.direction.value == flipDir
  {
    if covered.Tiles? && covered.tiles == [] then Err(IndexError)
    else
      var t := if covered.OneTile? then covered.tile else covered.tiles[0];
      var xy := (t.0 * TILE_SIZE, t.1 * TILE_SIZE);
      if Contains(name, "pipe") then
        if name == [] then Err(IndexError)
        else
          match DigitValue(name[|name| - 1])
          case Ok(v) => Ok(InitParams(xy, Some(v), false, None))
          case Err(e) => Err(e)
      else
        Ok(InitParams(xy, None, true, if name in ITEMS_CAN_FLIP then Some(flipDir) else None))
  }

  /** A pipe's variant is the last digit of its name; the names 'pipe 0' to 'pipe 9' give their own index. */
  lemma PipeVariantParam(i: int, t: Coord)
    requires 0 <= i <= 9
    ensures GetClsInitParams("pipe " + [('0' as int + i) as char], OneTile(t), None)
      == Ok(InitParams((t.0 * TILE_SIZE, t.1 * TILE_SIZE), Some(i), false, None))
  {
    var name := "pipe " + [('0' as int + i) as char];
    assert name[..4] == "pipe";
  }

  /** 'pipe 10' yields the variant of 'pipe 0'. */
  lemma PipeTenParam(t: Coord)
    ensures GetClsInitParams("pipe 10", OneTile(t), None) == GetClsInitParams("pipe 0", OneTile(t), None)
    ensures GetClsInitParams("pipe 10", OneTile(t), None).Ok?
    ensures GetClsInitParams("pipe 10", OneTile(t), None).value.variant == Some(0)
  {
    assert "pipe 10"[..4] == "pipe";
    assert "pipe 0"[..4] == "pipe";
  }
}
