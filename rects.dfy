/** pygame's integer rectangles, as far as the game relies on them. */
module Rects {
  import opened Settings

  datatype Rect = Rect(x: int, y: int, w: int, h: int)
  {
    function Left(): int { x }
    function Right(): int { x + w }
    function Top(): int { y }
    function Bottom(): int { y + h }
    /** pygame's `centerx`: the left edge plus half the width, rounded down. */
    function CenterX(): int { x + w / 2 }
    /** pygame's `centery`. */
    function CenterY(): int { y + h / 2 }

    // pygame's edge assignments: each moves the rectangle and keeps its size.

    /** `rect.left = v`. */
    function WithLeft(v: int): (r: Rect)
      ensures r.Left() == v && r.y == y && r.w == w && r.h == h
    {
      Rect(v, y, w, h)
    }

    /** `rect.right = v`. */
    function WithRight(v: int): (r: Rect)
      ensures r.Right() == v && r.y == y && r.w == w && r.h == h
    {
      Rect(v - w, y, w, h)
    }

    /** `rect.top = v`. */
    function WithTop(v: int): (r: Rect)
      ensures r.Top() == v && r.x == x && r.w == w && r.h == h
    {
      Rect(x, v, w, h)
    }

    /** `rect.bottom = v`. */
    function WithBottom(v: int): (r: Rect)
      ensures r.Bottom() == v && r.x == x && r.w == w && r.h == h
    {
      Rect(x, v - h, w, h)
    }
  }

  /** pygame's `collidepoint`: the point lies inside, the right and bottom edges excluded. */
  predicate CollidePoint(r: Rect, p: (int, int))
  {
    r.x <= p.0 < r.x + r.w && r.y <= p.1 < r.y + r.h
  }

  /**
   * pygame's `colliderect`: an empty rectangle collides with nothing; otherwise
   * the two overlap on both axes, touching edges not counting.
   */
  predicate Collides(a: Rect, b: Rect)
  {
    a.w > 0 && a.h > 0 && b.w > 0 && b.h > 0
    && a.x < b.x + b.w && b.x < a.x + a.w && a.y < b.y + b.h && b.y < a.y + a.h
  }

  /** The rectangle a tile occupies on screen. */
  function TileRect(t: Coord): (r: Rect)
    ensures r.w == TILE_SIZE && r.h == TILE_SIZE
  {
    Rect(t.0 * TILE_SIZE, t.1 * TILE_SIZE, TILE_SIZE, TILE_SIZE)
  }

  /** The tile whose rectangle has the top-left corner of `r`. */
  function TileOf(r: Rect): Coord
  {
    (r.x / TILE_SIZE, r.y / TILE_SIZE)
  }

  predicate InMap(t: Coord)
  {
    0 <= t.0 < MAP_W && 0 <= t.1 < MAP_H
  }

  /** A tile's rectangle leads back to the tile, so different tiles have different rectangles. */
  lemma TileRectInjective(t: Coord, u: Coord)
    ensures TileOf(TileRect(t)) == t
    ensures TileRect(t) == TileRect(u) <==> t == u
  {
  }

  /** Two rectangles meeting edge to edge do not collide. */
  lemma TouchingDoesNotCollide(a: Rect, b: Rect)
    requires a.Right() == b.Left() || a.Left() == b.Right() || a.Bottom() == b.Top() || a.Top() == b.Bottom()
    ensures !Collides(a, b)
  {
  }
}
