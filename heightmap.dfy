/**
 * The surface height of every column: each biome's own elevation from noise,
 * blended linearly into the next biome over the last fifth of its width.
 */
module HeightMap {
  import opened Settings
  import opened PyNum

  /** pnoise1 at column x with the biome's height-map parameters and the world seed. */
  type Noise1 = (Biome, int) -> real

  /** The width of the transition zone at the right end of each biome. */
  const LERP_RANGE := 120

  lemma LerpRangeIsAFifth()
    ensures LERP_RANGE == BIOME_WIDTH / 5
  {
  }

  /** `get_biome_elevations` for one column: the biome's middle level, moved by noise times half its span. */
  function BiomeElevation(b: Biome, n: real): real
  {
    var mid := (ElevationBottom(b) - ElevationTop(b)) as real / 2.0;
    ElevationTop(b) as real + mid + n * mid
  }

  lemma ElevationWithinBiome(b: Biome, n: real)
    requires -1.0 <= n <= 1.0
    ensures ElevationTop(b) as real <= BiomeElevation(b, n) <= ElevationBottom(b) as real
  {
    var mid := (ElevationBottom(b) - ElevationTop(b)) as real / 2.0;
    ElevationsOrdered(b);
    assert mid >= 0.0;
    assert -mid <= n * mid <= mid by {
      if n >= 0.0 { assert n * mid <= 1.0 * mid; } else { assert n * mid >= -1.0 * mid; }
    }
  }

  /** Column `bx` of biome number `i`: its own elevation, or the blend toward biome i + 1 inside the zone. */
  function ColumnHeight(noise: Noise1, i: int, bx: int): real
    requires 0 <= i < |BIOMES| - 1 && 0 <= bx < BIOME_WIDTH
  {
    var x := i * BIOME_WIDTH + bx;
    var own := BiomeElevation(BIOMES[i], noise(BIOMES[i], x));
    if bx < BIOME_WIDTH - LERP_RANGE || i > |BIOMES| - 3 then own
    else
      var t := (bx - (BIOME_WIDTH - LERP_RANGE)) as real / LERP_RANGE as real;
      (1.0 - t) * own + t * BiomeElevation(BIOMES[i + 1], noise(BIOMES[i + 1], x))
  }

  function HeightAt(noise: Noise1, x: int): real
    requires 0 <= x < MAP_W
  {
    ColumnHeight(noise, x / BIOME_WIDTH, x % BIOME_WIDTH)
  }

  /** Column `bx` of biome number `i` is the column `i * BIOME_WIDTH + bx` of the map. */
  lemma ColumnOfBiome(noise: Noise1, i: int, bx: int)
    requires 0 <= i < |BIOMES| - 1 && 0 <= bx < BIOME_WIDTH
    ensures 0 <= i * BIOME_WIDTH + bx < (i + 1) * BIOME_WIDTH <= MAP_W
    ensures HeightAt(noise, i * BIOME_WIDTH + bx) == ColumnHeight(noise, i, bx)
  {
    assert BIOME_WIDTH == 600;
    var x := i * BIOME_WIDTH + bx;
    assert x / BIOME_WIDTH == i && x % BIOME_WIDTH == bx;
  }

  /** `gen_height_map`: the height of every column, filled biome by biome. */
  method GenHeightMap(noise: Noise1) returns (heights: array<real>)
    ensures fresh(heights) && heights.Length == MAP_W
    ensures forall x :: 0 <= x < MAP_W ==> heights[x] == HeightAt(noise, x)
  {
    heights := new real[MAP_W];
    var i := 0;
    while i < |BIOMES| - 1
      invariant 0 <= i <= |BIOMES| - 1
      invariant forall x :: 0 <= x < i * BIOME_WIDTH ==> heights[x] == HeightAt(noise, x)
    {
      FillBiome(heights, noise, i);
      i := i + 1;
    }
  }

  /** The inner loop of `gen_height_map`: the columns of biome number `i`, left to right. */
  method FillBiome(heights: array<real>, noise: Noise1, i: int)
    requires heights.Length == MAP_W && 0 <= i < |BIOMES| - 1
    requires forall x :: 0 <= x < i * BIOME_WIDTH ==> heights[x] == HeightAt(noise, x)
    modifies heights
    ensures forall x :: 0 <= x < (i + 1) * BIOME_WIDTH ==> heights[x] == HeightAt(noise, x)
  {
    var lerpRange := LERP_RANGE;
    var idx2ndToLast := |BIOMES| - 1 - 2;
    var biome := BIOMES[i];
    var start := i * BIOME_WIDTH;
    var hasNext := i <= idx2ndToLast;
    var bx := 0;
    while bx < BIOME_WIDTH
      invariant 0 <= bx <= BIOME_WIDTH
      invariant forall x :: 0 <= x < start + bx ==> heights[x] == HeightAt(noise, x)
    {
      var worldX := start + bx;
      var own := BiomeElevation(biome, noise(biome, worldX));
      var h;
      if bx < BIOME_WIDTH - lerpRange || !hasNext {
        h := own;
      } else {
        var relPos := (bx - (BIOME_WIDTH - lerpRange)) as real / lerpRange as real;
        h := (1.0 - relPos) * own + relPos * BiomeElevation(BIOMES[i + 1], noise(BIOMES[i + 1], worldX));
      }
      ColumnOfBiome(noise, i, bx);
      assert h == ColumnHeight(noise, i, bx);
      heights[worldX] := h;
      bx := bx + 1;
    }
    ColumnOfBiome(noise, i, 0);
  }

  /** Outside the transition zone, and everywhere in the last biome, a column has its own biome's elevation. */
  lemma OwnElevationOutsideZone(noise: Noise1, x: int)
    requires 0 <= x < MAP_W
    requires x % BIOME_WIDTH < BIOME_WIDTH - LERP_RANGE || x / BIOME_WIDTH == |BIOMES| - 2
    ensures HeightAt(noise, x) == BiomeElevation(BIOMES[x / BIOME_WIDTH], noise(BIOMES[x / BIOME_WIDTH], x))
  {
  }

  lemma MulBetween(t: real, d: real)
    requires 0.0 <= t <= 1.0 && 0.0 <= d
    ensures 0.0 <= t * d <= d
  {
    assert (1.0 - t) * d >= 0.0;
  }

  /** (1 - t)·a + t·b lies between a and b for t in [0, 1]. */
  lemma LerpBetween(a: real, b: real, t: real)
    requires 0.0 <= t <= 1.0
    ensures Min2(a, b) <= (1.0 - t) * a + t * b <= Max2(a, b)
  {
    assert (1.0 - t) * a + t * b == a + t * (b - a);
    if a <= b {
      MulBetween(t, b - a);
    } else {
      MulBetween(t, a - b);
      assert t * (b - a) == -(t * (a - b));
    }
  }

  function Min2(a: real, b: real): real { if a <= b then a else b }
  function Max2(a: real, b: real): real { if a >= b then a else b }

  /**
   * Inside the zone the weight of the next biome is t = (bx - (BW - L)) / L in [0, 1),
   * and the height lies between the two biomes' own elevations at that column.
   */
  lemma BlendInsideZone(noise: Noise1, x: int)
    requires 0 <= x < MAP_W
    requires x % BIOME_WIDTH >= BIOME_WIDTH - LERP_RANGE && x / BIOME_WIDTH < |BIOMES| - 2
    ensures var i := x / BIOME_WIDTH;
      var t := (x % BIOME_WIDTH - (BIOME_WIDTH - LERP_RANGE)) as real / LERP_RANGE as real;
      var own := BiomeElevation(BIOMES[i], noise(BIOMES[i], x));
      var next := BiomeElevation(BIOMES[i + 1], noise(BIOMES[i + 1], x));
      0.0 <= t < 1.0
      && HeightAt(noise, x) == (1.0 - t) * own + t * next
      && Min2(own, next) <= HeightAt(noise, x) <= Max2(own, next)
  {
    var i, bx := x / BIOME_WIDTH, x % BIOME_WIDTH;
    var k := bx - (BIOME_WIDTH - LERP_RANGE);
    assert 0 <= k < LERP_RANGE;
    var t := k as real / LERP_RANGE as real;
    assert 0.0 <= t < 1.0;
    var own := BiomeElevation(BIOMES[i], noise(BIOMES[i], x));
    var next := BiomeElevation(BIOMES[i + 1], noise(BIOMES[i + 1], x));
    assert i * BIOME_WIDTH + bx == x;
    assert HeightAt(noise, x) == (1.0 - t) * own + t * next;
    LerpBetween(own, next, t);
  }

  ghost predicate NoiseBounded(noise: Noise1)
  {
    forall b, x :: -1.0 <= noise(b, x) <= 1.0
  }

  /** With noise in [-1, 1], every surface height lies between the highest top and the lowest bottom of the five biomes. */
  lemma HeightWithinMap(noise: Noise1, x: int)
    requires NoiseBounded(noise) && 0 <= x < MAP_W
    ensures 0.0 <= HeightAt(noise, x) <= 125.0
  {
    var i, bx := x / BIOME_WIDTH, x % BIOME_WIDTH;
    assert 0 <= i < |BIOMES| - 1 by { assert BIOME_WIDTH == 600; }
    ElevationWithinBiome(BIOMES[i], noise(BIOMES[i], x));
    SurfaceBiomeWithin(i);
    if bx >= BIOME_WIDTH - LERP_RANGE && i < |BIOMES| - 2 {
      ElevationWithinBiome(BIOMES[i + 1], noise(BIOMES[i + 1], x));
      SurfaceBiomeWithin(i + 1);
      BlendInsideZone(noise, x);
    } else {
      OwnElevationOutsideZone(noise, x);
    }
  }

  /** The five surface biomes lie between rows 0 and 125. */
  lemma SurfaceBiomeWithin(i: int)
    requires 0 <= i < |BIOMES| - 1
    ensures 0 <= ElevationTop(BIOMES[i]) && ElevationBottom(BIOMES[i]) <= 125
  {
  }

  /** `height_map.astype(int)`: the surface row of every column. */
  function SurfaceLevels(heights: seq<real>): (surf: seq<int>)
    ensures |surf| == |heights|
    ensures forall x :: 0 <= x < |heights| ==> surf[x] == Trunc(heights[x])
  {
    seq(|heights|, x requires 0 <= x < |heights| => Trunc(heights[x]))
  }

  /** With bounded noise every surface row lies inside the map, so the generator never indexes past it. */
  lemma SurfaceWithinMap(noise: Noise1, heights: seq<real>, x: int)
    requires NoiseBounded(noise) && |heights| == MAP_W
    requires forall k :: 0 <= k < MAP_W ==> heights[k] == HeightAt(noise, k)
    requires 0 <= x < MAP_W
    ensures 0 <= SurfaceLevels(heights)[x] <= 125 < MAP_H
  {
    HeightWithinMap(noise, x);
  }
}
