/** The cave masks of world generation, one boolean grid per biome, generated on demand. */
module Caves {
  import opened Settings
  import opened Grids

  /** pnoise2 at cell (x, y) with the biome's cave-map parameters and the world seed. */
  type Noise2 = (Biome, int, int) -> real

  /** The number of tile rows on one screen; caves begin between half of it and all of it below the surface. */
  const SCREEN_TILES_Y := 45

  lemma ScreenTiles()
    ensures SCREEN_TILES_Y == RES_H / TILE_SIZE
  {
  }

  /** A cell is cave when it is at least `minY` rows below its column's surface and the rescaled noise exceeds the biome's threshold. */
  predicate IsCave(surf: seq<int>, noise: Noise2, b: Biome, minY: int, x: int, y: int)
    requires 0 <= x < |surf|
  {
    surf[x] + minY <= y && (noise(b, x, y) + 1.0) / 2.0 > CaveThreshold(b)
  }

  class CaveGen {
    /** The integer surface row of each column, `int(height_map[x])`. */
    const surf: seq<int>
    const noise: Noise2
    var maps: map<Biome, array2<bool>>

    /** Generates the mask of the current biome straight away, with `minY` the offset drawn for it. */
    constructor (surf: seq<int>, noise: Noise2, currentBiome: Biome, minY: int)
      requires SurfaceOk(surf)
      requires SCREEN_TILES_Y / 2 <= minY <= SCREEN_TILES_Y
      ensures this.surf == surf && this.noise == noise
      ensures maps.Keys == {currentBiome} && fresh(maps[currentBiome])
      ensures CaveMask(maps[currentBiome], currentBiome, minY)
    {
      this.surf := surf;
      this.noise := noise;
      maps := map[];
      new;
      GenMap(currentBiome, minY);
    }

    /** The mask of biome `b` with offset `minY`, over the whole map. */
    ghost predicate CaveMask(m: array2<bool>, b: Biome, minY: int)
      reads this, m
      requires |surf| == MAP_W
    {
      m.Length0 == MAP_W && m.Length1 == MAP_H
      && forall x, y :: 0 <= x < MAP_W && 0 <= y < MAP_H ==> m[x, y] == IsCave(surf, noise, b, minY, x, y)
    }

    /** `gen_map`: fills a fresh mask of `b` column by column and stores it, replacing any earlier one. */
    method GenMap(b: Biome, minY: int)
      requires SurfaceOk(surf)
      requires SCREEN_TILES_Y / 2 <= minY <= SCREEN_TILES_Y
      modifies this`maps
      ensures b in maps && fresh(maps[b]) && maps == old(maps)[b := maps[b]]
      ensures CaveMask(maps[b], b, minY)
    {
      var caveMap := new bool[MAP_W, MAP_H]((x, y) => false);
      var x := 0;
      while x < MAP_W
        invariant 0 <= x <= MAP_W && maps == old(maps)
        invariant forall i, j :: 0 <= i < MAP_W && 0 <= j < MAP_H ==>
          caveMap[i, j] == (i < x && IsCave(surf, noise, b, minY, i, j))
      {
        var surfaceLevel := surf[x];
        var y := surfaceLevel + minY;
        while y < MAP_H
          invariant surfaceLevel + minY <= y && maps == old(maps)
          invariant forall i, j :: 0 <= i < MAP_W && 0 <= j < MAP_H ==>
            caveMap[i, j] == ((i < x || (i == x && j < y)) && IsCave(surf, noise, b, minY, i, j))
        {
          caveMap[x, y] := (noise(b, x, y) + 1.0) / 2.0 > CaveThreshold(b);
          y := y + 1;
        }
        x := x + 1;
      }
      maps := maps[b := caveMap];
    }
  }

  /** No cave opens within `minY` rows of the surface, and `minY` is at least half a screen. */
  lemma NoCaveNearSurface(surf: seq<int>, noise: Noise2, b: Biome, minY: int, x: int, y: int)
    requires 0 <= x < |surf| && SCREEN_TILES_Y / 2 <= minY <= SCREEN_TILES_Y
    requires y < surf[x] + minY
    ensures !IsCave(surf, noise, b, minY, x, y)
    ensures SCREEN_TILES_Y / 2 == 22 && SCREEN_TILES_Y == 45
  {
  }
}
