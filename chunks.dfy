/**
 * The chunk manager: the screen is drawn chunk by chunk, a chunk being the
 * `CHUNK_SIZE` x `CHUNK_SIZE` tiles below a top-left tile, and the visible
 * chunks are the grid of chunks that covers the screen from the camera's tile,
 * each pushed back inside the map.
 */
module Chunks {
  import opened Settings
  import opened PyNum

  type Coord = (int, int)

  // ---- One chunk ----

  /** The first `n` tiles of the chunk at `(tx, ty)`, column by column (x-major). */
  function ChunkPrefix(tx: int, ty: int, n: nat): (cs: seq<Coord>)
    ensures |cs| == n
  {
    seq(n, k => (tx + k / CHUNK_SIZE, ty + k % CHUNK_SIZE))
  }

  function ChunkCoords(tx: int, ty: int): seq<Coord>
  {
    ChunkPrefix(tx, ty, CHUNK_SIZE * CHUNK_SIZE)
  }

  /** The chunk holds exactly the tiles of the square below `(tx, ty)`, each once. */
  lemma ChunkIsSquare(tx: int, ty: int)
    ensures |ChunkCoords(tx, ty)| == CHUNK_SIZE * CHUNK_SIZE
    ensures forall a, b :: (a, b) in ChunkCoords(tx, ty) <==>
      tx <= a < tx + CHUNK_SIZE && ty <= b < ty + CHUNK_SIZE
    ensures forall i, j :: 0 <= i < j < |ChunkCoords(tx, ty)| ==> ChunkCoords(tx, ty)[i] != ChunkCoords(tx, ty)[j]
  {
    var cs := ChunkCoords(tx, ty);
    forall a, b | tx <= a < tx + CHUNK_SIZE && ty <= b < ty + CHUNK_SIZE
      ensures (a, b) in cs
    {
      var k := (a - tx) * CHUNK_SIZE + (b - ty);
      assert cs[k] == (a, b);
    }
  }

  /** Columns come in order: every tile of column `x` precedes every tile of column `x + 1`. */
  lemma ChunkIsXMajor(tx: int, ty: int, i: int, j: int)
    requires 0 <= i < j < CHUNK_SIZE * CHUNK_SIZE
    ensures ChunkCoords(tx, ty)[i].0 <= ChunkCoords(tx, ty)[j].0
    ensures ChunkCoords(tx, ty)[i].0 == ChunkCoords(tx, ty)[j].0 ==> ChunkCoords(tx, ty)[i].1 < ChunkCoords(tx, ty)[j].1
  {
  }

  /** `get_chunk`: the two nested loops over the chunk's columns and rows. */
  method GetChunk(tx: int, ty: int) returns (cs: seq<Coord>)
    ensures cs == ChunkCoords(tx, ty)
  {
    cs := [];
    var x := 0;
    while x < CHUNK_SIZE
      invariant 0 <= x <= CHUNK_SIZE
      invariant cs == ChunkPrefix(tx, ty, x * CHUNK_SIZE)
    {
      var y := 0;
      while y < CHUNK_SIZE
        invariant 0 <= y <= CHUNK_SIZE
        invariant cs == ChunkPrefix(tx, ty, x * CHUNK_SIZE + y)
      {
        var n := x * CHUNK_SIZE + y;
        assert n / CHUNK_SIZE == x && n % CHUNK_SIZE == y;
        cs := cs + [(tx + x, ty + y)];
        assert cs == ChunkPrefix(tx, ty, n + 1);
        y := y + 1;
      }
      x := x + 1;
    }
  }

  // ---- The visible chunks ----

  /** `ceil(RES / (CHUNK_SIZE * TILE_SIZE))` chunks across and down. */
  const NUM_CHUNKS_X := 4
  const NUM_CHUNKS_Y := 2

  /** The screen needs 4 chunks across and 2 down. */
  lemma ChunkGrid()
    ensures NUM_CHUNKS_X == CeilDiv(RES_W, CHUNK_SIZE * TILE_SIZE) && NUM_CHUNKS_Y == CeilDiv(RES_H, CHUNK_SIZE * TILE_SIZE)
  {
  }

  /** `camera_offset // TILE_SIZE` on the float offset: the floor of the exact quotient. */
  function CameraTile(offset: real): int
  {
    (offset / TILE_SIZE as real).Floor
  }

  /** The top-left tile of the chunk `n` chunks along an axis, clamped into `[0, limit - CHUNK_SIZE]`. */
  function ChunkOrigin(n: int, offset: real, limit: int): (t: int)
    requires limit >= CHUNK_SIZE
    ensures 0 <= t <= limit - CHUNK_SIZE
    ensures 0 <= n * CHUNK_SIZE + CameraTile(offset) <= limit - CHUNK_SIZE ==> t == n * CHUNK_SIZE + CameraTile(offset)
  {
    Max(0, Min(n * CHUNK_SIZE + CameraTile(offset), limit - CHUNK_SIZE))
  }

  /** The chunk in column `x` and row `y` of the screen's chunk grid. */
  function ChunkAt(x: int, y: int, camX: real, camY: real): seq<Coord>
  {
    ChunkCoords(ChunkOrigin(x, camX, MAP_W), ChunkOrigin(y, camY, MAP_H))
  }

  /** The first `n` chunks of the grid, column by column. */
  function VisiblePrefix(camX: real, camY: real, n: nat): (r: seq<seq<Coord>>)
    ensures |r| == n
  {
    seq(n, k => ChunkAt(k / NUM_CHUNKS_Y, k % NUM_CHUNKS_Y, camX, camY))
  }

  function VisibleChunks(camX: real, camY: real): seq<seq<Coord>>
  {
    VisiblePrefix(camX, camY, NUM_CHUNKS_X * NUM_CHUNKS_Y)
  }

  /** Eight chunks, every tile of which is inside the map, whatever the camera offset. */
  lemma VisibleChunksInMap(camX: real, camY: real)
    ensures |VisibleChunks(camX, camY)| == NUM_CHUNKS_X * NUM_CHUNKS_Y == 8
    ensures forall i :: 0 <= i < |VisibleChunks(camX, camY)| ==> |VisibleChunks(camX, camY)[i]| == CHUNK_SIZE * CHUNK_SIZE
    ensures forall i, a, b :: 0 <= i < |VisibleChunks(camX, camY)| && (a, b) in VisibleChunks(camX, camY)[i] ==>
      0 <= a < MAP_W && 0 <= b < MAP_H
  {
    ChunkGrid();
    var v := VisibleChunks(camX, camY);
    forall i, a, b | 0 <= i < |v| && (a, b) in v[i]
      ensures 0 <= a < MAP_W && 0 <= b < MAP_H
    {
      ChunkIsSquare(ChunkOrigin(i / NUM_CHUNKS_Y, camX, MAP_W), ChunkOrigin(i % NUM_CHUNKS_Y, camY, MAP_H));
    }
  }

  /** An unclamped chunk starts exactly `x` chunks right and `y` chunks down from the camera's tile. */
  lemma ChunkFollowsCamera(x: int, y: int, camX: real, camY: real)
    requires 0 <= x * CHUNK_SIZE + CameraTile(camX) <= MAP_W - CHUNK_SIZE
    requires 0 <= y * CHUNK_SIZE + CameraTile(camY) <= MAP_H - CHUNK_SIZE
    ensures ChunkAt(x, y, camX, camY)[0] == (x * CHUNK_SIZE + CameraTile(camX), y * CHUNK_SIZE + CameraTile(camY))
  {
  }

  /** `update`: the chunks of the screen grid for the camera offset `(camX, camY)`, column by column. */
  method Update(camX: real, camY: real) returns (chunks: seq<seq<Coord>>)
    ensures chunks == VisibleChunks(camX, camY)
  {
    chunks := [];
    var x := 0;
    while x < NUM_CHUNKS_X
      invariant 0 <= x <= NUM_CHUNKS_X
      invariant chunks == VisiblePrefix(camX, camY, x * NUM_CHUNKS_Y)
    {
      var y := 0;
      while y < NUM_CHUNKS_Y
        invariant 0 <= y <= NUM_CHUNKS_Y
        invariant chunks == VisiblePrefix(camX, camY, x * NUM_CHUNKS_Y + y)
      {
        var n := x * NUM_CHUNKS_Y + y;
        assert n / NUM_CHUNKS_Y == x && n % NUM_CHUNKS_Y == y;
        var chunkX := x * CHUNK_SIZE + CameraTile(camX);
        var chunkY := y * CHUNK_SIZE + CameraTile(camY);
        var targetX := Max(0, Min(chunkX, MAP_W - CHUNK_SIZE));
        var targetY := Max(0, Min(chunkY, MAP_H - CHUNK_SIZE));
        var chunk := GetChunk(targetX, targetY);
        chunks := chunks + [chunk];
        assert chunks == VisiblePrefix(camX, camY, n + 1);
        y := y + 1;
      }
      x := x + 1;
    }
  }
}
