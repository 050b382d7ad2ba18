/**
 * Pixel access in world coordinates over the map of loaded chunks: the split
 * of a world coordinate into a chunk position and a local offset (Euclidean
 * division and remainder by 64), reads that fail on an unloaded chunk, and
 * writes that do nothing there.
 */
module WorldGrid {
  import opened Wrappers
  import opened Ints
  import opened Chunks
  import Temperature

  /** `world_to_chunk_coords`. */
  function WorldToChunkCoords(wx: int, wy: int): (r: (IVec2, nat, nat))
    ensures r.1 < CHUNK_SIZE && r.2 < CHUNK_SIZE
    ensures r.0.x * CHUNK_SIZE + r.1 == wx && r.0.y * CHUNK_SIZE + r.2 == wy
  {
    (IVec2(wx / 64, wy / 64), wx % 64, wy % 64)
  }

  /** The split is the only one with a local offset in [0, 64), also for negative coordinates. */
  lemma WorldToChunkCoordsUnique(wx: int, wy: int, cp: IVec2, lx: int, ly: int)
    requires 0 <= lx < CHUNK_SIZE && 0 <= ly < CHUNK_SIZE
    requires cp.x * CHUNK_SIZE + lx == wx && cp.y * CHUNK_SIZE + ly == wy
    ensures WorldToChunkCoords(wx, wy) == (cp, lx, ly)
  {
    var r := WorldToChunkCoords(wx, wy);
    DivUnique(wx, r.0.x, r.1, cp.x, lx);
    DivUnique(wy, r.0.y, r.2, cp.y, ly);
  }

  lemma DivUnique(w: int, q1: int, r1: int, q2: int, r2: int)
    requires 0 <= r1 < 64 && 0 <= r2 < 64
    requires q1 * 64 + r1 == w && q2 * 64 + r2 == w
    ensures q1 == q2 && r1 == r2
  {
  }

  /** Distinct world pixels never share both chunk and local offset. */
  lemma WorldToChunkCoordsInjective(wx1: int, wy1: int, wx2: int, wy2: int)
    requires wx1 != wx2 || wy1 != wy2
    ensures WorldToChunkCoords(wx1, wy1) != WorldToChunkCoords(wx2, wy2)
  {
  }

  /** The world coordinate of local cell (x, y) of chunk `cp`. */
  function WorldX(cp: IVec2, x: nat): int { cp.x * CHUNK_SIZE + x }
  function WorldY(cp: IVec2, y: nat): int { cp.y * CHUNK_SIZE + y }

  /** A local cell's world coordinate splits back into that chunk and cell. */
  lemma LocalRoundTrip(cp: IVec2, x: nat, y: nat)
    requires InChunk(x, y)
    ensures WorldToChunkCoords(WorldX(cp, x), WorldY(cp, y)) == (cp, x, y)
  {
    WorldToChunkCoordsUnique(WorldX(cp, x), WorldY(cp, y), cp, x, y);
  }

  /** `World::get_pixel`: None exactly when the containing chunk is not loaded. */
  function GetPixel(chunks: ChunkMap, wx: int, wy: int): (r: Option<Pixel>)
    ensures r.None? <==> WorldToChunkCoords(wx, wy).0 !in chunks
  {
    var (cp, lx, ly) := WorldToChunkCoords(wx, wy);
    if cp in chunks then Some(PixelAt(chunks[cp], lx, ly)) else None
  }

  /** `Chunk::set_pixel` reached through world coordinates; nothing happens in an unloaded chunk. */
  function WriteAt(chunks: ChunkMap, wx: int, wy: int, p: Pixel): (r: ChunkMap)
    ensures r.Keys == chunks.Keys
  {
    var (cp, lx, ly) := WorldToChunkCoords(wx, wy);
    if cp in chunks then chunks[cp := WithPixel(chunks[cp], lx, ly, p)] else chunks
  }

  /** `Chunk::set_pixel` on local cell (x, y) of chunk `cp`, when that chunk is loaded. */
  function WriteLocal(chunks: ChunkMap, cp: IVec2, x: nat, y: nat, p: Pixel): (r: ChunkMap)
    requires InChunk(x, y)
    ensures r.Keys == chunks.Keys
  {
    if cp in chunks then chunks[cp := WithPixel(chunks[cp], x, y, p)] else chunks
  }

  /** Writing a local cell is writing its world coordinate. */
  lemma WriteLocalIsWriteAt(chunks: ChunkMap, cp: IVec2, x: nat, y: nat, p: Pixel)
    requires InChunk(x, y)
    ensures WriteLocal(chunks, cp, x, y, p) == WriteAt(chunks, WorldX(cp, x), WorldY(cp, y), p)
  {
    LocalRoundTrip(cp, x, y);
  }

  /** `World::set_pixel`: the material with no flags, written through `set_material`. */
  function SetPixel(chunks: ChunkMap, wx: int, wy: int, m: U16): (r: ChunkMap)
    ensures r.Keys == chunks.Keys
  {
    WriteAt(chunks, wx, wy, NewPixel(m))
  }

  /** Only this pixel is written and only when its chunk is loaded; the chunk set and temperatures stay. */
  lemma WriteAtEffect(chunks: ChunkMap, wx: int, wy: int, p: Pixel)
    ensures WriteAt(chunks, wx, wy, p).Keys == chunks.Keys
    ensures GetPixel(chunks, wx, wy).None? ==> WriteAt(chunks, wx, wy, p) == chunks
    ensures GetPixel(chunks, wx, wy).Some? ==> GetPixel(WriteAt(chunks, wx, wy, p), wx, wy) == Some(p)
    ensures forall qx, qy | qx != wx || qy != wy ::
              GetPixel(WriteAt(chunks, wx, wy, p), qx, qy) == GetPixel(chunks, qx, qy)
    ensures forall cp | cp in chunks ::
              WriteAt(chunks, wx, wy, p)[cp].temperature == chunks[cp].temperature
  {
    var (cp, lx, ly) := WorldToChunkCoords(wx, wy);
    if cp in chunks {
      SetThenGet(chunks[cp], lx, ly, p);
      forall qx, qy | qx != wx || qy != wy
        ensures GetPixel(WriteAt(chunks, wx, wy, p), qx, qy) == GetPixel(chunks, qx, qy)
      {
        WorldToChunkCoordsInjective(wx, wy, qx, qy);
      }
    }
  }

  /** `World::set_pixel` into an unloaded chunk changes nothing; otherwise the read-back is the bare material. */
  lemma SetPixelEffect(chunks: ChunkMap, wx: int, wy: int, m: U16)
    ensures GetPixel(chunks, wx, wy).None? ==> SetPixel(chunks, wx, wy, m) == chunks
    ensures GetPixel(chunks, wx, wy).Some? ==> GetPixel(SetPixel(chunks, wx, wy, m), wx, wy) == Some(Pixel(m, 0))
    ensures forall qx, qy | qx != wx || qy != wy ::
              GetPixel(SetPixel(chunks, wx, wy, m), qx, qy) == GetPixel(chunks, qx, qy)
  {
    WriteAtEffect(chunks, wx, wy, NewPixel(m));
  }

  /** `World::get_temperature_at_pixel`: the pixel's coarse cell, or 20 degrees in an unloaded chunk. */
  function TemperatureAtWorld(chunks: ChunkMap, wx: int, wy: int): (t: real)
    ensures WorldToChunkCoords(wx, wy).0 !in chunks ==> t == 20.0
  {
    var (cp, lx, ly) := WorldToChunkCoords(wx, wy);
    if cp in chunks then Temperature.TemperatureAtPixel(chunks[cp], lx, ly) else 20.0
  }

  /** `add_heat_at_pixel` on a loaded chunk's local cell; an unloaded chunk is left alone. */
  function AddHeat(chunks: ChunkMap, cp: IVec2, x: nat, y: nat, heat: real): (r: ChunkMap)
    requires InChunk(x, y)
    ensures r.Keys == chunks.Keys
  {
    if cp in chunks then chunks[cp := Temperature.AddHeatAtPixel(chunks[cp], x, y, heat)] else chunks
  }

  /** Adding heat never changes a pixel anywhere in the world. */
  lemma AddHeatKeepsPixels(chunks: ChunkMap, cp: IVec2, x: nat, y: nat, heat: real)
    requires InChunk(x, y)
    ensures AddHeat(chunks, cp, x, y, heat).Keys == chunks.Keys
    ensures forall qx, qy :: GetPixel(AddHeat(chunks, cp, x, y, heat), qx, qy) == GetPixel(chunks, qx, qy)
  {
  }
}
