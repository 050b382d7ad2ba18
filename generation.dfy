/**
 * Terrain generation: the material at a world position is decided by height
 * and two noise fields (a layered cave noise and an ore noise), and a chunk is
 * generated by writing that material into every cell, row by row.
 *
 * The noise crate is not part of this model: its fractal Perlin noise and its
 * plain Perlin noise are parameters, as functions from a 32-bit seed and a
 * sample point to a value, so the same seed always gives the same noise.
 */
module Generation {
  import opened Wrappers
  import opened Ints
  import opened Chunks
  import M = Materials

  /** The noise crate's generators, each a deterministic function of seed and point. */
  datatype NoiseLibrary = NoiseLibrary(fbm: (int, real, real) -> real, perlin: (int, real, real) -> real)

  const SURFACE_LEVEL: int := 32
  const BEDROCK_LEVEL: int := -96
  const CAVE_THRESHOLD: real := 0.2
  const ORE_THRESHOLD: real := 0.7
  const SAND_DEPTH: int := 8

  /** The cave noise is seeded with the seed cut to 32 bits (`seed as u32`). */
  function CaveNoise(lib: NoiseLibrary, seed: U64, wx: int, wy: int): real
  {
    lib.fbm(seed % 0x1_0000_0000, wx as real, wy as real)
  }

  /** The ore noise is seeded with seed + 1 cut to 32 bits and sampled at a tenth of the position. */
  function OreNoise(lib: NoiseLibrary, seed: U64, wx: int, wy: int): real
  {
    lib.perlin((seed + 1) % 0x1_0000_0000, wx as real * 0.1, wy as real * 0.1)
  }

  /**
   * `get_material_at`: bedrock at and below -96, air above 32; in between a
   * cave where the cave noise exceeds 0.2, sand in the top eight rows, metal
   * where the ore noise exceeds 0.7, and stone otherwise.
   */
  function MaterialAt(lib: NoiseLibrary, seed: U64, wx: int, wy: int): U16
  {
    if wy <= BEDROCK_LEVEL then M.BEDROCK
    else if wy > SURFACE_LEVEL then M.AIR
    else if CaveNoise(lib, seed, wx, wy) > CAVE_THRESHOLD then M.AIR
    else if SURFACE_LEVEL - wy < SAND_DEPTH then M.SAND
    else if OreNoise(lib, seed, wx, wy) > ORE_THRESHOLD then M.METAL
    else M.STONE
  }

  /**
   * Where each material occurs: bedrock exactly at and below -96, whatever
   * the noise; air exactly above 32 or in a cave; sand exactly in the solid
   * part of the rows 25..32; metal and stone exactly in the solid part below,
   * split by the ore noise.
   */
  lemma MaterialLayers(lib: NoiseLibrary, seed: U64, wx: int, wy: int)
    ensures var m := MaterialAt(lib, seed, wx, wy);
            var solid := BEDROCK_LEVEL < wy <= SURFACE_LEVEL && CaveNoise(lib, seed, wx, wy) <= CAVE_THRESHOLD;
            && (m == M.BEDROCK <==> wy <= BEDROCK_LEVEL)
            && (m == M.AIR <==> wy > SURFACE_LEVEL || (BEDROCK_LEVEL < wy && CaveNoise(lib, seed, wx, wy) > CAVE_THRESHOLD))
            && (m == M.SAND <==> solid && wy > SURFACE_LEVEL - SAND_DEPTH)
            && (m == M.METAL <==> solid && wy <= SURFACE_LEVEL - SAND_DEPTH && OreNoise(lib, seed, wx, wy) > ORE_THRESHOLD)
            && (m == M.STONE <==> solid && wy <= SURFACE_LEVEL - SAND_DEPTH && OreNoise(lib, seed, wx, wy) <= ORE_THRESHOLD)
  {
  }

  /** Generation only ever yields these five materials. */
  lemma MaterialKinds(lib: NoiseLibrary, seed: U64, wx: int, wy: int)
    ensures MaterialAt(lib, seed, wx, wy) in {M.BEDROCK, M.AIR, M.SAND, M.METAL, M.STONE}
  {
  }

  /** Seeds equal in their low 32 bits, with seed + 1 also equal there, produce the same terrain. */
  lemma SeedsAgreeInLowBits(lib: NoiseLibrary, s1: U64, s2: U64, wx: int, wy: int)
    requires s1 % 0x1_0000_0000 == s2 % 0x1_0000_0000
    ensures MaterialAt(lib, s1, wx, wy) == MaterialAt(lib, s2, wx, wy)
  {
    assert (s1 + 1) % 0x1_0000_0000 == (s2 + 1) % 0x1_0000_0000;
  }

  // ---------------------------------------------------------------------
  // Generating a chunk

  /** The dirty rectangle after writing rows 0..ly-1 and cells 0..lx-1 of row ly. */
  function RectAfter(ly: nat, lx: nat): Option<DirtyRect>
    requires lx <= CHUNK_SIZE
  {
    if ly == 0 && lx == 0 then None
    else if ly == 0 then Some(DirtyRect(0, 0, lx - 1, 0))
    else if lx == 0 then Some(DirtyRect(0, 0, 63, ly - 1))
    else Some(DirtyRect(0, 0, 63, ly))
  }

  /**
   * A new chunk at (cx, cy) in which the cells before (lx, ly) in row order
   * hold their generated material and the others are still AIR, as
   * `set_material` leaves it: dirty, with the written cells' bounding box.
   */
  ghost predicate Progress(c: ChunkState, lib: NoiseLibrary, seed: U64, cx: int, cy: int, ly: nat, lx: nat)
    requires lx <= CHUNK_SIZE
  {
    && c.x == cx && c.y == cy
    && c.temperature == NewChunk(cx, cy).temperature && c.pressure == NewChunk(cx, cy).pressure
    && c.dirty == (ly > 0 || lx > 0) && c.dirtyRect == RectAfter(ly, lx) && !c.simulationActive
    && forall x: nat, y: nat | InChunk(x, y) ::
         PixelAt(c, x, y) == if y < ly || (y == ly && x < lx) then NewPixel(MaterialAt(lib, seed, cx * 64 + x, cy * 64 + y))
                             else Air
  }

  /** Writing the next cell's material advances the progress by one cell. */
  lemma ProgressStep(c: ChunkState, lib: NoiseLibrary, seed: U64, cx: int, cy: int, ly: nat, lx: nat)
    requires ly < CHUNK_SIZE && lx < CHUNK_SIZE && Progress(c, lib, seed, cx, cy, ly, lx)
    ensures Progress(WithMaterial(c, lx, ly, MaterialAt(lib, seed, cx * 64 + lx, cy * 64 + ly)),
                     lib, seed, cx, cy, ly, lx + 1)
  {
    SetThenGet(c, lx, ly, NewPixel(MaterialAt(lib, seed, cx * 64 + lx, cy * 64 + ly)));
  }

  /** A finished row is the start of the next one. */
  lemma ProgressNextRow(c: ChunkState, lib: NoiseLibrary, seed: U64, cx: int, cy: int, ly: nat)
    requires Progress(c, lib, seed, cx, cy, ly, CHUNK_SIZE)
    ensures Progress(c, lib, seed, cx, cy, ly + 1, 0)
  {
  }

  /**
   * A generated chunk: every cell holds the generated material of its world
   * position with no flags, temperature and pressure are as new, the chunk is
   * not dirty, and its dirty rectangle is the whole chunk (every cell was
   * written; only the flag is reset afterwards).
   */
  ghost predicate IsGenerated(c: ChunkState, lib: NoiseLibrary, seed: U64, cx: int, cy: int)
  {
    && c.x == cx && c.y == cy
    && c.temperature == NewChunk(cx, cy).temperature && c.pressure == NewChunk(cx, cy).pressure
    && !c.dirty && c.dirtyRect == Some(DirtyRect(0, 0, 63, 63)) && !c.simulationActive
    && forall x: nat, y: nat | InChunk(x, y) :: PixelAt(c, x, y) == NewPixel(MaterialAt(lib, seed, cx * 64 + x, cy * 64 + y))
  }

  /** One row of `generate_chunk`: local_x from 0 to 63. */
  method GenerateRow(chunk: Chunk, lib: NoiseLibrary, seed: U64, cx: int, cy: int, ly: nat)
    requires chunk.Valid() && ly < CHUNK_SIZE && Progress(chunk.Value(), lib, seed, cx, cy, ly, 0)
    modifies chunk, chunk.pixels
    ensures chunk.Valid() && Progress(chunk.Value(), lib, seed, cx, cy, ly + 1, 0)
  {
    var lx := 0;
    while lx < CHUNK_SIZE
      invariant lx <= CHUNK_SIZE && chunk.Valid() && Progress(chunk.Value(), lib, seed, cx, cy, ly, lx)
    {
      var m := MaterialAt(lib, seed, cx * 64 + lx, cy * 64 + ly);
      ProgressStep(chunk.Value(), lib, seed, cx, cy, ly, lx);
      chunk.SetMaterial(lx, ly, m);
      lx := lx + 1;
    }
    ProgressNextRow(chunk.Value(), lib, seed, cx, cy, ly);
  }

  /** `generate_chunk`: a new chunk, every cell set to its material row by row, then marked clean. */
  method GenerateChunk(lib: NoiseLibrary, seed: U64, cx: int, cy: int) returns (chunk: Chunk)
    ensures fresh(chunk) && chunk.Valid() && IsGenerated(chunk.Value(), lib, seed, cx, cy)
  {
    chunk := new Chunk(cx, cy);
    var ly := 0;
    while ly < CHUNK_SIZE
      invariant ly <= CHUNK_SIZE && chunk.Valid() && fresh(chunk) && fresh(chunk.pixels)
      invariant Progress(chunk.Value(), lib, seed, cx, cy, ly, 0)
    {
      GenerateRow(chunk, lib, seed, cx, cy, ly);
      ly := ly + 1;
    }
    chunk.dirty := false;
  }

  /** Every cell index is the row-major index of one cell. */
  lemma CellOfIndex(i: nat)
    requires i < CHUNK_AREA
    ensures InChunk(i % 64, i / 64) && Index(i % 64, i / 64) == i
  {
  }

  /** Two chunks that agree on every cell have the same pixels. */
  lemma PixelsDetermined(a: ChunkState, b: ChunkState)
    requires forall x: nat, y: nat | InChunk(x, y) :: PixelAt(a, x, y) == PixelAt(b, x, y)
    ensures a.pixels == b.pixels
  {
    forall i | 0 <= i < CHUNK_AREA
      ensures a.pixels[i] == b.pixels[i]
    {
      CellOfIndex(i);
      assert PixelAt(a, i % 64, i / 64) == PixelAt(b, i % 64, i / 64);
    }
  }

  /** The same noise, seed and position always generate the same chunk. */
  lemma GenerationDeterministic(a: ChunkState, b: ChunkState, lib: NoiseLibrary, seed: U64, cx: int, cy: int)
    requires IsGenerated(a, lib, seed, cx, cy) && IsGenerated(b, lib, seed, cx, cy)
    ensures a == b
  {
    PixelsDetermined(a, b);
  }

  /** Chunk row -2 reaches from y = -128 to -65: its rows 0..32 are bedrock for any seed. */
  lemma BedrockChunk(c: ChunkState, lib: NoiseLibrary, seed: U64, cx: int, x: nat, y: nat)
    requires IsGenerated(c, lib, seed, cx, -2) && InChunk(x, y) && y <= 32
    ensures PixelAt(c, x, y).material == M.BEDROCK
  {
  }
}
