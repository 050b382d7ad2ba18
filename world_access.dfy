/**
 * The server's world view for creatures: world coordinates split into a
 * chunk and a local offset, and a cache of decoded chunks in front of the
 * database's chunk rows. A row's pixel data is modelled as already decoded,
 * or None when it does not decode. Reads always load the chunk first, so a
 * read never finds the chunk missing; writes go to the cache and mark the
 * chunk dirty.
 */
module WorldAccess {
  import opened Wrappers
  import opened Ints
  import M = Materials
  import opened Chunks

  /** A database chunk row: id, chunk position, pixel data (None when it does not decode). */
  datatype ChunkRow = ChunkRow(id: U64, x: int, y: int, pixelData: Option<seq<Pixel>>)

  /** A cached chunk: its pixels, whether the cache changed them, and its row id (0 for a chunk not in the database). */
  datatype CachedChunk = CachedChunk(pixels: seq<Pixel>, dirty: bool, dbId: U64)

  /** World position to (chunk x, chunk y, local x, local y), by Euclidean division by 64. */
  function WorldToChunk(x: int, y: int): (r: (int, int, nat, nat))
    ensures r.2 < CHUNK_SIZE && r.3 < CHUNK_SIZE
    ensures r.0 * CHUNK_SIZE + r.2 == x && r.1 * CHUNK_SIZE + r.3 == y
  {
    (x / CHUNK_SIZE, y / CHUNK_SIZE, x % CHUNK_SIZE, y % CHUNK_SIZE)
  }

  /** The split is unique: a chunk and a local offset in [0, 64) give back exactly themselves. */
  lemma WorldToChunkInverse(cx: int, cy: int, lx: nat, ly: nat)
    requires lx < CHUNK_SIZE && ly < CHUNK_SIZE
    ensures WorldToChunk(cx * CHUNK_SIZE + lx, cy * CHUNK_SIZE + ly) == (cx, cy, lx, ly)
  {
    var r := WorldToChunk(cx * CHUNK_SIZE + lx, cy * CHUNK_SIZE + ly);
    SplitUnique(r.0, r.2, cx, lx);
    SplitUnique(r.1, r.3, cy, ly);
  }

  lemma SplitUnique(c1: int, l1: int, c2: int, l2: int)
    requires 0 <= l1 < CHUNK_SIZE && 0 <= l2 < CHUNK_SIZE
    requires c1 * CHUNK_SIZE + l1 == c2 * CHUNK_SIZE + l2
    ensures c1 == c2 && l1 == l2
  {
  }

  /** Distinct world positions land on distinct (chunk, offset) pairs. */
  lemma WorldToChunkInjective(x1: int, y1: int, x2: int, y2: int)
    requires WorldToChunk(x1, y1) == WorldToChunk(x2, y2)
    ensures x1 == x2 && y1 == y2
  {
  }

  /** The first row for chunk (cx, cy), as the table scan finds it. */
  function FindRow(rows: seq<ChunkRow>, cx: int, cy: int): (r: Option<ChunkRow>)
    ensures r.Some? <==> exists i | 0 <= i < |rows| :: rows[i].x == cx && rows[i].y == cy
    ensures r.Some? ==> r.value in rows && r.value.x == cx && r.value.y == cy
    ensures r.Some? && rows[0].x == cx && rows[0].y == cy ==> r.value == rows[0]
  {
    if rows == [] then None
    else if rows[0].x == cx && rows[0].y == cy then Some(rows[0])
    else
      var r := FindRow(rows[1..], cx, cy);
      assert forall i | 1 <= i < |rows| :: rows[i] == rows[1..][i - 1];
      r
  }

  /** An all-air chunk. */
  function AirPixels(): (p: seq<Pixel>)
    ensures |p| == CHUNK_AREA && forall i | 0 <= i < CHUNK_AREA :: p[i] == NewPixel(0)
  {
    seq(CHUNK_AREA, _ => NewPixel(0))
  }

  /** The entry `load_chunk` caches: the decoded row, or an all-air chunk with row id 0 when the row is missing or does not decode. */
  function LoadedEntry(rows: seq<ChunkRow>, cx: int, cy: int): (e: CachedChunk)
    ensures !e.dirty
    ensures match FindRow(rows, cx, cy)
            case Some(row) => (row.pixelData.Some? ==> e == CachedChunk(row.pixelData.value, false, row.id)) &&
                              (row.pixelData.None? ==> e == CachedChunk(AirPixels(), false, 0))
            case None => e == CachedChunk(AirPixels(), false, 0)
  {
    match FindRow(rows, cx, cy)
    case Some(row) =>
      (match row.pixelData
       case Some(pixels) => CachedChunk(pixels, false, row.id)
       case None => CachedChunk(AirPixels(), false, 0))
    case None => CachedChunk(AirPixels(), false, 0)
  }

  /** The row-major index of a local offset. */
  function LocalIndex(lx: nat, ly: nat): (i: nat)
    requires lx < CHUNK_SIZE && ly < CHUNK_SIZE
    ensures i < CHUNK_AREA
  {
    ly * CHUNK_SIZE + lx
  }

  /** The pixel an entry holds at index `i`, or air when its pixel vector is too short. */
  function EntryPixel(e: CachedChunk, i: nat): (p: Pixel)
    ensures i < |e.pixels| ==> p == e.pixels[i]
    ensures i >= |e.pixels| ==> p == NewPixel(0)
  {
    if i < |e.pixels| then e.pixels[i] else NewPixel(0)
  }

  /** An entry after a write at index `i`: written and dirty when `i` is inside its pixels, unchanged otherwise. */
  function EntryWritten(e: CachedChunk, i: nat, p: Pixel): (r: CachedChunk)
    ensures i < |e.pixels| ==> r == e.(pixels := e.pixels[i := p], dirty := true)
    ensures i >= |e.pixels| ==> r == e
  {
    if i < |e.pixels| then e.(pixels := e.pixels[i := p], dirty := true) else e
  }

  /** A write followed by a read at the same index returns the written pixel when the index is inside the pixels; other indices are unaffected. */
  lemma WriteThenRead(e: CachedChunk, i: nat, j: nat, p: Pixel)
    ensures i < |e.pixels| ==> EntryPixel(EntryWritten(e, i, p), i) == p
    ensures j != i ==> EntryPixel(EntryWritten(e, i, p), j) == EntryPixel(e, j)
    ensures |EntryWritten(e, i, p).pixels| == |e.pixels|
  {
  }

  /** `is_blocking_material`: air never blocks; other ids block when their material is solid or powder. */
  function IsBlockingMaterial(materials: seq<M.MaterialDef>, id: U16): (b: bool)
    requires |materials| > 0
    ensures id == M.AIR ==> !b
    ensures id != M.AIR ==> (b <==> M.Lookup(materials, id).materialType in {M.Solid, M.Powder})
  {
    if id == 0 then false
    else
      var t := M.Lookup(materials, id).materialType;
      t == M.Solid || t == M.Powder
  }

  /** With the engine's own default materials, stone, sand and bedrock block, water, fire and air do not. */
  lemma DefaultBlocking()
    ensures IsBlockingMaterial(M.DefaultDefs(), M.STONE) && IsBlockingMaterial(M.DefaultDefs(), M.SAND)
    ensures IsBlockingMaterial(M.DefaultDefs(), M.BEDROCK)
    ensures !IsBlockingMaterial(M.DefaultDefs(), M.WATER) && !IsBlockingMaterial(M.DefaultDefs(), M.FIRE)
    ensures !IsBlockingMaterial(M.DefaultDefs(), M.AIR)
  {
  }

  /** `SpacetimeWorldAccess`: the database rows it reads, the material table, and the chunk cache. */
  class SpacetimeWorldAccess {
    const rows: seq<ChunkRow>
    const materials: seq<M.MaterialDef>
    var cache: map<(int, int), CachedChunk>

    ghost predicate Valid()
      reads this
    {
      |materials| > 0
    }

    /**
     * `new`: the server crate's default material table and an empty cache.
     * That table comes from the simulation crate, whose material list is not
     * part of this model, so it is a parameter here.
     */
    constructor (rows: seq<ChunkRow>, mats: seq<M.MaterialDef>)
      requires |mats| > 0
      ensures Valid() && this.rows == rows && materials == mats && cache == map[]
    {
      this.rows := rows;
      materials := mats;
      cache := map[];
    }

    /** `load_chunk`: a cached chunk stays as it is; otherwise the row (or an all-air chunk) is cached. */
    method LoadChunk(cx: int, cy: int) returns (loaded: bool)
      modifies this
      ensures loaded && (cx, cy) in cache
      ensures (cx, cy) in old(cache) ==> cache == old(cache)
      ensures (cx, cy) !in old(cache) ==> cache == old(cache)[(cx, cy) := LoadedEntry(rows, cx, cy)]
    {
      if (cx, cy) in cache {
        return true;
      }
      var row := FindRow(rows, cx, cy);
      if row.Some? && row.value.pixelData.Some? {
        cache := cache[(cx, cy) := CachedChunk(row.value.pixelData.value, false, row.value.id)];
        return true;
      }
      cache := cache[(cx, cy) := CachedChunk(AirPixels(), false, 0)];
      loaded := true;
    }

    /** `get_cached_pixel`: load the chunk, then read the pixel (air beyond the pixel vector). Never None. */
    method GetCachedPixel(cx: int, cy: int, lx: nat, ly: nat) returns (p: Option<Pixel>)
      requires lx < CHUNK_SIZE && ly < CHUNK_SIZE
      modifies this
      ensures (cx, cy) in old(cache) ==> cache == old(cache)
      ensures (cx, cy) !in old(cache) ==> cache == old(cache)[(cx, cy) := LoadedEntry(rows, cx, cy)]
      ensures p == Some(EntryPixel(cache[(cx, cy)], LocalIndex(lx, ly)))
    {
      var _ := LoadChunk(cx, cy);
      var idx := ly * CHUNK_SIZE + lx;
      var entry := cache[(cx, cy)];
      if idx < |entry.pixels| {
        p := Some(entry.pixels[idx]);
      } else {
        p := Some(NewPixel(0));
      }
    }

    /** `set_cached_pixel`: load the chunk, then write the pixel and mark the chunk dirty when the index is inside its pixels. */
    method SetCachedPixel(cx: int, cy: int, lx: nat, ly: nat, pixel: Pixel)
      requires lx < CHUNK_SIZE && ly < CHUNK_SIZE
      modifies this
      ensures var loaded := if (cx, cy) in old(cache) then old(cache) else old(cache)[(cx, cy) := LoadedEntry(rows, cx, cy)];
              cache == loaded[(cx, cy) := EntryWritten(loaded[(cx, cy)], LocalIndex(lx, ly), pixel)]
    {
      var _ := LoadChunk(cx, cy);
      var idx := ly * CHUNK_SIZE + lx;
      var entry := cache[(cx, cy)];
      if idx < |entry.pixels| {
        cache := cache[(cx, cy) := entry.(pixels := entry.pixels[idx := pixel], dirty := true)];
      }
    }

    /** `get_pixel`. */
    method GetPixel(x: int, y: int) returns (p: Option<Pixel>)
      modifies this
      ensures p.Some?
      ensures p == PixelIn(cache, x, y)
      ensures CacheGrows(old(cache), cache)
      ensures var (cx, cy, lx, ly) := WorldToChunk(x, y);
              cache == (if (cx, cy) in old(cache) then old(cache) else old(cache)[(cx, cy) := LoadedEntry(rows, cx, cy)])
    {
      var (cx, cy, lx, ly) := WorldToChunk(x, y);
      p := GetCachedPixel(cx, cy, lx, ly);
    }

    /** `is_solid_at`: a blocking material at the pixel; a missing pixel counts as solid. */
    method IsSolidAt(x: int, y: int) returns (solid: bool)
      requires Valid()
      modifies this
      ensures PixelIn(cache, x, y).Some?
      ensures solid == IsBlockingMaterial(materials, PixelIn(cache, x, y).value.material)
      ensures CacheGrows(old(cache), cache)
      ensures var (cx, cy, lx, ly) := WorldToChunk(x, y);
              cache == (if (cx, cy) in old(cache) then old(cache) else old(cache)[(cx, cy) := LoadedEntry(rows, cx, cy)])
    {
      var p := GetPixel(x, y);
      if p.Some? {
        solid := IsBlockingMaterial(materials, p.value.material);
      } else {
        solid := true;
      }
    }

    /** `set_pixel_full`. */
    method SetPixelFull(x: int, y: int, pixel: Pixel)
      modifies this
      ensures var (cx, cy, lx, ly) := WorldToChunk(x, y);
              var loaded := if (cx, cy) in old(cache) then old(cache) else old(cache)[(cx, cy) := LoadedEntry(rows, cx, cy)];
              cache == loaded[(cx, cy) := EntryWritten(loaded[(cx, cy)], LocalIndex(lx, ly), pixel)]
    {
      var (cx, cy, lx, ly) := WorldToChunk(x, y);
      SetCachedPixel(cx, cy, lx, ly, pixel);
    }

    /** `set_pixel`: a fresh pixel of the material. */
    method SetPixel(x: int, y: int, material: U16)
      modifies this
      ensures var (cx, cy, lx, ly) := WorldToChunk(x, y);
              var loaded := if (cx, cy) in old(cache) then old(cache) else old(cache)[(cx, cy) := LoadedEntry(rows, cx, cy)];
              cache == loaded[(cx, cy) := EntryWritten(loaded[(cx, cy)], LocalIndex(lx, ly), NewPixel(material))]
    {
      SetPixelFull(x, y, NewPixel(material));
    }
  }

  /** The pixel at world (x, y) in a cache, if its chunk is cached. */
  function PixelIn(cache: map<(int, int), CachedChunk>, x: int, y: int): (p: Option<Pixel>)
    ensures var (cx, cy, lx, ly) := WorldToChunk(x, y);
            p.Some? <==> (cx, cy) in cache
  {
    var (cx, cy, lx, ly) := WorldToChunk(x, y);
    if (cx, cy) in cache then Some(EntryPixel(cache[(cx, cy)], LocalIndex(lx, ly))) else None
  }

  /** The cache only gains entries: loaded chunks are never dropped or changed by loading. */
  ghost predicate CacheGrows(before: map<(int, int), CachedChunk>, after: map<(int, int), CachedChunk>)
  {
    forall k | k in before :: k in after && after[k] == before[k]
  }

  /**
   * Writing world pixel (x, y) into a cached chunk with a full pixel vector
   * makes (x, y) read back as the written pixel and leaves every other world
   * position reading as before.
   */
  lemma WriteThenReadWorld(cache: map<(int, int), CachedChunk>, x: int, y: int, pixel: Pixel, x2: int, y2: int)
    requires var (cx, cy, lx, ly) := WorldToChunk(x, y); (cx, cy) in cache && |cache[(cx, cy)].pixels| == CHUNK_AREA
    ensures var (cx, cy, lx, ly) := WorldToChunk(x, y);
            var after := cache[(cx, cy) := EntryWritten(cache[(cx, cy)], LocalIndex(lx, ly), pixel)];
            PixelIn(after, x, y) == Some(pixel) &&
            ((x2, y2) != (x, y) ==> PixelIn(after, x2, y2) == PixelIn(cache, x2, y2))
  {
    var (cx, cy, lx, ly) := WorldToChunk(x, y);
    var (cx2, cy2, lx2, ly2) := WorldToChunk(x2, y2);
    var e := cache[(cx, cy)];
    var after := cache[(cx, cy) := EntryWritten(e, LocalIndex(lx, ly), pixel)];
    if (x2, y2) != (x, y) && (cx2, cy2) == (cx, cy) {
      if LocalIndex(lx2, ly2) == LocalIndex(lx, ly) {
        LocalIndexInjective(lx, ly, lx2, ly2);
        WorldToChunkInverse(cx, cy, lx, ly);
        WorldToChunkInverse(cx2, cy2, lx2, ly2);
      }
      WriteThenRead(e, LocalIndex(lx, ly), LocalIndex(lx2, ly2), pixel);
    }
  }

  lemma LocalIndexInjective(lx1: nat, ly1: nat, lx2: nat, ly2: nat)
    requires lx1 < CHUNK_SIZE && ly1 < CHUNK_SIZE && lx2 < CHUNK_SIZE && ly2 < CHUNK_SIZE
    requires LocalIndex(lx1, ly1) == LocalIndex(lx2, ly2)
    ensures lx1 == lx2 && ly1 == ly2
  {
  }

  /** Every chunk the cache creates from a missing or undecodable row is all air, clean and has row id 0. */
  lemma MissingRowIsAir(rows: seq<ChunkRow>, cx: int, cy: int, i: nat)
    requires FindRow(rows, cx, cy).None? || FindRow(rows, cx, cy).value.pixelData.None?
    requires i < CHUNK_AREA
    ensures LoadedEntry(rows, cx, cy) == CachedChunk(AirPixels(), false, 0)
    ensures EntryPixel(LoadedEntry(rows, cx, cy), i) == NewPixel(0)
  {
  }
}
