/**
 * Post-generation features: stalactites drawn into a freshly generated chunk,
 * and the downward cave scan that decides between a normal and a marker tree.
 * The context scanner's placement test, its material lookups and the noise
 * fields are parameters; floats are reals.
 */
module Features {
  import opened Ints
  import opened Chunks
  import M = Materials

  /** The stalactite settings `draw_stalactite` and `generate_stalactites` read. */
  datatype StalactiteConfig = StalactiteConfig(
    minDepth: int,
    minLength: int,
    maxLength: int,
    spacing: nat,
    baseWidth: int,
    placementChance: real,
    taper: bool)

  // ---------------------------------------------------------------------
  // The shape of a stalactite

  function MaxReal(a: real, b: real): real { if a >= b then a else b }

  /**
   * The width of row dy: tapered linearly from the base width at the top
   * towards 1 at the tip (never below 1), or the base width throughout.
   */
  function RowWidth(cfg: StalactiteConfig, dy: int, length: int): (w: int)
    requires 0 <= dy < length
    ensures cfg.taper ==> w >= 1
    ensures cfg.taper && cfg.baseWidth >= 1 ==> w <= cfg.baseWidth
  {
    if cfg.taper then
      var factor := 1.0 - dy as real / length as real;
      TaperBounds(cfg.baseWidth, dy, length);
      RealToI32(MaxReal(cfg.baseWidth as real * factor, 1.0))
    else cfg.baseWidth
  }

  lemma TaperBounds(base: int, dy: int, length: int)
    requires 0 <= dy < length
    ensures 0.0 < 1.0 - dy as real / length as real <= 1.0
    ensures base >= 1 ==> MaxReal(base as real * (1.0 - dy as real / length as real), 1.0) <= base as real
  {
    var f := 1.0 - dy as real / length as real;
    assert dy as real / length as real < 1.0 by {
      assert dy as real < length as real;
    }
    if base >= 1 {
      assert base as real * f <= base as real * 1.0;
    }
  }

  /** Half a row's width, truncated toward zero as `width / 2` on `i32` is: the row spans dx in [-h, h]. */
  function HalfWidth(cfg: StalactiteConfig, dy: int, length: int): int
    requires 0 <= dy < length
  {
    TruncDiv(RowWidth(cfg, dy, length), 2)
  }

  /**
   * The local cell (x, y) of chunk (cx, cy) lies in the stalactite hanging
   * from world (wx, wy): in row dy = wy - world y for some 0 <= dy < length,
   * and at most half that row's width from column wx.
   */
  predicate InStalactite(cfg: StalactiteConfig, cx: int, cy: int, wx: int, wy: int, length: int, x: int, y: int)
  {
    InTopRows(cfg, cx, cy, wx, wy, length, if length > 0 then length else 0, x, y)
  }

  /** The cell lies in one of the top k rows of the stalactite. */
  predicate InTopRows(cfg: StalactiteConfig, cx: int, cy: int, wx: int, wy: int, length: int, k: nat, x: int, y: int)
    requires k <= length || k == 0
  {
    var dy := wy - (cy * 64 + y);
    0 <= dy < k && Abs(cx * 64 + x - wx) <= HalfWidth(cfg, dy, length)
  }

  // ---------------------------------------------------------------------
  // Drawing, as values

  /** A pixel the stalactite reaches: AIR becomes STONE, anything else stays. */
  function Touch(p: Pixel): Pixel
  {
    if p.material == M.AIR then NewPixel(M.STONE) else p
  }

  /** One cell of the drawing: only an in-chunk AIR cell is set to STONE. */
  function Stamp(c: ChunkState, lx: int, ly: int): ChunkState
  {
    if InChunk(lx, ly) && PixelAt(c, lx, ly).material == M.AIR then WithMaterial(c, lx, ly, M.STONE) else c
  }

  /** Cells dx = lo .. lo+n-1 of the row at world height py, left to right. */
  function StampRow(c: ChunkState, cx: int, cy: int, wx: int, py: int, lo: int, n: nat): ChunkState
  {
    if n == 0 then c else Stamp(StampRow(c, cx, cy, wx, py, lo, n - 1), wx + lo + n - 1 - cx * 64, py - cy * 64)
  }

  /** The number of values in lo..=hi. */
  function Count(lo: int, hi: int): nat
  {
    if hi >= lo then hi - lo + 1 else 0
  }

  /** Rows dy = 0 .. k-1, top down. */
  function StampRows(c: ChunkState, cfg: StalactiteConfig, cx: int, cy: int, wx: int, wy: int, length: int, k: nat)
    : ChunkState
    requires k <= length || k == 0
  {
    if k == 0 then c
    else
      var h := HalfWidth(cfg, k - 1, length);
      StampRow(StampRows(c, cfg, cx, cy, wx, wy, length, k - 1), cx, cy, wx, wy - (k - 1), -h, Count(-h, h))
  }

  /** `draw_stalactite` as a value. */
  function Stalactite(c: ChunkState, cfg: StalactiteConfig, cx: int, cy: int, wx: int, wy: int, length: int)
    : ChunkState
  {
    StampRows(c, cfg, cx, cy, wx, wy, length, if length > 0 then length else 0)
  }

  lemma StampAt(c: ChunkState, lx: int, ly: int, x: nat, y: nat)
    requires InChunk(x, y)
    ensures PixelAt(Stamp(c, lx, ly), x, y) == if x == lx && y == ly then Touch(PixelAt(c, x, y)) else PixelAt(c, x, y)
  {
    if InChunk(lx, ly) && PixelAt(c, lx, ly).material == M.AIR {
      SetThenGet(c, lx, ly, NewPixel(M.STONE));
    }
  }

  /** A row leaves the cells it has not reached as they were. */
  lemma {:induction false} StampRowOutside(c: ChunkState, cx: int, cy: int, wx: int, py: int, lo: int, n: nat,
                                           x: nat, y: nat)
    requires InChunk(x, y)
    requires !(cy * 64 + y == py && wx + lo <= cx * 64 + x < wx + lo + n)
    ensures PixelAt(StampRow(c, cx, cy, wx, py, lo, n), x, y) == PixelAt(c, x, y)
    decreases n
  {
    if n > 0 {
      StampRowOutside(c, cx, cy, wx, py, lo, n - 1, x, y);
      StampAt(StampRow(c, cx, cy, wx, py, lo, n - 1), wx + lo + n - 1 - cx * 64, py - cy * 64, x, y);
    }
  }

  /** A row touches each cell it reaches once, from what the cell held before the row. */
  lemma {:induction false} StampRowInside(c: ChunkState, cx: int, cy: int, wx: int, py: int, lo: int, n: nat,
                                          x: nat, y: nat)
    requires InChunk(x, y)
    requires cy * 64 + y == py && wx + lo <= cx * 64 + x < wx + lo + n
    ensures PixelAt(StampRow(c, cx, cy, wx, py, lo, n), x, y) == Touch(PixelAt(c, x, y))
    decreases n
  {
    var prev := StampRow(c, cx, cy, wx, py, lo, n - 1);
    if cx * 64 + x == wx + lo + n - 1 {
      StampRowOutside(c, cx, cy, wx, py, lo, n - 1, x, y);
    } else {
      StampRowInside(c, cx, cy, wx, py, lo, n - 1, x, y);
    }
    StampAt(prev, wx + lo + n - 1 - cx * 64, py - cy * 64, x, y);
  }

  /** A row at world height py covers the cells of its dx range, and only those. */
  lemma StampRowAt(c: ChunkState, cx: int, cy: int, wx: int, py: int, h: int, x: nat, y: nat)
    requires InChunk(x, y)
    ensures PixelAt(StampRow(c, cx, cy, wx, py, -h, Count(-h, h)), x, y)
            == if cy * 64 + y == py && Abs(cx * 64 + x - wx) <= h then Touch(PixelAt(c, x, y)) else PixelAt(c, x, y)
  {
    if cy * 64 + y == py && Abs(cx * 64 + x - wx) <= h {
      StampRowInside(c, cx, cy, wx, py, -h, Count(-h, h), x, y);
    } else {
      StampRowOutside(c, cx, cy, wx, py, -h, Count(-h, h), x, y);
    }
  }

  /** The top k rows are the top k-1 rows and row k-1; the two never share a cell. */
  lemma InTopRowsStep(cfg: StalactiteConfig, cx: int, cy: int, wx: int, wy: int, length: int, k: nat, x: int, y: int)
    requires 0 < k <= length
    ensures InTopRows(cfg, cx, cy, wx, wy, length, k, x, y)
            <==> InTopRows(cfg, cx, cy, wx, wy, length, k - 1, x, y)
                 || (cy * 64 + y == wy - (k - 1) && Abs(cx * 64 + x - wx) <= HalfWidth(cfg, k - 1, length))
    ensures InTopRows(cfg, cx, cy, wx, wy, length, k - 1, x, y) ==> cy * 64 + y != wy - (k - 1)
  {
  }

  /** After k rows, a cell of those rows is touched once; every other cell is as it was. */
  lemma {:induction false} StampRowsAt(c: ChunkState, cfg: StalactiteConfig, cx: int, cy: int, wx: int, wy: int,
                                       length: int, k: nat, x: nat, y: nat)
    requires (k <= length || k == 0) && InChunk(x, y)
    ensures PixelAt(StampRows(c, cfg, cx, cy, wx, wy, length, k), x, y)
            == if InTopRows(cfg, cx, cy, wx, wy, length, k, x, y) then Touch(PixelAt(c, x, y)) else PixelAt(c, x, y)
    decreases k
  {
    if k > 0 {
      var h := HalfWidth(cfg, k - 1, length);
      var prev := StampRows(c, cfg, cx, cy, wx, wy, length, k - 1);
      assert StampRows(c, cfg, cx, cy, wx, wy, length, k) == StampRow(prev, cx, cy, wx, wy - (k - 1), -h, Count(-h, h));
      StampRowsAt(c, cfg, cx, cy, wx, wy, length, k - 1, x, y);
      StampRowAt(prev, cx, cy, wx, wy - (k - 1), h, x, y);
      InTopRowsStep(cfg, cx, cy, wx, wy, length, k, x, y);
    }
  }

  /**
   * `draw_stalactite`: a local cell becomes STONE exactly when it lies in the
   * stalactite and was AIR; every other cell, in particular every non-air
   * one, is unchanged.
   */
  lemma StalactiteAt(c: ChunkState, cfg: StalactiteConfig, cx: int, cy: int, wx: int, wy: int, length: int,
                     x: nat, y: nat)
    requires InChunk(x, y)
    ensures PixelAt(Stalactite(c, cfg, cx, cy, wx, wy, length), x, y)
            == if InStalactite(cfg, cx, cy, wx, wy, length, x, y) && PixelAt(c, x, y).material == M.AIR
               then NewPixel(M.STONE) else PixelAt(c, x, y)
  {
    StampRowsAt(c, cfg, cx, cy, wx, wy, length, if length > 0 then length else 0, x, y);
  }

  /** Every cell either keeps its pixel or was AIR and is now a fresh STONE pixel. */
  ghost predicate AirToStone(before: ChunkState, after: ChunkState)
  {
    forall x: nat, y: nat | InChunk(x, y) ::
      PixelAt(after, x, y) == PixelAt(before, x, y)
      || (PixelAt(before, x, y).material == M.AIR && PixelAt(after, x, y) == NewPixel(M.STONE))
  }

  /** Turning AIR into STONE twice is turning AIR into STONE. */
  lemma AirToStoneTrans(a: ChunkState, b: ChunkState, c: ChunkState)
    requires AirToStone(a, b) && AirToStone(b, c)
    ensures AirToStone(a, c)
  {
  }

  /** A stalactite never overwrites a non-air pixel. */
  lemma StalactiteAirToStone(c: ChunkState, cfg: StalactiteConfig, cx: int, cy: int, wx: int, wy: int, length: int)
    ensures AirToStone(c, Stalactite(c, cfg, cx, cy, wx, wy, length))
  {
    forall x: nat, y: nat | InChunk(x, y)
      ensures var r := Stalactite(c, cfg, cx, cy, wx, wy, length);
              PixelAt(r, x, y) == PixelAt(c, x, y)
              || (PixelAt(c, x, y).material == M.AIR && PixelAt(r, x, y) == NewPixel(M.STONE))
    {
      StalactiteAt(c, cfg, cx, cy, wx, wy, length, x, y);
    }
  }

  /** The source's example: on a chunk of STONE a stalactite changes no pixel. */
  lemma NoAirNoChange(c: ChunkState, cfg: StalactiteConfig, cx: int, cy: int, wx: int, wy: int, length: int)
    requires forall x: nat, y: nat | InChunk(x, y) :: PixelAt(c, x, y).material != M.AIR
    ensures forall x: nat, y: nat | InChunk(x, y) ::
              PixelAt(Stalactite(c, cfg, cx, cy, wx, wy, length), x, y) == PixelAt(c, x, y)
  {
    forall x: nat, y: nat | InChunk(x, y)
      ensures PixelAt(Stalactite(c, cfg, cx, cy, wx, wy, length), x, y) == PixelAt(c, x, y)
    {
      StalactiteAt(c, cfg, cx, cy, wx, wy, length, x, y);
    }
  }

  /** A tapered stalactite's rows are never wider than its base, so it stays within base/2 columns of wx. */
  lemma TaperedWithinBase(cfg: StalactiteConfig, cx: int, cy: int, wx: int, wy: int, length: int, x: int, y: int)
    requires cfg.taper && cfg.baseWidth >= 1
    requires InStalactite(cfg, cx, cy, wx, wy, length, x, y)
    ensures Abs(cx * 64 + x - wx) <= cfg.baseWidth / 2
    ensures 0 <= wy - (cy * 64 + y) < length
  {
    var dy := wy - (cy * 64 + y);
    var w := RowWidth(cfg, dy, length);
    assert 1 <= w <= cfg.baseWidth;
    assert TruncDiv(w, 2) == w / 2 <= cfg.baseWidth / 2;
  }

  // ---------------------------------------------------------------------
  // Drawing, in place

  /** One cell: read the material, write STONE if it is AIR. */
  method StampCell(chunk: Chunk, lx: int, ly: int)
    requires chunk.Valid()
    modifies chunk, chunk.pixels
    ensures chunk.Valid() && chunk.Value() == Stamp(old(chunk.Value()), lx, ly)
  {
    if InChunk(lx, ly) {
      var p := chunk.GetPixel(lx, ly);
      if p.material == M.AIR {
        chunk.SetMaterial(lx, ly, M.STONE);
      }
    }
  }

  /** One row of `draw_stalactite`: for dx in -h..=h, the cell at world (wx + dx, py). */
  method DrawRow(chunk: Chunk, cx: int, cy: int, wx: int, py: int, h: int)
    requires chunk.Valid()
    modifies chunk, chunk.pixels
    ensures chunk.Valid() && chunk.Value() == StampRow(old(chunk.Value()), cx, cy, wx, py, -h, Count(-h, h))
  {
    var n := 0;
    while n < Count(-h, h)
      invariant n <= Count(-h, h) && chunk.Valid()
      invariant chunk.Value() == StampRow(old(chunk.Value()), cx, cy, wx, py, -h, n)
    {
      var dx := -h + n;
      StampCell(chunk, wx + dx - cx * 64, py - cy * 64);
      n := n + 1;
    }
  }

  /** `draw_stalactite`: for dy in 0..length, the row of that depth, its width tapered or not. */
  method DrawStalactite(chunk: Chunk, cx: int, cy: int, wx: int, wy: int, length: int, cfg: StalactiteConfig)
    requires chunk.Valid()
    modifies chunk, chunk.pixels
    ensures chunk.Valid() && chunk.Value() == Stalactite(old(chunk.Value()), cfg, cx, cy, wx, wy, length)
  {
    var dy := 0;
    while dy < length
      invariant 0 <= dy && (dy <= length || dy == 0) && chunk.Valid()
      invariant chunk.Value() == StampRows(old(chunk.Value()), cfg, cx, cy, wx, wy, length, dy)
    {
      var h := HalfWidth(cfg, dy, length);
      DrawRow(chunk, cx, cy, wx, wy - dy, h);
      dy := dy + 1;
    }
  }

  // ---------------------------------------------------------------------
  // Placement

  /** The stalactite length for a length-noise value: min_length plus the truncated share of the range. */
  function StalactiteLength(cfg: StalactiteConfig, noise: real): int
  {
    cfg.minLength + LengthShare(noise, cfg.maxLength - cfg.minLength)
  }

  /** The noise in [-1, 1] mapped onto [0, 1], times the range, truncated to `i32`. */
  function LengthShare(noise: real, range: int): int
  {
    RealToI32((noise + 1.0) * 0.5 * range as real)
  }

  /** For noise in [-1, 1] the length lies between min_length and max_length. */
  lemma LengthInRange(cfg: StalactiteConfig, noise: real)
    requires -1.0 <= noise <= 1.0 && cfg.minLength <= cfg.maxLength <= I32_MAX
    requires cfg.minLength >= 0
    ensures cfg.minLength <= StalactiteLength(cfg, noise) <= cfg.maxLength
  {
    ShareInRange(noise, cfg.maxLength - cfg.minLength);
  }

  lemma ShareInRange(noise: real, span: nat)
    requires -1.0 <= noise <= 1.0 && span <= I32_MAX
    ensures 0 <= LengthShare(noise, span) <= span
  {
    var t := (noise + 1.0) * 0.5;
    var r := t * span as real;
    assert 0.0 <= r <= span as real by {
      ShareBelow(t, span as real);
    }
    TruncatedShare(r, span);
  }

  lemma ShareBelow(t: real, s: real)
    requires 0.0 <= t <= 1.0 && 0.0 <= s
    ensures 0.0 <= t * s <= s
  {
    assert t * s <= 1.0 * s;
  }

  lemma TruncatedShare(r: real, span: nat)
    requires 0.0 <= r <= span as real
    requires span <= I32_MAX
    ensures 0 <= RealToI32(r) <= span
  {
    var n := RealToI32(r);
    assert n as real <= r;
  }

  /**
   * What the context scanner and the noise decide at a sample point: whether
   * the cave-ceiling test passes, the placement noise, and the length noise.
   */
  datatype Samples = Samples(matches: (int, int) -> bool, placement: (int, int) -> real, lengthNoise: (int, int) -> real)

  /** A sample point gets a stalactite when the test passes and the placement noise is at least 1 - chance. */
  predicate Placed(cfg: StalactiteConfig, s: Samples, wx: int, wy: int)
  {
    s.matches(wx, wy) && !(s.placement(wx, wy) < 1.0 - cfg.placementChance)
  }

  /** Sample (lx, ly) of a chunk, as the loop body does it. */
  method SamplePoint(chunk: Chunk, cx: int, cy: int, cfg: StalactiteConfig, s: Samples, lx: int, ly: int)
    requires chunk.Valid()
    modifies chunk, chunk.pixels
    ensures chunk.Valid() && AirToStone(old(chunk.Value()), chunk.Value())
    ensures !Placed(cfg, s, cx * 64 + lx, cy * 64 + ly) ==> chunk.Value() == old(chunk.Value())
  {
    var wx, wy := cx * 64 + lx, cy * 64 + ly;
    if !Placed(cfg, s, wx, wy) {
      return;
    }
    var length := StalactiteLength(cfg, s.lengthNoise(wx, wy));
    ghost var before := chunk.Value();
    DrawStalactite(chunk, cx, cy, wx, wy, length, cfg);
    StalactiteAirToStone(before, cfg, cx, cy, wx, wy, length);
  }

  lemma AirToStoneRefl(c: ChunkState)
    ensures AirToStone(c, c)
  {
  }

  /** One sample row: lx = 0, spacing, 2·spacing, ... below 64. */
  method SampleRow(chunk: Chunk, cx: int, cy: int, cfg: StalactiteConfig, s: Samples, ly: int)
    requires chunk.Valid() && cfg.spacing > 0
    modifies chunk, chunk.pixels
    ensures chunk.Valid() && AirToStone(old(chunk.Value()), chunk.Value())
  {
    AirToStoneRefl(chunk.Value());
    var lx := 0;
    while lx < CHUNK_SIZE
      invariant chunk.Valid() && AirToStone(old(chunk.Value()), chunk.Value())
      decreases CHUNK_SIZE - lx
    {
      ghost var mid := chunk.Value();
      SamplePoint(chunk, cx, cy, cfg, s, lx, ly);
      AirToStoneTrans(old(chunk.Value()), mid, chunk.Value());
      lx := lx + cfg.spacing;
    }
  }

  /**
   * `generate_stalactites`: nothing above the minimum depth; otherwise a
   * stalactite at each accepted sample point of the spacing grid. Whatever
   * the scanner and the noise decide, the chunk only gains STONE where it
   * had AIR.
   */
  method GenerateStalactites(chunk: Chunk, cx: int, cy: int, cfg: StalactiteConfig, s: Samples)
    requires chunk.Valid() && cfg.spacing > 0
    modifies chunk, chunk.pixels
    ensures chunk.Valid() && AirToStone(old(chunk.Value()), chunk.Value())
    ensures cy * 64 > cfg.minDepth ==> chunk.Value() == old(chunk.Value())
  {
    AirToStoneRefl(chunk.Value());
    if cy * 64 > cfg.minDepth {
      return;
    }
    var ly := 0;
    while ly < CHUNK_SIZE
      invariant chunk.Valid() && AirToStone(old(chunk.Value()), chunk.Value())
      decreases CHUNK_SIZE - ly
    {
      ghost var mid := chunk.Value();
      SampleRow(chunk, cx, cy, cfg, s, ly);
      AirToStoneTrans(old(chunk.Value()), mid, chunk.Value());
      ly := ly + cfg.spacing;
    }
  }

  // ---------------------------------------------------------------------
  // Cave detection

  /** World row y is an enclosed cave cell in column x: AIR with non-air directly above and below. */
  predicate CaveCell(material: (int, int) -> int, x: int, y: int)
  {
    material(x, y) == M.AIR && material(x, y + 1) != M.AIR && material(x, y - 1) != M.AIR
  }

  /** The cell dy rows below (x, y) is an enclosed cave cell. */
  predicate CaveBelow(material: (int, int) -> int, x: int, y: int, dy: int)
  {
    CaveCell(material, x, y - dy)
  }

  /** `detect_cave_below`: scan dy = 1 ..= scan_depth below (x, y) and stop at the first enclosed AIR cell. */
  method DetectCaveBelow(x: int, y: int, scanDepth: int, material: (int, int) -> int) returns (found: bool)
    ensures found <==> exists dy :: 1 <= dy <= scanDepth && CaveBelow(material, x, y, dy)
  {
    var dy := 1;
    while dy <= scanDepth
      invariant 1 <= dy && (dy <= scanDepth + 1 || dy == 1)
      invariant forall d :: 1 <= d < dy ==> !CaveBelow(material, x, y, d)
    {
      var checkY := y - dy;
      var isAir := material(x, checkY) == M.AIR;
      var hasCeiling := material(x, checkY + 1) != M.AIR;
      var hasFloor := material(x, checkY - 1) != M.AIR;
      if isAir && hasCeiling && hasFloor {
        assert CaveBelow(material, x, y, dy);
        return true;
      }
      dy := dy + 1;
    }
    return false;
  }
}
