/**
 * Heat on the coarse 8x8 grid of each chunk: coordinate mapping, capped heat
 * injection, and a throttled diffusion that averages each cell toward its
 * in-chunk von Neumann neighbours (chunk borders are insulating).
 */
module Temperature {
  import opened Ints
  import opened Chunks

  const MAX_TEMPERATURE: real := 3000.0

  function MinReal(a: real, b: real): real { if a <= b then a else b }
  const DIFFUSION_RATE: real := 0.1

  /** `pixel_to_temp_coords`: each coarse cell covers an 8x8 block of pixels. */
  function PixelToTempCoords(x: nat, y: nat): (c: (nat, nat))
    requires InChunk(x, y)
    ensures c.0 < 8 && c.1 < 8
    ensures 8 * c.0 <= x < 8 * c.0 + 8 && 8 * c.1 <= y < 8 * c.1 + 8
  {
    (x / 8, y / 8)
  }

  /** The pixel-to-cell map is onto the 8x8 grid. */
  lemma PixelToTempCoordsOnto(cx: nat, cy: nat)
    requires cx < 8 && cy < 8
    ensures InChunk(8 * cx, 8 * cy) && PixelToTempCoords(8 * cx, 8 * cy) == (cx, cy)
  {
  }

  /** `temp_to_index` is a row-major bijection between the 8x8 grid and [0,64). */
  lemma TempIndexBijective()
    ensures forall cx1: nat, cy1: nat, cx2: nat, cy2: nat | cx1 < 8 && cy1 < 8 && cx2 < 8 && cy2 < 8 ::
              CoarseIndex(cx1, cy1) == CoarseIndex(cx2, cy2) ==> cx1 == cx2 && cy1 == cy2
    ensures forall i: nat | i < COARSE_CELLS :: CoarseIndex(i % 8, i / 8) == i
  {
  }

  /** `get_temperature_at_pixel`. */
  function TemperatureAtPixel(c: ChunkState, x: nat, y: nat): real
    requires InChunk(x, y)
  {
    var cell := PixelToTempCoords(x, y);
    TemperatureAt(c, cell.0, cell.1)
  }

  /** `add_heat_at_pixel`: the pixel's cell gains `heat`, capped at MAX_TEMPERATURE. */
  function AddHeatAtPixel(c: ChunkState, x: nat, y: nat, heat: real): (r: ChunkState)
    requires InChunk(x, y)
  {
    var cell := PixelToTempCoords(x, y);
    var i := CoarseIndex(cell.0, cell.1);
    var t := c.temperature[i] + heat;
    c.(temperature := c.temperature[i := if t <= MAX_TEMPERATURE then t else MAX_TEMPERATURE])
  }

  /** Heat goes to the pixel's own cell, as min(old + heat, 3000); the other 63 cells and the pixels are unchanged. */
  lemma AddHeatAtPixelEffect(c: ChunkState, x: nat, y: nat, heat: real)
    requires InChunk(x, y)
    ensures var r := AddHeatAtPixel(c, x, y, heat);
            var i := CoarseIndex(x / 8, y / 8);
            r.temperature[i] == MinReal(c.temperature[i] + heat, MAX_TEMPERATURE)
            && (forall j | 0 <= j < COARSE_CELLS && j != i :: r.temperature[j] == c.temperature[j])
            && r.pixels == c.pixels && r.pressure == c.pressure && r.dirty == c.dirty
    ensures TemperatureAtPixel(AddHeatAtPixel(c, x, y, heat), x, y) <= MAX_TEMPERATURE
  {
  }

  /** All pixels of one 8x8 block read the same temperature. */
  lemma SameBlockSameTemperature(c: ChunkState, x1: nat, y1: nat, x2: nat, y2: nat)
    requires InChunk(x1, y1) && InChunk(x2, y2)
    requires x1 / 8 == x2 / 8 && y1 / 8 == y2 / 8
    ensures TemperatureAtPixel(c, x1, y1) == TemperatureAtPixel(c, x2, y2)
  {
  }

  // ---------------------------------------------------------------------
  // Diffusion

  /** Whether the in-grid neighbour at offset (dx, dy) exists. */
  predicate InGrid(cx: int, cy: int) { 0 <= cx < 8 && 0 <= cy < 8 }

  const Offsets: seq<(int, int)> := [(-1, 0), (1, 0), (0, -1), (0, 1)]

  /** Sum and count of the in-grid neighbours among the first `k` offsets, read from `t`. */
  function NeighborSum(t: seq<real>, cx: nat, cy: nat, k: nat): (r: (real, nat))
    requires |t| == COARSE_CELLS && InGrid(cx, cy) && k <= 4
    ensures r.1 <= k
  {
    if k == 0 then (0.0, 0)
    else
      var prev := NeighborSum(t, cx, cy, k - 1);
      var nx, ny := cx + Offsets[k - 1].0, cy + Offsets[k - 1].1;
      if InGrid(nx, ny) then (prev.0 + t[CoarseIndex(nx, ny)], prev.1 + 1) else prev
  }

  /** The diffused value of one cell, computed from the snapshot `t`. */
  function DiffusedCell(t: seq<real>, cx: nat, cy: nat): real
    requires |t| == COARSE_CELLS && InGrid(cx, cy)
  {
    var current := t[CoarseIndex(cx, cy)];
    var sc := NeighborSum(t, cx, cy, 4);
    if sc.1 > 0 then current + (sc.0 / sc.1 as real - current) * DIFFUSION_RATE else current
  }

  /** One diffusion pass over the whole grid, every cell read from the pre-pass snapshot. */
  function Diffused(t: seq<real>): (r: seq<real>)
    requires |t| == COARSE_CELLS
    ensures |r| == COARSE_CELLS
  {
    seq(COARSE_CELLS, i requires 0 <= i < COARSE_CELLS => DiffusedCell(t, i % 8, i / 8))
  }

  /** `n` copies of `a` added up. */
  function Times(n: nat, a: real): real
  {
    if n == 0 then 0.0 else Times(n - 1, a) + a
  }

  lemma {:induction false} TimesIsProduct(n: nat, a: real)
    ensures Times(n, a) == n as real * a
    decreases n
  {
    if n > 0 {
      TimesIsProduct(n - 1, a);
      assert n as real * a == (n - 1) as real * a + a;
    }
  }

  /** The in-grid neighbours summed are between `count` copies of the lowest and of the highest value. */
  lemma {:induction false} NeighborSumBounds(t: seq<real>, cx: nat, cy: nat, k: nat, lo: real, hi: real)
    requires |t| == COARSE_CELLS && InGrid(cx, cy) && k <= 4
    requires forall i | 0 <= i < COARSE_CELLS :: lo <= t[i] <= hi
    ensures Times(NeighborSum(t, cx, cy, k).1, lo) <= NeighborSum(t, cx, cy, k).0 <= Times(NeighborSum(t, cx, cy, k).1, hi)
    decreases k
  {
    if k > 0 {
      NeighborSumBounds(t, cx, cy, k - 1, lo, hi);
    }
  }

  /** A corner cell has two in-grid neighbours and an inner cell four, so the count is never zero. */
  lemma NeighborCountPositive(t: seq<real>, cx: nat, cy: nat)
    requires |t| == COARSE_CELLS && InGrid(cx, cy)
    ensures NeighborSum(t, cx, cy, 4).1 >= 2
  {
    var n1, n2, n3, n4 := NeighborSum(t, cx, cy, 1).1, NeighborSum(t, cx, cy, 2).1,
                          NeighborSum(t, cx, cy, 3).1, NeighborSum(t, cx, cy, 4).1;
    assert n1 == if InGrid(cx - 1, cy) then 1 else 0;
    assert n2 == n1 + if InGrid(cx + 1, cy) then 1 else 0;
    assert n3 == n2 + if InGrid(cx, cy - 1) then 1 else 0;
    assert n4 == n3 + if InGrid(cx, cy + 1) then 1 else 0;
  }

  /**
   * Each diffused cell moves a tenth of the way from its value toward the average
   * of its neighbours, so it lies between the two.
   */
  lemma DiffusedCellBetween(t: seq<real>, cx: nat, cy: nat)
    requires |t| == COARSE_CELLS && InGrid(cx, cy)
    ensures NeighborSum(t, cx, cy, 4).1 > 0
    ensures var cur := t[CoarseIndex(cx, cy)];
            var sc := NeighborSum(t, cx, cy, 4);
            var avg := sc.0 / sc.1 as real;
            DiffusedCell(t, cx, cy) == cur + (avg - cur) * DIFFUSION_RATE
            && (cur <= avg ==> cur <= DiffusedCell(t, cx, cy) <= avg)
            && (avg <= cur ==> avg <= DiffusedCell(t, cx, cy) <= cur)
  {
    NeighborCountPositive(t, cx, cy);
  }

  /** A field whose cells all hold the same value is a fixed point of diffusion. */
  lemma UniformIsFixedPoint(t: seq<real>, v: real)
    requires |t| == COARSE_CELLS
    requires forall i | 0 <= i < COARSE_CELLS :: t[i] == v
    ensures Diffused(t) == t
  {
    forall i | 0 <= i < COARSE_CELLS
      ensures Diffused(t)[i] == t[i]
    {
      DiffusedCellInRange(t, i % 8, i / 8, v, v);
    }
  }

  /** Diffusion keeps every cell within the range of the snapshot. */
  lemma DiffusedStaysInRange(t: seq<real>, lo: real, hi: real)
    requires |t| == COARSE_CELLS
    requires forall i | 0 <= i < COARSE_CELLS :: lo <= t[i] <= hi
    ensures forall i | 0 <= i < COARSE_CELLS :: lo <= Diffused(t)[i] <= hi
  {
    forall i | 0 <= i < COARSE_CELLS
      ensures lo <= Diffused(t)[i] <= hi
    {
      DiffusedCellInRange(t, i % 8, i / 8, lo, hi);
    }
  }

  /** One diffused cell lies within the range of the snapshot. */
  lemma DiffusedCellInRange(t: seq<real>, cx: nat, cy: nat, lo: real, hi: real)
    requires |t| == COARSE_CELLS && InGrid(cx, cy)
    requires forall i | 0 <= i < COARSE_CELLS :: lo <= t[i] <= hi
    ensures lo <= DiffusedCell(t, cx, cy) <= hi
  {
    NeighborCountPositive(t, cx, cy);
    NeighborAverageInRange(t, cx, cy, 4, lo, hi);
    DiffusedCellBetween(t, cx, cy);
    assert lo <= t[CoarseIndex(cx, cy)] <= hi;
  }

  /** The average of the in-grid neighbours lies within the range of the snapshot. */
  lemma NeighborAverageInRange(t: seq<real>, cx: nat, cy: nat, k: nat, lo: real, hi: real)
    requires |t| == COARSE_CELLS && InGrid(cx, cy) && k <= 4 && NeighborSum(t, cx, cy, k).1 > 0
    requires forall i | 0 <= i < COARSE_CELLS :: lo <= t[i] <= hi
    ensures lo <= NeighborSum(t, cx, cy, k).0 / NeighborSum(t, cx, cy, k).1 as real <= hi
  {
    var sc := NeighborSum(t, cx, cy, k);
    NeighborSumBounds(t, cx, cy, k, lo, hi);
    TimesIsProduct(sc.1, lo);
    TimesIsProduct(sc.1, hi);
    AverageBetween(sc.0, sc.1, lo, hi);
  }

  lemma AverageBetween(sum: real, n: nat, lo: real, hi: real)
    requires n > 0 && n as real * lo <= sum <= n as real * hi
    ensures lo <= sum / n as real <= hi
  {
  }

  /** The body of the 8x8 loop for one cell: sum the in-grid neighbours, then move toward their average. */
  method DiffuseCellValue(t: seq<real>, cx: nat, cy: nat) returns (v: real)
    requires |t| == COARSE_CELLS && InGrid(cx, cy)
    ensures v == DiffusedCell(t, cx, cy)
  {
    var current := t[cy * 8 + cx];
    var sum, count := 0.0, 0;
    var k := 0;
    while k < 4
      invariant 0 <= k <= 4
      invariant (sum, count) == NeighborSum(t, cx, cy, k)
    {
      var nx, ny := cx + Offsets[k].0, cy + Offsets[k].1;
      if InGrid(nx, ny) {
        sum := sum + t[ny * 8 + nx];
        count := count + 1;
      }
      k := k + 1;
    }
    v := current;
    if count > 0 {
      v := current + (sum / count as real - current) * DIFFUSION_RATE;
    }
  }

  /** The diffused value at grid index `i`. */
  ghost function DiffusedAt(t: seq<real>, i: nat): real
    requires |t| == COARSE_CELLS && i < COARSE_CELLS
  {
    Diffused(t)[i]
  }

  /** `diffuse_chunk_temperature`: the nested 8x8 loop filling a copy of the grid. */
  method DiffuseChunkTemperature(t: seq<real>) returns (newTemps: seq<real>)
    requires |t| == COARSE_CELLS
    ensures newTemps == Diffused(t)
  {
    newTemps := t;
    var cy := 0;
    while cy < 8
      invariant 0 <= cy <= 8 && |newTemps| == COARSE_CELLS
      invariant forall i | 0 <= i < cy * 8 :: newTemps[i] == DiffusedAt(t, i)
      invariant forall i | cy * 8 <= i < COARSE_CELLS :: newTemps[i] == t[i]
    {
      var cx := 0;
      while cx < 8
        invariant 0 <= cx <= 8 && |newTemps| == COARSE_CELLS
        invariant forall i | 0 <= i < cy * 8 + cx :: newTemps[i] == DiffusedAt(t, i)
        invariant forall i | cy * 8 + cx <= i < COARSE_CELLS :: newTemps[i] == t[i]
      {
        var idx := cy * 8 + cx;
        var v := DiffuseCellValue(t, cx, cy);
        assert idx % 8 == cx && idx / 8 == cy;
        assert v == DiffusedAt(t, idx);
        newTemps := newTemps[idx := v];
        cx := cx + 1;
      }
      cy := cy + 1;
    }
    assert forall i | 0 <= i < COARSE_CELLS :: newTemps[i] == Diffused(t)[i];
  }

  /** The chunk after one diffusion pass. */
  function DiffuseChunk(c: ChunkState): ChunkState
  {
    c.(temperature := Diffused(c.temperature))
  }

  /** Diffusing every listed position present in the map, in list order (a repeated position diffuses again). */
  function DiffuseAll(chunks: map<IVec2, ChunkState>, active: seq<IVec2>): map<IVec2, ChunkState>
    decreases |active|
  {
    if active == [] then chunks
    else
      var last := active[|active| - 1];
      var before := DiffuseAll(chunks, active[..|active| - 1]);
      if last in before then before[last := DiffuseChunk(before[last])] else before
  }

  /** Only chunks that are both listed active and loaded change, and only in their temperature grid. */
  lemma {:induction false} DiffuseAllFrame(chunks: map<IVec2, ChunkState>, active: seq<IVec2>)
    ensures DiffuseAll(chunks, active).Keys == chunks.Keys
    ensures forall p | p in chunks && p !in active :: DiffuseAll(chunks, active)[p] == chunks[p]
    ensures forall p | p in chunks :: DiffuseAll(chunks, active)[p].pixels == chunks[p].pixels
                                      && DiffuseAll(chunks, active)[p].dirty == chunks[p].dirty
                                      && DiffuseAll(chunks, active)[p].dirtyRect == chunks[p].dirtyRect
    decreases |active|
  {
    if active != [] {
      DiffuseAllFrame(chunks, active[..|active| - 1]);
    }
  }

  /** `TemperatureSimulator`: a counter throttles diffusion to every second update. */
  class TemperatureSimulator {
    var updateCounter: U8

    ghost predicate Valid() reads this { updateCounter < 2 }

    constructor ()
      ensures Valid() && updateCounter == 0
    {
      updateCounter := 0;
    }

    method Update(chunks: map<IVec2, ChunkState>, active: seq<IVec2>) returns (result: map<IVec2, ChunkState>)
      requires Valid()
      modifies this
      ensures Valid()
      ensures old(updateCounter) == 0 ==> updateCounter == 1 && result == chunks
      ensures old(updateCounter) == 1 ==> updateCounter == 0 && result == DiffuseAll(chunks, active)
    {
      updateCounter := updateCounter + 1;
      if updateCounter < 2 {
        return chunks;
      }
      updateCounter := 0;
      result := chunks;
      var i := 0;
      while i < |active|
        invariant 0 <= i <= |active| && updateCounter == 0
        invariant result == DiffuseAll(chunks, active[..i])
      {
        assert active[..i + 1][..i] == active[..i];
        var pos := active[i];
        if pos in result {
          var diffused := DiffuseChunkTemperature(result[pos].temperature);
          result := result[pos := result[pos].(temperature := diffused)];
        }
        i := i + 1;
      }
      assert active[..i] == active;
    }
  }
}
