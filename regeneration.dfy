/**
 * Fruit regrowth: every five seconds of accumulated time, each PLANT_MATTER
 * pixel of each active chunk may drop a FRUIT pixel into the cell directly
 * below it.
 *
 * The source scans "up to 3 pixels down", but both branches of the scan end
 * it at the first cell, so only the cell directly below a plant is ever
 * examined: it becomes FRUIT if it is AIR and the search stops otherwise.
 * The pass keeps that behaviour (FruitBelow, NoFruitPastBlockedCell);
 * FruitBelowNearest is the nearest-air search the comment and the source's
 * own test describe.
 *
 * The 5% roll of each plant pixel is a drawn value per cell, so that one
 * pass is a function of the chunk and the draws.
 */
module Regeneration {
  import opened Wrappers
  import opened Ints
  import opened Chunks
  import opened CoreIds
  import M = Materials

  const REGENERATION_INTERVAL: real := 5.0
  const FRUIT_SPAWN_CHANCE: real := 0.05

  /** The draws of one pass over a chunk: the roll of each cell, 1.0 where none is given. */
  type Rolls = map<(nat, nat), real>

  /** A plant at (x, y) tries to drop fruit unless its roll exceeds the chance. */
  predicate RollSucceeds(rolls: Rolls, x: nat, y: nat)
  {
    !((if (x, y) in rolls then rolls[(x, y)] else 1.0) > FRUIT_SPAWN_CHANCE)
  }

  // ---------------------------------------------------------------------
  // One pass over one chunk

  /** The search below a plant: the cell under it becomes FRUIT if it is AIR; the search stops either way. */
  function FruitBelow(c: ChunkState, x: nat, y: nat): ChunkState
    requires InChunk(x, y)
  {
    if y + 1 < CHUNK_SIZE && PixelAt(c, x, y + 1).material == M.AIR then WithPixel(c, x, y + 1, NewPixel(FRUIT))
    else c
  }

  /** One cell of the scan: a plant whose roll succeeds drops fruit. */
  function CellSpawn(c: ChunkState, rolls: Rolls, x: nat, y: nat): ChunkState
    requires InChunk(x, y)
  {
    if PixelAt(c, x, y).material == PLANT_MATTER && RollSucceeds(rolls, x, y) then FruitBelow(c, x, y) else c
  }

  /** The first n cells of row y, left to right. */
  function SpawnRow(c: ChunkState, rolls: Rolls, y: nat, n: nat): ChunkState
    requires y < CHUNK_SIZE && n <= CHUNK_SIZE
  {
    if n == 0 then c else CellSpawn(SpawnRow(c, rolls, y, n - 1), rolls, n - 1, y)
  }

  /** The first m rows, bottom to top. */
  function SpawnRows(c: ChunkState, rolls: Rolls, m: nat): ChunkState
    requires m <= CHUNK_SIZE
  {
    if m == 0 then c else SpawnRow(SpawnRows(c, rolls, m - 1), rolls, m - 1, CHUNK_SIZE)
  }

  /** `spawn_fruit_in_chunk`. */
  function SpawnPass(c: ChunkState, rolls: Rolls): ChunkState
  {
    SpawnRows(c, rolls, CHUNK_SIZE)
  }

  // ---------------------------------------------------------------------
  // What a pass produces, cell by cell

  /** Cell (x, y) receives fruit: it is AIR and the plant directly above it rolled a spawn. */
  predicate Sprouts(c: ChunkState, rolls: Rolls, x: nat, y: nat)
    requires InChunk(x, y)
  {
    y >= 1 && PixelAt(c, x, y - 1).material == PLANT_MATTER && RollSucceeds(rolls, x, y - 1)
    && PixelAt(c, x, y).material == M.AIR
  }

  /** The pixel a pass leaves at (x, y). */
  function Target(c: ChunkState, rolls: Rolls, x: nat, y: nat): Pixel
    requires InChunk(x, y)
  {
    if Sprouts(c, rolls, x, y) then NewPixel(FRUIT) else PixelAt(c, x, y)
  }

  /** Whether the scan, standing at cell (x, y), has already passed the plant above (i, j). */
  predicate Passed(i: nat, j: nat, y: nat, x: nat)
  {
    j >= 1 && (j - 1 < y || (j - 1 == y && i < x))
  }

  /** The chunk during the scan: passed cells hold their final pixel, the others their original one. */
  ghost predicate Matches(orig: ChunkState, cur: ChunkState, rolls: Rolls, y: nat, x: nat)
  {
    forall i: nat, j: nat {:trigger PixelAt(cur, i, j)} | InChunk(i, j) ::
      PixelAt(cur, i, j) == if Passed(i, j, y, x) then Target(orig, rolls, i, j) else PixelAt(orig, i, j)
  }

  /** Moving the scan one cell on changes the status of the cell below it only. */
  lemma PassedStep(i: nat, j: nat, x: nat, y: nat)
    requires i != x || j != y + 1
    ensures Passed(i, j, y, x + 1) == Passed(i, j, y, x)
  {
  }

  lemma CellSpawnStep(orig: ChunkState, cur: ChunkState, rolls: Rolls, x: nat, y: nat)
    requires InChunk(x, y) && Matches(orig, cur, rolls, y, x)
    ensures Matches(orig, CellSpawn(cur, rolls, x, y), rolls, y, x + 1)
  {
    assert PixelAt(cur, x, y).material == PLANT_MATTER <==> PixelAt(orig, x, y).material == PLANT_MATTER;
    if y + 1 < CHUNK_SIZE && PixelAt(cur, x, y).material == PLANT_MATTER && RollSucceeds(rolls, x, y)
       && PixelAt(cur, x, y + 1).material == M.AIR {
      CellSpawnWrites(orig, cur, rolls, x, y);
    } else {
      CellSpawnKeeps(orig, cur, rolls, x, y);
    }
  }

  lemma CellSpawnWrites(orig: ChunkState, cur: ChunkState, rolls: Rolls, x: nat, y: nat)
    requires InChunk(x, y) && y + 1 < CHUNK_SIZE && Matches(orig, cur, rolls, y, x)
    requires PixelAt(orig, x, y).material == PLANT_MATTER && RollSucceeds(rolls, x, y)
    requires PixelAt(cur, x, y + 1).material == M.AIR
    ensures Matches(orig, WithPixel(cur, x, y + 1, NewPixel(FRUIT)), rolls, y, x + 1)
  {
    var next := WithPixel(cur, x, y + 1, NewPixel(FRUIT));
    SetThenGet(cur, x, y + 1, NewPixel(FRUIT));
    assert PixelAt(cur, x, y + 1) == PixelAt(orig, x, y + 1);
    assert Sprouts(orig, rolls, x, y + 1);
    forall i: nat, j: nat | InChunk(i, j)
      ensures PixelAt(next, i, j) == if Passed(i, j, y, x + 1) then Target(orig, rolls, i, j) else PixelAt(orig, i, j)
    {
      if i != x || j != y + 1 {
        PassedStep(i, j, x, y);
      }
    }
  }

  lemma CellSpawnKeeps(orig: ChunkState, cur: ChunkState, rolls: Rolls, x: nat, y: nat)
    requires InChunk(x, y) && Matches(orig, cur, rolls, y, x)
    requires PixelAt(cur, x, y).material == PLANT_MATTER <==> PixelAt(orig, x, y).material == PLANT_MATTER
    requires !(y + 1 < CHUNK_SIZE && PixelAt(cur, x, y).material == PLANT_MATTER && RollSucceeds(rolls, x, y)
               && PixelAt(cur, x, y + 1).material == M.AIR)
    ensures CellSpawn(cur, rolls, x, y) == cur
    ensures Matches(orig, cur, rolls, y, x + 1)
  {
    if y + 1 < CHUNK_SIZE {
      assert PixelAt(cur, x, y + 1) == PixelAt(orig, x, y + 1);
      assert !Sprouts(orig, rolls, x, y + 1);
    }
    forall i: nat, j: nat | InChunk(i, j)
      ensures PixelAt(cur, i, j) == if Passed(i, j, y, x + 1) then Target(orig, rolls, i, j) else PixelAt(orig, i, j)
    {
      if i != x || j != y + 1 {
        PassedStep(i, j, x, y);
      }
    }
  }

  lemma {:induction false} SpawnRowMatches(orig: ChunkState, cur: ChunkState, rolls: Rolls, y: nat, n: nat)
    requires y < CHUNK_SIZE && n <= CHUNK_SIZE && Matches(orig, cur, rolls, y, 0)
    ensures Matches(orig, SpawnRow(cur, rolls, y, n), rolls, y, n)
    decreases n
  {
    if n > 0 {
      SpawnRowMatches(orig, cur, rolls, y, n - 1);
      CellSpawnStep(orig, SpawnRow(cur, rolls, y, n - 1), rolls, n - 1, y);
    }
  }

  lemma {:induction false} SpawnRowsMatch(c: ChunkState, rolls: Rolls, m: nat)
    requires m <= CHUNK_SIZE
    ensures Matches(c, SpawnRows(c, rolls, m), rolls, m, 0)
    decreases m
  {
    if m > 0 {
      SpawnRowsMatch(c, rolls, m - 1);
      SpawnRowMatches(c, SpawnRows(c, rolls, m - 1), rolls, m - 1, CHUNK_SIZE);
    }
  }

  /**
   * A pass fills exactly the AIR cells directly below a plant whose roll
   * succeeded with FRUIT, and leaves every other cell as it was.
   */
  lemma SpawnPassPixels(c: ChunkState, rolls: Rolls)
    ensures forall x: nat, y: nat | InChunk(x, y) :: PixelAt(SpawnPass(c, rolls), x, y) == Target(c, rolls, x, y)
  {
    SpawnRowsMatch(c, rolls, CHUNK_SIZE);
  }

  /**
   * The only change a pass makes is AIR to FRUIT, one cell below the plant
   * that caused it, so a non-air pixel is never overwritten and each plant
   * produces at most one fruit.
   */
  lemma SpawnOnlyFillsAir(c: ChunkState, rolls: Rolls, x: nat, y: nat)
    requires InChunk(x, y) && PixelAt(SpawnPass(c, rolls), x, y) != PixelAt(c, x, y)
    ensures PixelAt(c, x, y).material == M.AIR && PixelAt(SpawnPass(c, rolls), x, y) == NewPixel(FRUIT)
    ensures y >= 1 && PixelAt(c, x, y - 1).material == PLANT_MATTER && RollSucceeds(rolls, x, y - 1)
  {
    SpawnPassPixels(c, rolls);
  }

  /**
   * The scan never looks past the first cell below a plant: with a non-air,
   * non-plant cell there, the AIR cell two below stays AIR.
   */
  lemma NoFruitPastBlockedCell(c: ChunkState, rolls: Rolls, x: nat, y: nat)
    requires InChunk(x, y) && y + 2 < CHUNK_SIZE
    requires PixelAt(c, x, y).material == PLANT_MATTER && RollSucceeds(rolls, x, y)
    requires PixelAt(c, x, y + 1).material != M.AIR && PixelAt(c, x, y + 1).material != PLANT_MATTER
    requires PixelAt(c, x, y + 2).material == M.AIR
    ensures PixelAt(SpawnPass(c, rolls), x, y + 1) == PixelAt(c, x, y + 1)
    ensures PixelAt(SpawnPass(c, rolls), x, y + 2).material == M.AIR
  {
    SpawnPassPixels(c, rolls);
  }

  /**
   * The search the scan's comment describes: the nearest AIR cell among the
   * (up to) three cells below the plant, from offset `d` on, stopping at the
   * chunk's bottom edge.
   */
  function NearestAirBelow(c: ChunkState, x: nat, y: nat, d: nat): (r: Option<nat>)
    requires InChunk(x, y) && 1 <= d
    ensures r.Some? ==> d <= r.value <= 3 && y + r.value < CHUNK_SIZE
                        && PixelAt(c, x, y + r.value).material == M.AIR
                        && forall j | y + d <= j < y + r.value :: PixelAt(c, x, j).material != M.AIR
    ensures r.None? ==> forall j | y + d <= j <= y + 3 && j < CHUNK_SIZE :: PixelAt(c, x, j).material != M.AIR
    decreases 4 - d
  {
    if d > 3 || y + d >= CHUNK_SIZE then None
    else if PixelAt(c, x, y + d).material == M.AIR then Some(d)
    else NearestAirBelow(c, x, y, d + 1)
  }

  /** The search below a plant as intended: the nearest AIR cell within three below becomes FRUIT. */
  function FruitBelowNearest(c: ChunkState, x: nat, y: nat): ChunkState
    requires InChunk(x, y)
  {
    match NearestAirBelow(c, x, y, 1)
    case None => c
    case Some(d) => WithPixel(c, x, y + d, NewPixel(FRUIT))
  }

  /**
   * The intended search writes FRUIT into the nearest AIR cell within three
   * below the plant and nowhere else; it writes nothing when those cells
   * hold no AIR. Only AIR is ever replaced.
   */
  lemma FruitBelowNearestEffect(c: ChunkState, x: nat, y: nat, i: nat, j: nat)
    requires InChunk(x, y) && InChunk(i, j)
    ensures var r := FruitBelowNearest(c, x, y);
            var n := NearestAirBelow(c, x, y, 1);
            PixelAt(r, i, j) == if n.Some? && i == x && j == y + n.value then NewPixel(FRUIT) else PixelAt(c, i, j)
    ensures PixelAt(FruitBelowNearest(c, x, y), i, j) != PixelAt(c, i, j) ==> PixelAt(c, i, j).material == M.AIR
  {
    match NearestAirBelow(c, x, y, 1)
    case None =>
    case Some(d) =>
      IndexInjective(i, j, x, y + d);
  }

  /**
   * The scene of the source's nearest-air test: a plant with STONE directly
   * below and AIR two below. The search as written leaves the AIR cell
   * empty; the intended search fills it and keeps the STONE.
   */
  lemma NearestAirScene(c: ChunkState, x: nat, y: nat)
    requires InChunk(x, y) && y + 2 < CHUNK_SIZE
    requires PixelAt(c, x, y + 1).material == M.STONE && PixelAt(c, x, y + 2).material == M.AIR
    ensures FruitBelow(c, x, y) == c
    ensures PixelAt(FruitBelowNearest(c, x, y), x, y + 2) == NewPixel(FRUIT)
    ensures PixelAt(FruitBelowNearest(c, x, y), x, y + 1).material == M.STONE
  {
    assert NearestAirBelow(c, x, y, 1) == Some(2);
    FruitBelowNearestEffect(c, x, y, x, y + 2);
    FruitBelowNearestEffect(c, x, y, x, y + 1);
  }

  // ---------------------------------------------------------------------
  // The scan, in place

  /** `spawn_fruit_in_chunk`: rows bottom to top, cells left to right. */
  method SpawnFruitInChunk(chunk: Chunk, rolls: Rolls)
    requires chunk.Valid()
    modifies chunk, chunk.pixels
    ensures chunk.Valid() && chunk.Value() == SpawnPass(old(chunk.Value()), rolls)
  {
    var y := 0;
    while y < CHUNK_SIZE
      invariant y <= CHUNK_SIZE && chunk.Valid()
      invariant chunk.Value() == SpawnRows(old(chunk.Value()), rolls, y)
    {
      SpawnFruitInRow(chunk, rolls, y);
      y := y + 1;
    }
  }

  method SpawnFruitInRow(chunk: Chunk, rolls: Rolls, y: nat)
    requires chunk.Valid() && y < CHUNK_SIZE
    modifies chunk, chunk.pixels
    ensures chunk.Valid() && chunk.Value() == SpawnRow(old(chunk.Value()), rolls, y, CHUNK_SIZE)
  {
    var x := 0;
    while x < CHUNK_SIZE
      invariant x <= CHUNK_SIZE && chunk.Valid()
      invariant chunk.Value() == SpawnRow(old(chunk.Value()), rolls, y, x)
    {
      SpawnFruitAt(chunk, rolls, x, y);
      x := x + 1;
    }
  }

  /** One cell of the scan, with the downward search as the source writes it. */
  method SpawnFruitAt(chunk: Chunk, rolls: Rolls, x: nat, y: nat)
    requires chunk.Valid() && InChunk(x, y)
    modifies chunk, chunk.pixels
    ensures chunk.Valid() && chunk.Value() == CellSpawn(old(chunk.Value()), rolls, x, y)
  {
    var pixel := chunk.GetPixel(x, y);
    if pixel.material != PLANT_MATTER || !RollSucceeds(rolls, x, y) {
      return;
    }
    var dy := 1;
    var searching := true;
    while searching && dy <= 3
      invariant chunk.Valid() && 1 <= dy
      invariant searching ==> dy == 1 && chunk.Value() == old(chunk.Value())
      invariant !searching ==> chunk.Value() == CellSpawn(old(chunk.Value()), rolls, x, y)
      decreases 4 - dy
    {
      if y + dy >= CHUNK_SIZE {
        searching := false;
      } else {
        var below := chunk.GetPixel(x, y + dy);
        if below.material == M.AIR {
          chunk.SetPixel(x, y + dy, NewPixel(FRUIT));
        }
        // a non-air cell ends the search as well
        searching := false;
      }
      dy := dy + 1;
    }
  }

  // ---------------------------------------------------------------------
  // The throttled update

  /** The draws of one update: the rolls for each chunk, none where none is given. */
  function RollsFor(rolls: map<IVec2, Rolls>, cp: IVec2): Rolls
  {
    if cp in rolls then rolls[cp] else map[]
  }

  /** The passes over the first n active positions, skipping those not loaded. */
  function SpawnActive(chunks: ChunkMap, active: seq<IVec2>, rolls: map<IVec2, Rolls>, n: nat): ChunkMap
    requires n <= |active|
  {
    if n == 0 then chunks
    else
      var r := SpawnActive(chunks, active, rolls, n - 1);
      var cp := active[n - 1];
      if cp in r then r[cp := SpawnPass(r[cp], RollsFor(rolls, cp))] else r
  }

  /** The passes keep the loaded chunks and change only active ones. */
  lemma {:induction false} SpawnActiveFrame(chunks: ChunkMap, active: seq<IVec2>, rolls: map<IVec2, Rolls>, n: nat)
    requires n <= |active|
    ensures SpawnActive(chunks, active, rolls, n).Keys == chunks.Keys
    ensures forall cp | cp in chunks && cp !in active[..n] :: SpawnActive(chunks, active, rolls, n)[cp] == chunks[cp]
    decreases n
  {
    if n > 0 {
      SpawnActiveFrame(chunks, active, rolls, n - 1);
      assert forall cp | cp !in active[..n] :: cp !in active[..n - 1] && cp != active[n - 1] by {
        assert active[..n] == active[..n - 1] + [active[n - 1]];
      }
    }
  }

  /** Passes only turn AIR into FRUIT: a pixel that is not AIR is never changed. */
  lemma {:induction false} SpawnActiveKeepsNonAir(chunks: ChunkMap, active: seq<IVec2>, rolls: map<IVec2, Rolls>, n: nat, cp: IVec2, x: nat, y: nat)
    requires n <= |active| && cp in chunks && InChunk(x, y) && PixelAt(chunks[cp], x, y).material != M.AIR
    ensures cp in SpawnActive(chunks, active, rolls, n)
    ensures PixelAt(SpawnActive(chunks, active, rolls, n)[cp], x, y) == PixelAt(chunks[cp], x, y)
    decreases n
  {
    SpawnActiveFrame(chunks, active, rolls, n);
    if n > 0 {
      SpawnActiveKeepsNonAir(chunks, active, rolls, n - 1, cp, x, y);
      var r := SpawnActive(chunks, active, rolls, n - 1);
      if active[n - 1] == cp {
        SpawnPassPixels(r[cp], RollsFor(rolls, cp));
      }
    }
  }

  /** The loop of `update` over the active positions. */
  method SpawnInActiveChunks(chunks: ChunkMap, active: seq<IVec2>, rolls: map<IVec2, Rolls>) returns (r: ChunkMap)
    ensures r == SpawnActive(chunks, active, rolls, |active|)
  {
    r := chunks;
    var k := 0;
    while k < |active|
      invariant k <= |active| && r == SpawnActive(chunks, active, rolls, k)
    {
      var cp := active[k];
      if cp in r {
        r := r[cp := SpawnPass(r[cp], RollsFor(rolls, cp))];
      }
      k := k + 1;
    }
  }

  /** The regrowth system: the time accumulated towards the next pass. */
  class RegenerationSystem {
    var timeAccumulator: real

    constructor()
      ensures timeAccumulator == 0.0
    {
      timeAccumulator := 0.0;
    }

    /**
     * `update`: time accumulates; once it reaches the interval, the interval
     * is subtracted and every loaded active chunk gets one pass.
     */
    method Update(chunks: ChunkMap, active: seq<IVec2>, dt: real, rolls: map<IVec2, Rolls>) returns (r: ChunkMap)
      modifies this
      ensures old(timeAccumulator) + dt < REGENERATION_INTERVAL ==>
                timeAccumulator == old(timeAccumulator) + dt && r == chunks
      ensures old(timeAccumulator) + dt >= REGENERATION_INTERVAL ==>
                timeAccumulator == old(timeAccumulator) + dt - REGENERATION_INTERVAL
                && r == SpawnActive(chunks, active, rolls, |active|)
    {
      timeAccumulator := timeAccumulator + dt;
      if timeAccumulator < REGENERATION_INTERVAL {
        return chunks;
      }
      timeAccumulator := timeAccumulator - REGENERATION_INTERVAL;
      r := SpawnInActiveChunks(chunks, active, rolls);
    }
  }
}
