/**
 * The electrical pass of the engine crate: one row-major scan over a chunk,
 * in which every spark source and every powered conductor powers its
 * conductive neighbours inside the same chunk. The scan writes in place, so
 * a conductor powered earlier in the same scan spreads further when the scan
 * reaches it.
 *
 * `Update` is the pass as a function of the chunk; `UpdateChunk` is the
 * in-place pass over a `Chunk` object, proved equal to it. The lemmas say
 * what the pass may change (`Evolves`), why it changed it (`Explained`), and
 * that a chunk without sources or power is left as it is.
 */
module Electrical {
  import opened Chunks
  import opened CoreIds

  /** A pixel that powers its neighbours: a spark source, or a powered conductor. */
  predicate Spreads(p: Pixel)
  {
    p.flags & SPARK_SOURCE != 0 || (p.flags & POWERED != 0 && p.flags & CONDUCTIVE != 0)
  }

  /** A conductive pixel not yet powered. */
  predicate Chargeable(p: Pixel)
  {
    p.flags & CONDUCTIVE != 0 && p.flags & POWERED == 0
  }

  function Charged(p: Pixel): Pixel
  {
    p.(flags := p.flags | POWERED)
  }

  // ---------------------------------------------------------------------
  // The pass as a function, loop level by loop level

  /** One iteration (dx, dy) of `power_neighbors` around (x, y): the centre and cells outside the chunk are skipped. */
  function PowerAt(c: ChunkState, x: nat, y: nat, dx: int, dy: int): ChunkState
    requires InChunk(x, y)
  {
    var nx, ny := x + dx, y + dy;
    if dx == 0 && dy == 0 then c
    else if !InChunk(nx, ny) then c
    else if Chargeable(PixelAt(c, nx, ny)) then WithPixel(c, nx, ny, Charged(PixelAt(c, nx, ny)))
    else c
  }

  /** The inner loop of `power_neighbors`: dx = -1 .. m-2 in row dy. */
  function PowerRow(c: ChunkState, x: nat, y: nat, dy: int, m: nat): ChunkState
    requires InChunk(x, y) && m <= 3
  {
    if m == 0 then c else PowerAt(PowerRow(c, x, y, dy, m - 1), x, y, m - 2, dy)
  }

  /** The outer loop of `power_neighbors`: rows dy = -1 .. k-2. */
  function PowerRows(c: ChunkState, x: nat, y: nat, k: nat): ChunkState
    requires InChunk(x, y) && k <= 3
  {
    if k == 0 then c else PowerRow(PowerRows(c, x, y, k - 1), x, y, k - 2, 3)
  }

  /** `power_neighbors(x, y)`. */
  function PowerNeighbors(c: ChunkState, x: nat, y: nat): ChunkState
    requires InChunk(x, y)
  {
    PowerRows(c, x, y, 3)
  }

  /** One cell of the scan: a spreading pixel powers its neighbours. */
  function Visit(c: ChunkState, x: nat, y: nat): ChunkState
    requires InChunk(x, y)
  {
    if Spreads(PixelAt(c, x, y)) then PowerNeighbors(c, x, y) else c
  }

  /** The inner loop of `update`: cells x = 0 .. n-1 of row y, left to right. */
  function ScanRow(c: ChunkState, y: nat, n: nat): ChunkState
    requires y < CHUNK_SIZE && n <= CHUNK_SIZE
  {
    if n == 0 then c else Visit(ScanRow(c, y, n - 1), n - 1, y)
  }

  /** The outer loop of `update`: rows y = 0 .. n-1, bottom to top. */
  function ScanRows(c: ChunkState, n: nat): ChunkState
    requires n <= CHUNK_SIZE
  {
    if n == 0 then c else ScanRow(ScanRows(c, n - 1), n - 1, CHUNK_SIZE)
  }

  /** `ElectricalSystem::update` on one chunk. */
  function Update(c: ChunkState): ChunkState
  {
    ScanRows(c, CHUNK_SIZE)
  }

  // ---------------------------------------------------------------------
  // What the pass may change

  /** A pixel keeps its material, and its flags stay or gain POWERED, the latter only when it is conductive. */
  predicate Grew(p: Pixel, q: Pixel)
  {
    q.material == p.material
    && (q.flags == p.flags || (p.flags & CONDUCTIVE != 0 && q.flags == p.flags | POWERED))
  }

  /** Every cell of `d` grew from the same cell of `c`; position and the coarse grids are untouched. */
  ghost predicate Evolves(c: ChunkState, d: ChunkState)
  {
    d.x == c.x && d.y == c.y && d.temperature == c.temperature && d.pressure == c.pressure
    && forall x: nat, y: nat | InChunk(x, y) :: Grew(PixelAt(c, x, y), PixelAt(d, x, y))
  }

  lemma GrewTransitive(p: Pixel, q: Pixel, s: Pixel)
    requires Grew(p, q) && Grew(q, s)
    ensures Grew(p, s)
  {
  }

  /** Growing never takes the spreading property away, since no bit is ever cleared. */
  lemma GrewKeepsSpreads(p: Pixel, q: Pixel)
    requires Grew(p, q) && Spreads(p)
    ensures Spreads(q)
  {
  }

  /** Growing keeps every flag bit other than POWERED, never clears POWERED, and sets it only on conductors. */
  lemma GrewMeans(p: Pixel, q: Pixel)
    requires Grew(p, q)
    ensures q.flags & !POWERED == p.flags & !POWERED
    ensures p.flags & POWERED != 0 ==> q.flags & POWERED != 0
    ensures q.flags & POWERED != 0 && p.flags & POWERED == 0 ==> p.flags & CONDUCTIVE != 0
  {
  }

  lemma EvolvesTransitive(a: ChunkState, b: ChunkState, c: ChunkState)
    requires Evolves(a, b) && Evolves(b, c)
    ensures Evolves(a, c)
  {
    forall x: nat, y: nat | InChunk(x, y) ensures Grew(PixelAt(a, x, y), PixelAt(c, x, y)) {
      GrewTransitive(PixelAt(a, x, y), PixelAt(b, x, y), PixelAt(c, x, y));
    }
  }

  /** Neighbour (dx, dy) of (x, y) lies in the chunk and spreads in `d`. */
  predicate SpreadingNeighbour(d: ChunkState, x: nat, y: nat, dx: int, dy: int)
  {
    -1 <= dx <= 1 && -1 <= dy <= 1 && (dx != 0 || dy != 0)
    && InChunk(x + dx, y + dy) && Spreads(PixelAt(d, x + dx, y + dy))
  }

  /** Every cell that differs between `c` and `d` has a spreading neighbour in `d`: the pass starts only from spreaders. */
  ghost predicate Explained(c: ChunkState, d: ChunkState)
  {
    forall x: nat, y: nat | InChunk(x, y) && PixelAt(d, x, y) != PixelAt(c, x, y) ::
      exists dx, dy :: SpreadingNeighbour(d, x, y, dx, dy)
  }

  lemma ExplainedTransitive(a: ChunkState, b: ChunkState, c: ChunkState)
    requires Explained(a, b) && Explained(b, c) && Evolves(b, c)
    ensures Explained(a, c)
  {
    forall x: nat, y: nat | InChunk(x, y) && PixelAt(c, x, y) != PixelAt(a, x, y)
      ensures exists dx, dy :: SpreadingNeighbour(c, x, y, dx, dy)
    {
      if PixelAt(c, x, y) == PixelAt(b, x, y) {
        var dx, dy :| SpreadingNeighbour(b, x, y, dx, dy);
        GrewKeepsSpreads(PixelAt(b, x + dx, y + dy), PixelAt(c, x + dx, y + dy));
        assert SpreadingNeighbour(c, x, y, dx, dy);
      }
    }
  }

  /** One neighbour step from a spreading centre grows the chunk and explains what it changed. */
  lemma PowerAtEffect(c: ChunkState, x: nat, y: nat, dx: int, dy: int)
    requires InChunk(x, y) && -1 <= dx <= 1 && -1 <= dy <= 1 && Spreads(PixelAt(c, x, y))
    ensures Evolves(c, PowerAt(c, x, y, dx, dy)) && Explained(c, PowerAt(c, x, y, dx, dy))
  {
    var nx, ny := x + dx, y + dy;
    if (dx != 0 || dy != 0) && InChunk(nx, ny) && Chargeable(PixelAt(c, nx, ny)) {
      var p := Charged(PixelAt(c, nx, ny));
      var d := WithPixel(c, nx, ny, p);
      SetThenGet(c, nx, ny, p);
      assert PixelAt(d, x, y) == PixelAt(c, x, y);
      assert SpreadingNeighbour(d, nx, ny, -dx, -dy);
    }
  }

  lemma {:induction false} PowerRowEffect(c: ChunkState, x: nat, y: nat, dy: int, m: nat)
    requires InChunk(x, y) && -1 <= dy <= 1 && m <= 3 && Spreads(PixelAt(c, x, y))
    ensures Evolves(c, PowerRow(c, x, y, dy, m)) && Explained(c, PowerRow(c, x, y, dy, m))
    decreases m
  {
    if m > 0 {
      var b := PowerRow(c, x, y, dy, m - 1);
      PowerRowEffect(c, x, y, dy, m - 1);
      GrewKeepsSpreads(PixelAt(c, x, y), PixelAt(b, x, y));
      PowerAtEffect(b, x, y, m - 2, dy);
      EvolvesTransitive(c, b, PowerRow(c, x, y, dy, m));
      ExplainedTransitive(c, b, PowerRow(c, x, y, dy, m));
    }
  }

  lemma {:induction false} PowerRowsEffect(c: ChunkState, x: nat, y: nat, k: nat)
    requires InChunk(x, y) && k <= 3 && Spreads(PixelAt(c, x, y))
    ensures Evolves(c, PowerRows(c, x, y, k)) && Explained(c, PowerRows(c, x, y, k))
    decreases k
  {
    if k > 0 {
      var b := PowerRows(c, x, y, k - 1);
      PowerRowsEffect(c, x, y, k - 1);
      GrewKeepsSpreads(PixelAt(c, x, y), PixelAt(b, x, y));
      PowerRowEffect(b, x, y, k - 2, 3);
      EvolvesTransitive(c, b, PowerRows(c, x, y, k));
      ExplainedTransitive(c, b, PowerRows(c, x, y, k));
    }
  }

  lemma {:induction false} ScanRowEffect(c: ChunkState, y: nat, n: nat)
    requires y < CHUNK_SIZE && n <= CHUNK_SIZE
    ensures Evolves(c, ScanRow(c, y, n)) && Explained(c, ScanRow(c, y, n))
    decreases n
  {
    if n > 0 {
      var b := ScanRow(c, y, n - 1);
      ScanRowEffect(c, y, n - 1);
      if Spreads(PixelAt(b, n - 1, y)) {
        PowerRowsEffect(b, n - 1, y, 3);
        EvolvesTransitive(c, b, ScanRow(c, y, n));
        ExplainedTransitive(c, b, ScanRow(c, y, n));
      }
    }
  }

  lemma {:induction false} ScanRowsEffect(c: ChunkState, n: nat)
    requires n <= CHUNK_SIZE
    ensures Evolves(c, ScanRows(c, n)) && Explained(c, ScanRows(c, n))
    decreases n
  {
    if n > 0 {
      var b := ScanRows(c, n - 1);
      ScanRowsEffect(c, n - 1);
      ScanRowEffect(b, n - 1, CHUNK_SIZE);
      EvolvesTransitive(c, b, ScanRows(c, n));
      ExplainedTransitive(c, b, ScanRows(c, n));
    }
  }

  /**
   * `update` never changes a material id or the coarse grids; a flag word
   * changes only by gaining POWERED, only on a conductive pixel, and POWERED
   * is never cleared; and every changed pixel has, after the pass, a
   * spreading 8-neighbour inside the same chunk.
   */
  lemma UpdateEffect(c: ChunkState)
    ensures Evolves(c, Update(c)) && Explained(c, Update(c))
  {
    ScanRowsEffect(c, CHUNK_SIZE);
  }

  // ---------------------------------------------------------------------
  // What the pass does: power spreads

  lemma GrewKeepsConductive(p: Pixel, q: Pixel)
    requires Grew(p, q) && p.flags & CONDUCTIVE != 0
    ensures q.flags & CONDUCTIVE != 0
  {
  }

  lemma EvolvesRefl(c: ChunkState)
    ensures Evolves(c, c)
  {
  }

  /** Every later prefix of a `power_neighbors` row grew from an earlier one. */
  lemma {:induction false} PowerRowTail(b: ChunkState, x: nat, y: nat, dy: int, j: nat, m: nat)
    requires InChunk(x, y) && -1 <= dy <= 1 && j <= m <= 3 && Spreads(PixelAt(b, x, y))
    ensures Evolves(PowerRow(b, x, y, dy, j), PowerRow(b, x, y, dy, m))
    decreases m
  {
    if m == j {
      EvolvesRefl(PowerRow(b, x, y, dy, j));
    } else {
      var a := PowerRow(b, x, y, dy, m - 1);
      PowerRowTail(b, x, y, dy, j, m - 1);
      PowerRowEffect(b, x, y, dy, m - 1);
      GrewKeepsSpreads(PixelAt(b, x, y), PixelAt(a, x, y));
      PowerAtEffect(a, x, y, m - 2, dy);
      EvolvesTransitive(PowerRow(b, x, y, dy, j), a, PowerRow(b, x, y, dy, m));
    }
  }

  /** Every later prefix of the rows of `power_neighbors` grew from an earlier one. */
  lemma {:induction false} PowerRowsTail(c: ChunkState, x: nat, y: nat, j: nat, k: nat)
    requires InChunk(x, y) && j <= k <= 3 && Spreads(PixelAt(c, x, y))
    ensures Evolves(PowerRows(c, x, y, j), PowerRows(c, x, y, k))
    decreases k
  {
    if k == j {
      EvolvesRefl(PowerRows(c, x, y, j));
    } else {
      var a := PowerRows(c, x, y, k - 1);
      PowerRowsTail(c, x, y, j, k - 1);
      PowerRowsEffect(c, x, y, k - 1);
      GrewKeepsSpreads(PixelAt(c, x, y), PixelAt(a, x, y));
      PowerRowEffect(a, x, y, k - 2, 3);
      EvolvesTransitive(PowerRows(c, x, y, j), a, PowerRows(c, x, y, k));
    }
  }

  /** Step (dx, dy) of `power_neighbors` leaves a conductive in-chunk neighbour powered. */
  lemma PowerAtPowers(c: ChunkState, x: nat, y: nat, dx: int, dy: int)
    requires InChunk(x, y) && (dx != 0 || dy != 0) && InChunk(x + dx, y + dy)
    requires PixelAt(c, x + dx, y + dy).flags & CONDUCTIVE != 0
    ensures PixelAt(PowerAt(c, x, y, dx, dy), x + dx, y + dy).flags & POWERED != 0
  {
    var p := PixelAt(c, x + dx, y + dy);
    if Chargeable(p) {
      SetThenGet(c, x + dx, y + dy, Charged(p));
    }
  }

  /**
   * `power_neighbors(x, y)` around a spreading pixel powers every conductive
   * 8-neighbour inside the chunk, whether it was powered before or not.
   */
  lemma PowerNeighborsPowers(c: ChunkState, x: nat, y: nat, dx: int, dy: int)
    requires InChunk(x, y) && Spreads(PixelAt(c, x, y))
    requires -1 <= dx <= 1 && -1 <= dy <= 1 && (dx != 0 || dy != 0) && InChunk(x + dx, y + dy)
    requires PixelAt(c, x + dx, y + dy).flags & CONDUCTIVE != 0
    ensures PixelAt(PowerNeighbors(c, x, y), x + dx, y + dy).flags & POWERED != 0
  {
    var nx: nat, ny: nat := x + dx, y + dy;
    var b := PowerRows(c, x, y, dy + 1);
    PowerRowsEffect(c, x, y, dy + 1);
    GrewKeepsSpreads(PixelAt(c, x, y), PixelAt(b, x, y));
    var a0 := PowerRow(b, x, y, dy, dx + 1);
    PowerRowEffect(b, x, y, dy, dx + 1);
    EvolvesTransitive(c, b, a0);
    GrewKeepsConductive(PixelAt(c, nx, ny), PixelAt(a0, nx, ny));
    var a1 := PowerRow(b, x, y, dy, dx + 2);
    PowerAtPowers(a0, x, y, dx, dy);
    assert PixelAt(a1, nx, ny).flags & POWERED != 0;
    PowerRowTail(b, x, y, dy, dx + 2, 3);
    GrewMeans(PixelAt(a1, nx, ny), PixelAt(PowerRows(c, x, y, dy + 2), nx, ny));
    PowerRowsTail(c, x, y, dy + 2, 3);
    GrewMeans(PixelAt(PowerRows(c, x, y, dy + 2), nx, ny), PixelAt(PowerNeighbors(c, x, y), nx, ny));
  }

  lemma VisitEvolves(c: ChunkState, x: nat, y: nat)
    requires InChunk(x, y)
    ensures Evolves(c, Visit(c, x, y))
  {
    if Spreads(PixelAt(c, x, y)) {
      PowerRowsEffect(c, x, y, 3);
    } else {
      EvolvesRefl(c);
    }
  }

  lemma {:induction false} ScanRowTail(b: ChunkState, y: nat, j: nat, n: nat)
    requires y < CHUNK_SIZE && j <= n <= CHUNK_SIZE
    ensures Evolves(ScanRow(b, y, j), ScanRow(b, y, n))
    decreases n
  {
    if n == j {
      EvolvesRefl(ScanRow(b, y, j));
    } else {
      ScanRowTail(b, y, j, n - 1);
      VisitEvolves(ScanRow(b, y, n - 1), n - 1, y);
      EvolvesTransitive(ScanRow(b, y, j), ScanRow(b, y, n - 1), ScanRow(b, y, n));
    }
  }

  lemma {:induction false} ScanRowsTail(c: ChunkState, j: nat, n: nat)
    requires j <= n <= CHUNK_SIZE
    ensures Evolves(ScanRows(c, j), ScanRows(c, n))
    decreases n
  {
    if n == j {
      EvolvesRefl(ScanRows(c, j));
    } else {
      ScanRowsTail(c, j, n - 1);
      ScanRowEffect(ScanRows(c, n - 1), n - 1, CHUNK_SIZE);
      EvolvesTransitive(ScanRows(c, j), ScanRows(c, n - 1), ScanRows(c, n));
    }
  }

  /** The scan up to cell (x, y), not yet visiting it, grew from the chunk it started on. */
  lemma ScanBefore(c: ChunkState, x: nat, y: nat)
    requires InChunk(x, y)
    ensures Evolves(c, ScanRow(ScanRows(c, y), y, x))
  {
    ScanRowsEffect(c, y);
    ScanRowEffect(ScanRows(c, y), y, x);
    EvolvesTransitive(c, ScanRows(c, y), ScanRow(ScanRows(c, y), y, x));
  }

  /** The rest of the scan after cell (x, y) only grows the chunk. */
  lemma ScanAfter(c: ChunkState, x: nat, y: nat)
    requires InChunk(x, y)
    ensures Evolves(ScanRow(ScanRows(c, y), y, x + 1), Update(c))
  {
    ScanRowTail(ScanRows(c, y), y, x + 1, CHUNK_SIZE);
    ScanRowsTail(c, y + 1, CHUNK_SIZE);
    EvolvesTransitive(ScanRow(ScanRows(c, y), y, x + 1), ScanRows(c, y + 1), Update(c));
  }

  /**
   * Power spreads: after one `update`, every conductive 8-neighbour (inside
   * the chunk) of a pixel that spread before the pass is powered. Spreading
   * is never lost during the scan, so the pixel still spreads when the scan
   * reaches it.
   */
  lemma UpdateSpreads(c: ChunkState, x: nat, y: nat, dx: int, dy: int)
    requires InChunk(x, y) && Spreads(PixelAt(c, x, y))
    requires -1 <= dx <= 1 && -1 <= dy <= 1 && (dx != 0 || dy != 0) && InChunk(x + dx, y + dy)
    requires PixelAt(c, x + dx, y + dy).flags & CONDUCTIVE != 0
    ensures PixelAt(Update(c), x + dx, y + dy).flags & POWERED != 0
  {
    var nx: nat, ny: nat := x + dx, y + dy;
    var e := ScanRow(ScanRows(c, y), y, x);
    ScanBefore(c, x, y);
    GrewKeepsSpreads(PixelAt(c, x, y), PixelAt(e, x, y));
    GrewKeepsConductive(PixelAt(c, nx, ny), PixelAt(e, nx, ny));
    PowerNeighborsPowers(e, x, y, dx, dy);
    var v := ScanRow(ScanRows(c, y), y, x + 1);
    assert v == PowerNeighbors(e, x, y);
    ScanAfter(c, x, y);
    GrewMeans(PixelAt(v, nx, ny), PixelAt(Update(c), nx, ny));
  }

  /** A pixel with neither SPARK_SOURCE nor POWERED does not spread. */
  predicate Quiet(p: Pixel)
  {
    p.flags & SPARK_SOURCE == 0 && p.flags & POWERED == 0
  }

  lemma {:induction false} QuietRow(c: ChunkState, y: nat, n: nat)
    requires y < CHUNK_SIZE && n <= CHUNK_SIZE
    requires forall x: nat, y: nat | InChunk(x, y) :: Quiet(PixelAt(c, x, y))
    ensures ScanRow(c, y, n) == c
    decreases n
  {
    if n > 0 {
      QuietRow(c, y, n - 1);
    }
  }

  lemma {:induction false} QuietRows(c: ChunkState, n: nat)
    requires n <= CHUNK_SIZE
    requires forall x: nat, y: nat | InChunk(x, y) :: Quiet(PixelAt(c, x, y))
    ensures ScanRows(c, n) == c
    decreases n
  {
    if n > 0 {
      QuietRows(c, n - 1);
      QuietRow(c, n - 1, CHUNK_SIZE);
    }
  }

  /** A chunk with no SPARK_SOURCE and no POWERED pixel comes out of `update` exactly as it went in, dirty state included. */
  lemma QuietChunkUnchanged(c: ChunkState)
    requires forall x: nat, y: nat | InChunk(x, y) :: Quiet(PixelAt(c, x, y))
    ensures Update(c) == c
  {
    QuietRows(c, CHUNK_SIZE);
  }

  // ---------------------------------------------------------------------
  // The pass in place

  /** `ElectricalSystem::update`: the nested scan over a chunk, writing through `set_pixel`. */
  method UpdateChunk(chunk: Chunk)
    requires chunk.Valid()
    modifies chunk, chunk.pixels
    ensures chunk.Valid() && chunk.Value() == Update(old(chunk.Value()))
  {
    ghost var c0 := chunk.Value();
    var y := 0;
    while y < CHUNK_SIZE
      invariant 0 <= y <= CHUNK_SIZE
      invariant chunk.Valid() && chunk.Value() == ScanRows(c0, y)
    {
      UpdateRow(chunk, y);
      y := y + 1;
    }
  }

  method UpdateRow(chunk: Chunk, y: nat)
    requires chunk.Valid() && y < CHUNK_SIZE
    modifies chunk, chunk.pixels
    ensures chunk.Valid() && chunk.Value() == ScanRow(old(chunk.Value()), y, CHUNK_SIZE)
  {
    ghost var c0 := chunk.Value();
    var x := 0;
    while x < CHUNK_SIZE
      invariant 0 <= x <= CHUNK_SIZE
      invariant chunk.Valid() && chunk.Value() == ScanRow(c0, y, x)
    {
      var p := chunk.GetPixel(x, y);
      if Spreads(p) {
        PowerNeighborsAt(chunk, x, y);
      }
      x := x + 1;
    }
  }

  /** `power_neighbors`. */
  method PowerNeighborsAt(chunk: Chunk, x: nat, y: nat)
    requires chunk.Valid() && InChunk(x, y)
    modifies chunk, chunk.pixels
    ensures chunk.Valid() && chunk.Value() == PowerNeighbors(old(chunk.Value()), x, y)
  {
    ghost var c0 := chunk.Value();
    var dy := -1;
    while dy <= 1
      invariant -1 <= dy <= 2
      invariant chunk.Valid() && chunk.Value() == PowerRows(c0, x, y, dy + 1)
    {
      PowerNeighborRow(chunk, x, y, dy);
      dy := dy + 1;
    }
  }

  method PowerNeighborRow(chunk: Chunk, x: nat, y: nat, dy: int)
    requires chunk.Valid() && InChunk(x, y) && -1 <= dy <= 1
    modifies chunk, chunk.pixels
    ensures chunk.Valid() && chunk.Value() == PowerRow(old(chunk.Value()), x, y, dy, 3)
  {
    ghost var c0 := chunk.Value();
    var dx := -1;
    while dx <= 1
      invariant -1 <= dx <= 2
      invariant chunk.Valid() && chunk.Value() == PowerRow(c0, x, y, dy, dx + 1)
    {
      var nx, ny := x + dx, y + dy;
      if (dx != 0 || dy != 0) && 0 <= nx < CHUNK_SIZE && 0 <= ny < CHUNK_SIZE {
        var q := chunk.GetPixel(nx, ny);
        if Chargeable(q) {
          chunk.SetPixel(nx, ny, Charged(q));
        }
      }
      dx := dx + 1;
    }
  }
}
