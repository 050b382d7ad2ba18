/**
 * Active-chunk bookkeeping: which chunks the cellular automaton must visit,
 * which chunks stay on the active list as the player moves, and the
 * pre-allocation of empty chunks over a rectangle of world pixels.
 *
 * The chunk manager is reduced to the two fields these operations touch:
 * the map of loaded chunks and the ordered list of active chunk positions.
 */
module ChunkStatus {
  import opened Wrappers
  import opened Ints
  import opened Chunks
  import opened WorldGrid

  /** The chunk at `p` is loaded and has a dirty rectangle or is simulation-active. */
  predicate Lively(chunks: ChunkMap, p: IVec2)
  {
    p in chunks && (chunks[p].dirtyRect.Some? || chunks[p].simulationActive)
  }

  /** `p` lies in the rectangle [xlo, xhi] x [ylo, yhi]. */
  predicate InRect(p: IVec2, ylo: int, yhi: int, xlo: int, xhi: int)
  {
    xlo <= p.x <= xhi && ylo <= p.y <= yhi
  }

  /** `p` is within Chebyshev distance `r` of `c`: |p.x - c.x| <= r and |p.y - c.y| <= r. */
  predicate Near(p: IVec2, c: IVec2, r: int)
  {
    InRect(p, c.y - r, c.y + r, c.x - r, c.x + r)
  }

  /** The chunk offset by (dx, dy) from `pos` is lively. */
  predicate LivelyAt(chunks: ChunkMap, pos: IVec2, dx: int, dy: int)
  {
    Lively(chunks, IVec2(pos.x + dx, pos.y + dy))
  }

  /**
   * `needs_ca_update`: the chunk itself or one of its eight neighbours is
   * loaded and dirty or simulation-active. A missing chunk with no lively
   * neighbour needs nothing.
   */
  method NeedsCAUpdate(chunks: ChunkMap, pos: IVec2) returns (b: bool)
    ensures b <==> exists dx, dy | -1 <= dx <= 1 && -1 <= dy <= 1 :: LivelyAt(chunks, pos, dx, dy)
  {
    if Lively(chunks, pos) {
      assert IVec2(pos.x + 0, pos.y + 0) == pos;
      assert LivelyAt(chunks, pos, 0, 0);
      return true;
    }
    assert !LivelyAt(chunks, pos, 0, 0) by { assert IVec2(pos.x + 0, pos.y + 0) == pos; }
    for dy := -1 to 2
      invariant forall dy', dx' | -1 <= dy' < dy && -1 <= dx' <= 1 :: !LivelyAt(chunks, pos, dx', dy')
    {
      for dx := -1 to 2
        invariant forall dy', dx' | -1 <= dy' < dy && -1 <= dx' <= 1 :: !LivelyAt(chunks, pos, dx', dy')
        invariant forall dx' | -1 <= dx' < dx :: !LivelyAt(chunks, pos, dx', dy)
      {
        if dx == 0 && dy == 0 {
          continue;
        }
        if LivelyAt(chunks, pos, dx, dy) {
          return true;
        }
      }
    }
    return false;
  }

  /** The chunk holding the player: the position truncated to an `i32`, then floored by the chunk size. */
  function PlayerChunk(px: real, py: real): (c: IVec2)
    ensures c.x * CHUNK_SIZE <= RealToI32(px) < (c.x + 1) * CHUNK_SIZE
    ensures c.y * CHUNK_SIZE <= RealToI32(py) < (c.y + 1) * CHUNK_SIZE
  {
    IVec2(RealToI32(px) / CHUNK_SIZE, RealToI32(py) / CHUNK_SIZE)
  }

  predicate Distinct(s: seq<IVec2>)
  {
    forall i, j | 0 <= i < j < |s| :: s[i] != s[j]
  }

  /** `Vec::retain` with the radius test: the active positions within `r` of `pc`, in their order. */
  function Retained(active: seq<IVec2>, pc: IVec2, r: int): seq<IVec2>
  {
    if active == [] then []
    else
      var rest := Retained(active[1..], pc, r);
      if Near(active[0], pc, r) then [active[0]] + rest else rest
  }

  /** When every active position is within the radius the retain step keeps them all, in order. */
  lemma {:induction false} RetainedAll(active: seq<IVec2>, pc: IVec2, r: int)
    requires forall i | 0 <= i < |active| :: Near(active[i], pc, r)
    ensures Retained(active, pc, r) == active
    decreases |active|
  {
    if active != [] {
      assert Near(active[0], pc, r);
      forall i | 0 <= i < |active[1..]| ensures Near(active[1..][i], pc, r) { assert active[1..][i] == active[i + 1]; }
      RetainedAll(active[1..], pc, r);
    }
  }

  /** The retain step keeps exactly the active positions within the radius. */
  lemma {:induction false} RetainedMembers(active: seq<IVec2>, pc: IVec2, r: int, kept: seq<IVec2>)
    requires kept == Retained(active, pc, r)
    ensures forall p | p in kept :: p in active && Near(p, pc, r)
    ensures forall p | p in active && Near(p, pc, r) :: p in kept
    decreases |active|
  {
    if active != [] {
      var rest := Retained(active[1..], pc, r);
      RetainedMembers(active[1..], pc, r, rest);
      assert forall p | p in active :: p == active[0] || p in active[1..];
    }
  }

  /** `RetainedMembers` for one position. */
  lemma RetainedMember(active: seq<IVec2>, pc: IVec2, r: int, kept: seq<IVec2>, p: IVec2)
    requires kept == Retained(active, pc, r)
    ensures p in kept <==> p in active && Near(p, pc, r)
  {
    RetainedMembers(active, pc, r, kept);
  }

  /** The retain step keeps positions distinct. */
  lemma {:induction false} RetainedDistinct(active: seq<IVec2>, pc: IVec2, r: int)
    requires Distinct(active)
    ensures Distinct(Retained(active, pc, r))
    decreases |active|
  {
    if active != [] {
      var rest := Retained(active[1..], pc, r);
      forall i | 0 <= i < |active[1..]| ensures active[1..][i] != active[0] { assert active[1..][i] == active[i + 1]; }
      RetainedDistinct(active[1..], pc, r);
      RetainedMembers(active[1..], pc, r, rest);
      if Near(active[0], pc, r) {
        DisjointConcat([active[0]], rest);
      }
    }
  }

  /** The positions (x, y) for `lo <= x < hi`, left to right, that are loaded and not already kept. */
  function ScanRow(chunks: ChunkMap, kept: seq<IVec2>, y: int, lo: int, hi: int): seq<IVec2>
    decreases hi - lo
  {
    if hi <= lo then []
    else
      var p := IVec2(hi - 1, y);
      ScanRow(chunks, kept, y, lo, hi - 1) + (if p in chunks && p !in kept then [p] else [])
  }

  /** Rows `ylo <= y <= yhi`, bottom to top, each scanned over `xlo <= x <= xhi`. */
  function ScanRows(chunks: ChunkMap, kept: seq<IVec2>, ylo: int, yhi: int, xlo: int, xhi: int): seq<IVec2>
    decreases yhi - ylo
  {
    if yhi < ylo then []
    else ScanRows(chunks, kept, ylo, yhi - 1, xlo, xhi) + ScanRow(chunks, kept, yhi, xlo, xhi + 1)
  }

  /** A row scan holds exactly the loaded, not kept positions of the row. */
  lemma {:induction false} ScanRowMembers(chunks: ChunkMap, kept: seq<IVec2>, y: int, lo: int, hi: int, s: seq<IVec2>)
    requires s == ScanRow(chunks, kept, y, lo, hi)
    ensures forall p :: p in s <==> p.y == y && lo <= p.x < hi && p in chunks && p !in kept
    decreases hi - lo
  {
    if hi > lo {
      var prefix := ScanRow(chunks, kept, y, lo, hi - 1);
      ScanRowMembers(chunks, kept, y, lo, hi - 1, prefix);
    }
  }

  /** A scan of rows holds exactly the loaded, not kept positions of the rectangle. */
  lemma {:induction false} ScanRowsMembers(chunks: ChunkMap, kept: seq<IVec2>, ylo: int, yhi: int, xlo: int, xhi: int,
                                          s: seq<IVec2>)
    requires s == ScanRows(chunks, kept, ylo, yhi, xlo, xhi)
    ensures forall p :: p in s <==> InRect(p, ylo, yhi, xlo, xhi) && p in chunks && p !in kept
    decreases yhi - ylo
  {
    if yhi >= ylo {
      var rows, row := ScanRows(chunks, kept, ylo, yhi - 1, xlo, xhi), ScanRow(chunks, kept, yhi, xlo, xhi + 1);
      ScanRowsMembers(chunks, kept, ylo, yhi - 1, xlo, xhi, rows);
      ScanRowMembers(chunks, kept, yhi, xlo, xhi + 1, row);
    }
  }

  /** `ScanRowsMembers` for one position. */
  lemma ScanRowsMember(chunks: ChunkMap, kept: seq<IVec2>, ylo: int, yhi: int, xlo: int, xhi: int,
                       s: seq<IVec2>, p: IVec2)
    requires s == ScanRows(chunks, kept, ylo, yhi, xlo, xhi)
    ensures p in s <==> InRect(p, ylo, yhi, xlo, xhi) && p in chunks && p !in kept
  {
    ScanRowsMembers(chunks, kept, ylo, yhi, xlo, xhi, s);
  }

  /** Each position occurs at most once in a scan. */
  lemma {:induction false} ScanRowsDistinct(chunks: ChunkMap, kept: seq<IVec2>, ylo: int, yhi: int, xlo: int, xhi: int)
    ensures Distinct(ScanRows(chunks, kept, ylo, yhi, xlo, xhi))
    decreases yhi - ylo
  {
    if yhi >= ylo {
      ScanRowsDistinct(chunks, kept, ylo, yhi - 1, xlo, xhi);
      ScanRowDistinct(chunks, kept, yhi, xlo, xhi + 1);
      var rows, row := ScanRows(chunks, kept, ylo, yhi - 1, xlo, xhi), ScanRow(chunks, kept, yhi, xlo, xhi + 1);
      ScanRowsMembers(chunks, kept, ylo, yhi - 1, xlo, xhi, rows);
      ScanRowMembers(chunks, kept, yhi, xlo, xhi + 1, row);
      DisjointConcat(rows, row);
    }
  }

  lemma {:induction false} ScanRowDistinct(chunks: ChunkMap, kept: seq<IVec2>, y: int, lo: int, hi: int)
    ensures Distinct(ScanRow(chunks, kept, y, lo, hi))
    decreases hi - lo
  {
    if hi > lo {
      ScanRowDistinct(chunks, kept, y, lo, hi - 1);
      var prefix := ScanRow(chunks, kept, y, lo, hi - 1);
      ScanRowMembers(chunks, kept, y, lo, hi - 1, prefix);
      var p := IVec2(hi - 1, y);
      DisjointConcat(prefix, if p in chunks && p !in kept then [p] else []);
    }
  }

  /** A scan over a rectangle whose every position is unloaded or kept is empty. */
  lemma {:induction false} ScanRowsEmpty(chunks: ChunkMap, kept: seq<IVec2>, ylo: int, yhi: int, xlo: int, xhi: int)
    requires forall p | InRect(p, ylo, yhi, xlo, xhi) :: p !in chunks || p in kept
    ensures ScanRows(chunks, kept, ylo, yhi, xlo, xhi) == []
    decreases yhi - ylo
  {
    if yhi >= ylo {
      ScanRowsEmpty(chunks, kept, ylo, yhi - 1, xlo, xhi);
      forall x | xlo <= x < xhi + 1 ensures IVec2(x, yhi) !in chunks || IVec2(x, yhi) in kept {
        assert InRect(IVec2(x, yhi), ylo, yhi, xlo, xhi);
      }
      ScanRowEmpty(chunks, kept, yhi, xlo, xhi + 1);
    }
  }

  lemma {:induction false} ScanRowEmpty(chunks: ChunkMap, kept: seq<IVec2>, y: int, lo: int, hi: int)
    requires forall x | lo <= x < hi :: IVec2(x, y) !in chunks || IVec2(x, y) in kept
    ensures ScanRow(chunks, kept, y, lo, hi) == []
    decreases hi - lo
  {
    if hi > lo {
      ScanRowEmpty(chunks, kept, y, lo, hi - 1);
    }
  }

  lemma DisjointConcat(a: seq<IVec2>, b: seq<IVec2>)
    requires Distinct(a) && Distinct(b) && forall p | p in a :: p !in b
    ensures Distinct(a + b)
  {
    var s := a + b;
    forall i, j | 0 <= i < j < |s|
      ensures s[i] != s[j]
    {
      if j >= |a| && i < |a| {
        assert s[i] in a && s[j] == b[j - |a|];
      } else if i >= |a| {
        assert s[i] == b[i - |a|] && s[j] == b[j - |a|];
      }
    }
  }

  /** The loaded chunks within `r` of `pc` that the retain step dropped or that were never active, in scan order. */
  function NewlyActive(chunks: ChunkMap, kept: seq<IVec2>, pc: IVec2, r: int): seq<IVec2>
  {
    ScanRows(chunks, kept, pc.y - r, pc.y + r, pc.x - r, pc.x + r)
  }

  /** Every position of `ps` that is loaded gets `simulation_active` set; nothing else changes. */
  ghost function Activated(chunks: ChunkMap, ps: seq<IVec2>): (r: ChunkMap)
    ensures r.Keys == chunks.Keys
  {
    map p | p in chunks :: if p in ps then chunks[p].(simulationActive := true) else chunks[p]
  }

  /**
   * The list after `update_active_chunks`, `kept + added`, has exactly the
   * positions within the radius that were active or are loaded.
   */
  lemma ActiveListMembers(chunks: ChunkMap, active: seq<IVec2>, pc: IVec2, r: int, kept: seq<IVec2>, added: seq<IVec2>)
    requires kept == Retained(active, pc, r) && added == NewlyActive(chunks, kept, pc, r)
    ensures forall p :: p in kept + added <==> Near(p, pc, r) && (p in active || p in chunks)
  {
    forall p ensures p in kept + added <==> Near(p, pc, r) && (p in active || p in chunks) {
      RetainedMember(active, pc, r, kept, p);
      ScanRowsMember(chunks, kept, pc.y - r, pc.y + r, pc.x - r, pc.x + r, added, p);
      assert p in kept + added <==> p in kept || p in added;
    }
  }

  /** Every appended position is a loaded chunk that was not active. */
  lemma AddedAreLoaded(chunks: ChunkMap, active: seq<IVec2>, pc: IVec2, r: int, kept: seq<IVec2>, added: seq<IVec2>)
    requires kept == Retained(active, pc, r) && added == NewlyActive(chunks, kept, pc, r)
    ensures forall p | p in added :: p in chunks && p !in active
  {
    forall p | p in added ensures p in chunks && p !in active {
      RetainedMember(active, pc, r, kept, p);
      ScanRowsMember(chunks, kept, pc.y - r, pc.y + r, pc.x - r, pc.x + r, added, p);
    }
  }

  /** No position is active twice afterwards, if none was before. */
  lemma ActiveListDistinct(chunks: ChunkMap, active: seq<IVec2>, pc: IVec2, r: int, kept: seq<IVec2>, added: seq<IVec2>)
    requires kept == Retained(active, pc, r) && added == NewlyActive(chunks, kept, pc, r)
    requires Distinct(active)
    ensures Distinct(kept + added)
  {
    RetainedDistinct(active, pc, r);
    ScanRowsDistinct(chunks, kept, pc.y - r, pc.y + r, pc.x - r, pc.x + r);
    forall p | p in kept ensures p !in added {
      ScanRowsMember(chunks, kept, pc.y - r, pc.y + r, pc.x - r, pc.x + r, added, p);
    }
    DisjointConcat(kept, added);
  }

  /**
   * A settled state: every active position is within the radius and every
   * loaded chunk within it is active.
   */
  ghost predicate Settled(chunks: ChunkMap, active: seq<IVec2>, pc: IVec2, r: int)
  {
    (forall i | 0 <= i < |active| :: Near(active[i], pc, r))
    && forall p | p in chunks && Near(p, pc, r) :: p in active
  }

  /** `update_active_chunks` always leaves a settled state. */
  lemma UpdateSettles(chunks: ChunkMap, active: seq<IVec2>, pc: IVec2, r: int, kept: seq<IVec2>, added: seq<IVec2>)
    requires kept == Retained(active, pc, r) && added == NewlyActive(chunks, kept, pc, r)
    ensures Settled(chunks, kept + added, pc, r)
  {
    ActiveListMembers(chunks, active, pc, r, kept, added);
    var s := kept + added;
    assert forall i | 0 <= i < |s| :: s[i] in s;
  }

  /** On a settled state `update_active_chunks` keeps the list, so its length, and adds nothing. */
  lemma SettledIsFixed(chunks: ChunkMap, active: seq<IVec2>, pc: IVec2, r: int)
    requires Settled(chunks, active, pc, r)
    ensures Retained(active, pc, r) == active
    ensures NewlyActive(chunks, active, pc, r) == []
  {
    RetainedAll(active, pc, r);
    assert NewlyActive(chunks, active, pc, r) == [] by {
      SettledCovers(chunks, active, pc, r);
      ScanRowsEmpty(chunks, active, pc.y - r, pc.y + r, pc.x - r, pc.x + r);
    }
  }

  lemma SettledCovers(chunks: ChunkMap, active: seq<IVec2>, pc: IVec2, r: int)
    requires Settled(chunks, active, pc, r)
    ensures forall p | InRect(p, pc.y - r, pc.y + r, pc.x - r, pc.x + r) :: p !in chunks || p in active
  {
    forall p | InRect(p, pc.y - r, pc.y + r, pc.x - r, pc.x + r) ensures p !in chunks || p in active {
      assert Near(p, pc, r);
    }
  }

  /** The cell about to be scanned is in neither the finished rows nor the finished part of its row. */
  lemma NotYetScanned(chunks0: ChunkMap, kept: seq<IVec2>, pc: IVec2, radius: int, cy: int, cx: int,
                      rows: seq<IVec2>, row: seq<IVec2>)
    requires rows == ScanRows(chunks0, kept, pc.y - radius, cy - 1, pc.x - radius, pc.x + radius)
    requires row == ScanRow(chunks0, kept, cy, pc.x - radius, cx)
    ensures IVec2(cx, cy) !in rows + row
  {
    var pos := IVec2(cx, cy);
    ScanRowsMember(chunks0, kept, pc.y - radius, cy - 1, pc.x - radius, pc.x + radius, rows, pos);
    ScanRowMembers(chunks0, kept, cy, pc.x - radius, cx, row);
    assert pos in rows + row <==> pos in rows || pos in row;
  }

  lemma ActivatedSnoc(chunks0: ChunkMap, ps: seq<IVec2>, pos: IVec2)
    requires pos in chunks0
    ensures var c := Activated(chunks0, ps);
            c[pos := c[pos].(simulationActive := true)] == Activated(chunks0, ps + [pos])
  {
    var c := Activated(chunks0, ps);
    var d := Activated(chunks0, ps + [pos]);
    assert forall p | p in d :: p in ps + [pos] <==> p in ps || p == pos;
  }

  class ChunkManager {
    var chunks: ChunkMap
    var activeChunks: seq<IVec2>

    constructor()
      ensures chunks == map[] && activeChunks == []
    {
      chunks := map[];
      activeChunks := [];
    }

    /**
     * `update_active_chunks`: drop the active positions outside the radius,
     * then scan the square around the player chunk row by row, appending
     * every loaded chunk not yet active and setting its `simulation_active`.
     * Returns how many were appended.
     */
    method UpdateActiveChunks(px: real, py: real, radius: int) returns (added: nat)
      modifies this
      ensures var pc := PlayerChunk(px, py);
              var kept := Retained(old(activeChunks), pc, radius);
              && activeChunks == kept + NewlyActive(old(chunks), kept, pc, radius)
              && added == |NewlyActive(old(chunks), kept, pc, radius)|
              && chunks == Activated(old(chunks), NewlyActive(old(chunks), kept, pc, radius))
    {
      var pc := PlayerChunk(px, py);
      ghost var chunks0 := chunks;
      var kept := Retained(activeChunks, pc, radius);
      activeChunks := kept;
      added := 0;
      ghost var scanned: seq<IVec2> := [];
      var cy := pc.y - radius;
      while cy <= pc.y + radius
        invariant pc.y - radius <= cy <= Max(pc.y - radius, pc.y + radius + 1)
        invariant scanned == ScanRows(chunks0, kept, pc.y - radius, cy - 1, pc.x - radius, pc.x + radius)
        invariant activeChunks == kept + scanned && added == |scanned|
        invariant chunks == Activated(chunks0, scanned)
      {
        var count;
        count, scanned := ActivateRow(chunks0, kept, pc, radius, cy, scanned);
        added := added + count;
        cy := cy + 1;
      }
      assert scanned == NewlyActive(chunks0, kept, pc, radius) by {
        if radius < 0 {
          assert scanned == [] == NewlyActive(chunks0, kept, pc, radius);
        }
      }
    }

    /** One row of the scan, `cx` from `pc.x - radius` to `pc.x + radius`; returns how many it appended. */
    method ActivateRow(ghost chunks0: ChunkMap, ghost kept: seq<IVec2>, pc: IVec2, radius: int,
                       cy: int, ghost rows: seq<IVec2>)
      returns (count: nat, ghost scanned: seq<IVec2>)
      requires pc.y - radius <= cy <= pc.y + radius
      requires rows == ScanRows(chunks0, kept, pc.y - radius, cy - 1, pc.x - radius, pc.x + radius)
      requires activeChunks == kept + rows
      requires chunks == Activated(chunks0, rows)
      modifies this
      ensures scanned == ScanRows(chunks0, kept, pc.y - radius, cy, pc.x - radius, pc.x + radius)
      ensures activeChunks == kept + scanned && count == |scanned| - |rows|
      ensures chunks == Activated(chunks0, scanned)
    {
      scanned := rows;
      count := 0;
      var cx := pc.x - radius;
      while cx <= pc.x + radius
        invariant pc.x - radius <= cx <= pc.x + radius + 1
        invariant scanned == rows + ScanRow(chunks0, kept, cy, pc.x - radius, cx)
        invariant activeChunks == kept + scanned && count == |scanned| - |rows|
        invariant chunks == Activated(chunks0, scanned)
      {
        var appended;
        appended, scanned := VisitCandidate(chunks0, kept, rows, pc, radius, cy, cx, scanned);
        if appended {
          count := count + 1;
        }
        cx := cx + 1;
      }
    }

    /** One cell of the scan: append it when loaded and not active, and mark it simulation-active. */
    method VisitCandidate(ghost chunks0: ChunkMap, ghost kept: seq<IVec2>, ghost rows: seq<IVec2>, ghost pc: IVec2,
                          ghost radius: int, cy: int, cx: int, ghost scanned: seq<IVec2>)
      returns (appended: bool, ghost scanned': seq<IVec2>)
      requires pc.y - radius <= cy <= pc.y + radius && pc.x - radius <= cx <= pc.x + radius
      requires rows == ScanRows(chunks0, kept, pc.y - radius, cy - 1, pc.x - radius, pc.x + radius)
      requires scanned == rows + ScanRow(chunks0, kept, cy, pc.x - radius, cx)
      requires activeChunks == kept + scanned
      requires chunks == Activated(chunks0, scanned)
      modifies this
      ensures scanned' == rows + ScanRow(chunks0, kept, cy, pc.x - radius, cx + 1)
      ensures scanned' == if appended then scanned + [IVec2(cx, cy)] else scanned
      ensures activeChunks == kept + scanned'
      ensures chunks == Activated(chunks0, scanned')
    {
      var pos := IVec2(cx, cy);
      ghost var row := ScanRow(chunks0, kept, cy, pc.x - radius, cx);
      ghost var grown := ScanRow(chunks0, kept, cy, pc.x - radius, cx + 1);
      assert grown == row + (if pos in chunks0 && pos !in kept then [pos] else []);
      NotYetScanned(chunks0, kept, pc, radius, cy, cx, rows, row);
      assert pos in activeChunks <==> pos in kept by {
        assert pos in kept + scanned <==> pos in kept || pos in scanned;
      }
      assert pos in chunks <==> pos in chunks0;
      scanned' := scanned;
      appended := false;
      if pos in chunks && pos !in activeChunks {
        appended := true;
        ActivatedSnoc(chunks0, scanned, pos);
        assert kept + scanned + [pos] == kept + (scanned + [pos]);
        assert rows + row + [pos] == rows + (row + [pos]);
        activeChunks := activeChunks + [pos];
        scanned' := scanned + [pos];
        chunks := chunks[pos := chunks[pos].(simulationActive := true)];
      }
    }

    /**
     * `ensure_chunks_for_area`: every chunk overlapping the world rectangle
     * [minX, maxX] x [minY, maxY] is loaded afterwards; the missing ones are
     * new, empty chunks and the loaded ones keep their contents.
     */
    method EnsureChunksForArea(minX: int, minY: int, maxX: int, maxY: int)
      modifies this
      ensures var lo, hi := WorldToChunkCoords(minX, minY).0, WorldToChunkCoords(maxX, maxY).0;
              && (forall p :: p in chunks <==> p in old(chunks) || (lo.x <= p.x <= hi.x && lo.y <= p.y <= hi.y))
              && (forall p | p in chunks :: chunks[p] == if p in old(chunks) then old(chunks)[p] else NewChunk(p.x, p.y))
      ensures activeChunks == old(activeChunks)
    {
      var lo := WorldToChunkCoords(minX, minY).0;
      var hi := WorldToChunkCoords(maxX, maxY).0;
      ghost var chunks0 := chunks;
      var cy := lo.y;
      while cy <= hi.y
        invariant lo.y <= cy <= Max(lo.y, hi.y + 1)
        invariant forall p :: p in chunks <==> (p in chunks0 || (lo.x <= p.x <= hi.x && lo.y <= p.y < cy))
        invariant forall p | p in chunks :: chunks[p] == if p in chunks0 then chunks0[p] else NewChunk(p.x, p.y)
        invariant activeChunks == old(activeChunks)
      {
        var cx := lo.x;
        while cx <= hi.x
          invariant lo.x <= cx <= Max(lo.x, hi.x + 1)
          invariant forall p :: p in chunks <==> (p in chunks0 || (lo.x <= p.x <= hi.x && lo.y <= p.y < cy)
                                                 || (p.y == cy && lo.x <= p.x < cx))
          invariant forall p | p in chunks :: chunks[p] == if p in chunks0 then chunks0[p] else NewChunk(p.x, p.y)
          invariant activeChunks == old(activeChunks)
        {
          var pos := IVec2(cx, cy);
          if pos !in chunks {
            chunks := chunks[pos := NewChunk(cx, cy)];
          }
          cx := cx + 1;
        }
        cy := cy + 1;
      }
    }
  }
}
