/**
 * The special-material passes of the engine crate: fuse, vine, virus and
 * clone. Each pass first collects the positions of its material in the
 * active chunks, then processes them one by one, reading and writing the
 * chunk map as it goes. The random generator is replaced by draws passed in:
 * `draw(k)` is what the generator yields for the k-th collected position.
 *
 * Every processing loop is a method proved equal to a fold (`FusePass`,
 * `VinePass`, `VirusPass`, `ClonePass`); the lemmas about each step say what
 * it writes and where.
 */
module SpecialBehaviors {
  import opened Ints
  import opened Wrappers
  import opened Chunks
  import opened CoreIds
  import M = Materials
  import NeighborQueries

  // ---------------------------------------------------------------------
  // Direction bits and neighbour positions

  const DIRECTION_BITS: bv16 := DIRECTION_BIT0 | DIRECTION_BIT1

  /** `get_direction_from_flags`: the two direction bits read as a number 0..3. */
  function DirectionOf(flags: bv16): (d: nat)
  {
    (if flags & DIRECTION_BIT0 != 0 then 1 else 0) + (if flags & DIRECTION_BIT1 != 0 then 2 else 0)
  }

  /** `set_direction_in_flags`: bit 0 of `dir` into DIRECTION_BIT0, bit 1 into DIRECTION_BIT1. */
  function WithDirection(flags: bv16, dir: U8): bv16
  {
    var cleared := flags & !DIRECTION_BITS;
    var low := if dir % 2 == 1 then cleared | DIRECTION_BIT0 else cleared;
    if (dir / 2) % 2 == 1 then low | DIRECTION_BIT1 else low
  }

  /** Writing a direction 0..3 and reading it back gives that direction. */
  lemma DirectionRoundTrip(flags: bv16, dir: U8)
    requires dir < 4
    ensures DirectionOf(WithDirection(flags, dir)) == dir
  {
  }

  /** Writing a direction changes only the two direction bits. */
  lemma WithDirectionKeepsOtherBits(flags: bv16, dir: U8)
    ensures WithDirection(flags, dir) & !DIRECTION_BITS == flags & !DIRECTION_BITS
  {
  }

  /** Rewriting the direction that a flag word already holds leaves it unchanged. */
  lemma DirectionRewrite(flags: bv16)
    ensures DirectionOf(flags) < 4 && WithDirection(flags, DirectionOf(flags)) == flags
  {
  }

  /** `direction_to_offset`: 0 up, 1 right, 2 down, 3 left; anything else stays in place. */
  function DirectionToOffset(dir: nat): (int, int)
  {
    if dir == 0 then (0, 1)
    else if dir == 1 then (1, 0)
    else if dir == 2 then (0, -1)
    else if dir == 3 then (-1, 0)
    else (0, 0)
  }

  /** The four directions are the four distinct unit steps; any other value is no step at all. */
  lemma DirectionOffsets(dir: nat)
    ensures dir < 4 ==> DirectionToOffset(dir) != (0, 0)
    ensures dir < 4 ==> DirectionToOffset(dir).0 * DirectionToOffset(dir).0 + DirectionToOffset(dir).1 * DirectionToOffset(dir).1 == 1
    ensures dir >= 4 ==> DirectionToOffset(dir) == (0, 0)
    ensures forall d2: nat | d2 < 4 && dir < 4 && d2 != dir :: DirectionToOffset(d2) != DirectionToOffset(dir)
  {
  }

  /** `get_neighbor_pos`: a coordinate below 0 moves to 63 of the previous chunk, one of 64 or more to 0 of the next. */
  function NeighborPos(cp: IVec2, x: int, y: int): (r: (IVec2, nat, nat))
    ensures r.1 < CHUNK_SIZE && r.2 < CHUNK_SIZE
  {
    var (cx, nx) := if x < 0 then (cp.x - 1, 63) else if x >= 64 then (cp.x + 1, 0) else (cp.x, x);
    var (cy, ny) := if y < 0 then (cp.y - 1, 63) else if y >= 64 then (cp.y + 1, 0) else (cp.y, y);
    (IVec2(cx, cy), nx, ny)
  }

  /**
   * For coordinates one step outside the chunk at most, the neighbour is the
   * same world pixel, in a chunk at most one step away; inside the chunk the
   * position is kept.
   */
  lemma NeighborPosSameWorld(cp: IVec2, x: int, y: int)
    requires -1 <= x <= 64 && -1 <= y <= 64
    ensures var (ncp, nx, ny) := NeighborPos(cp, x, y);
            ncp.x * 64 + nx == cp.x * 64 + x && ncp.y * 64 + ny == cp.y * 64 + y
            && -1 <= ncp.x - cp.x <= 1 && -1 <= ncp.y - cp.y <= 1
    ensures InChunk(x, y) ==> NeighborPos(cp, x, y) == (cp, x, y)
  {
  }

  /** One step from an in-chunk pixel never lands back on that pixel. */
  lemma NeighborPosMoves(cp: IVec2, x: nat, y: nat, dx: int, dy: int)
    requires InChunk(x, y) && -1 <= dx <= 1 && -1 <= dy <= 1 && (dx != 0 || dy != 0)
    ensures NeighborPos(cp, x + dx, y + dy) != (cp, x, y)
  {
    NeighborPosSameWorld(cp, x + dx, y + dy);
  }

  // ---------------------------------------------------------------------
  // Collecting positions

  /** A collected position: chunk and local coordinates. */
  datatype Spot = Spot(cp: IVec2, x: nat, y: nat)

  /** The cells x < n of row y whose pixel `sel` accepts, left to right. */
  function CollectRow(c: ChunkState, cp: IVec2, sel: Pixel -> bool, y: nat, n: nat): seq<Spot>
    requires y < CHUNK_SIZE && n <= CHUNK_SIZE
  {
    if n == 0 then []
    else CollectRow(c, cp, sel, y, n - 1) + (if sel(PixelAt(c, n - 1, y)) then [Spot(cp, n - 1, y)] else [])
  }

  /** Rows y < n of one chunk, bottom to top. */
  function CollectRows(c: ChunkState, cp: IVec2, sel: Pixel -> bool, n: nat): seq<Spot>
    requires n <= CHUNK_SIZE
  {
    if n == 0 then [] else CollectRows(c, cp, sel, n - 1) + CollectRow(c, cp, sel, n - 1, CHUNK_SIZE)
  }

  /** The collection loop of every pass: each listed chunk that is loaded, in list order. */
  function Collect(chunks: ChunkMap, active: seq<IVec2>, sel: Pixel -> bool): seq<Spot>
  {
    if active == [] then []
    else
      var cp := active[|active| - 1];
      Collect(chunks, active[..|active| - 1], sel)
        + (if cp in chunks then CollectRows(chunks[cp], cp, sel, CHUNK_SIZE) else [])
  }

  /** The position lies in the chunk and `sel` accepts its pixel. */
  predicate Picked(c: ChunkState, sel: Pixel -> bool, s: Spot)
  {
    InChunk(s.x, s.y) && sel(PixelAt(c, s.x, s.y))
  }

  lemma {:induction false} CollectRowMember(c: ChunkState, cp: IVec2, sel: Pixel -> bool, y: nat, n: nat, s: Spot)
    requires y < CHUNK_SIZE && n <= CHUNK_SIZE
    ensures s in CollectRow(c, cp, sel, y, n) <==> s.cp == cp && s.y == y && s.x < n && Picked(c, sel, s)
    decreases n
  {
    if n > 0 {
      CollectRowMember(c, cp, sel, y, n - 1, s);
    }
  }

  lemma {:induction false} CollectRowsMember(c: ChunkState, cp: IVec2, sel: Pixel -> bool, n: nat, s: Spot)
    requires n <= CHUNK_SIZE
    ensures s in CollectRows(c, cp, sel, n) ==> s.cp == cp && s.y < n && Picked(c, sel, s)
    ensures s.cp == cp && s.y < n && Picked(c, sel, s) ==> s in CollectRows(c, cp, sel, n)
    decreases n
  {
    if n > 0 {
      RowsStep(c, cp, sel, n, s);
      CollectRowsMember(c, cp, sel, n - 1, s);
      CollectRowMember(c, cp, sel, n - 1, CHUNK_SIZE, s);
      RowsMemberStep(s in CollectRows(c, cp, sel, n), s in CollectRows(c, cp, sel, n - 1),
                     s in CollectRow(c, cp, sel, n - 1, CHUNK_SIZE), s.cp == cp, s.y, n, Picked(c, sel, s), s.x < CHUNK_SIZE);
    }
  }

  /** The membership step of `CollectRowsMember`, stated over the truth values it combines. */
  lemma RowsMemberStep(inRows: bool, inPrev: bool, inRow: bool, sameChunk: bool, y: nat, n: nat, picked: bool, inWidth: bool)
    requires n > 0
    requires inRows <==> inPrev || inRow
    requires inPrev <==> sameChunk && y < n - 1 && picked
    requires inRow <==> sameChunk && y == n - 1 && inWidth && picked
    requires picked ==> inWidth
    ensures inRows <==> sameChunk && y < n && picked
  {
  }

  /** One more row adds exactly that row's positions. */
  lemma RowsStep(c: ChunkState, cp: IVec2, sel: Pixel -> bool, n: nat, s: Spot)
    requires 0 < n <= CHUNK_SIZE
    ensures s in CollectRows(c, cp, sel, n) <==> s in CollectRows(c, cp, sel, n - 1) || s in CollectRow(c, cp, sel, n - 1, CHUNK_SIZE)
  {
  }

  /** A position is collected exactly when its chunk is listed and loaded and `sel` accepts its pixel. */
  lemma {:induction false} CollectMember(chunks: ChunkMap, active: seq<IVec2>, sel: Pixel -> bool, s: Spot)
    ensures s in Collect(chunks, active, sel)
            <==> s.cp in active && s.cp in chunks && InChunk(s.x, s.y) && sel(PixelAt(chunks[s.cp], s.x, s.y))
    decreases |active|
  {
    if active != [] {
      var init := active[..|active| - 1];
      var cp := active[|active| - 1];
      CollectMember(chunks, init, sel, s);
      assert active == init + [cp];
      if cp in chunks {
        CollectRowsMember(chunks[cp], cp, sel, CHUNK_SIZE, s);
      }
    }
  }

  /** The collection loops, over the listed chunks, their rows and their cells. */
  method CollectSpots(chunks: ChunkMap, active: seq<IVec2>, sel: Pixel -> bool) returns (spots: seq<Spot>)
    ensures spots == Collect(chunks, active, sel)
  {
    spots := [];
    var i := 0;
    while i < |active|
      invariant 0 <= i <= |active|
      invariant spots == Collect(chunks, active[..i], sel)
    {
      var cp := active[i];
      assert active[..i + 1][..i] == active[..i];
      if cp in chunks {
        var found := CollectChunk(chunks[cp], cp, sel);
        spots := spots + found;
      }
      i := i + 1;
    }
    assert active[..i] == active;
  }

  method CollectChunk(c: ChunkState, cp: IVec2, sel: Pixel -> bool) returns (spots: seq<Spot>)
    ensures spots == CollectRows(c, cp, sel, CHUNK_SIZE)
  {
    spots := [];
    var y := 0;
    while y < CHUNK_SIZE
      invariant 0 <= y <= CHUNK_SIZE
      invariant spots == CollectRows(c, cp, sel, y)
    {
      var x := 0;
      ghost var before := spots;
      while x < CHUNK_SIZE
        invariant 0 <= x <= CHUNK_SIZE
        invariant spots == before + CollectRow(c, cp, sel, y, x)
      {
        if sel(PixelAt(c, x, y)) {
          spots := spots + [Spot(cp, x, y)];
        }
        x := x + 1;
      }
      y := y + 1;
    }
  }

  // ---------------------------------------------------------------------
  // Writing one cell of the map

  /** `set_pixel` on the chunk at `cp`, then `dirty = true`; nothing happens when the chunk is not loaded. */
  function Put(chunks: ChunkMap, cp: IVec2, x: nat, y: nat, p: Pixel): (r: ChunkMap)
    requires InChunk(x, y)
    ensures r.Keys == chunks.Keys
  {
    if cp in chunks then chunks[cp := WithPixel(chunks[cp], x, y, p)] else chunks
  }

  /** The pixel at a position of the map, when its chunk is loaded. */
  function At(chunks: ChunkMap, cp: IVec2, x: nat, y: nat): Option<Pixel>
    requires InChunk(x, y)
  {
    if cp in chunks then Some(PixelAt(chunks[cp], x, y)) else None
  }

  /** After `Put`, the written position holds the pixel and every other position is unchanged. */
  lemma PutEffect(chunks: ChunkMap, cp: IVec2, x: nat, y: nat, p: Pixel, cq: IVec2, qx: nat, qy: nat)
    requires InChunk(x, y) && InChunk(qx, qy)
    ensures At(Put(chunks, cp, x, y, p), cq, qx, qy)
            == if cp in chunks && (cq, qx, qy) == (cp, x, y) then Some(p) else At(chunks, cq, qx, qy)
  {
    if cp in chunks {
      SetThenGet(chunks[cp], x, y, p);
    }
  }

  // ---------------------------------------------------------------------
  // Fuse

  predicate BurningFuse(p: Pixel)
  {
    p.material == FUSE && p.flags & BURNING != 0
  }

  /** Whether the fuse sets (ncp, nx, ny) alight: a loaded FUSE or flammable pixel. */
  predicate CatchesFire(chunks: ChunkMap, mats: seq<M.MaterialDef>, ncp: IVec2, nx: nat, ny: nat)
    requires |mats| > 0 && InChunk(nx, ny)
  {
    ncp in chunks
    && (PixelAt(chunks[ncp], nx, ny).material == FUSE || M.Lookup(mats, PixelAt(chunks[ncp], nx, ny).material).flammable)
  }

  /**
   * One burning fuse: unless the roll fails, the fuse becomes ASH and the
   * next cell in its direction, when it catches fire, gains BURNING and the
   * fuse's direction.
   */
  function FuseStep(chunks: ChunkMap, mats: seq<M.MaterialDef>, s: Spot, dir: nat, advance: bool): ChunkMap
    requires |mats| > 0 && InChunk(s.x, s.y) && dir < 4
  {
    if !advance then chunks
    else
      var t := FuseNext(s, dir);
      var burnt := Put(chunks, s.cp, s.x, s.y, NewPixel(ASH));
      if CatchesFire(chunks, mats, t.0, t.1, t.2) then Light(burnt, t, dir) else burnt
  }

  /** The cell a fuse burns towards. */
  function FuseNext(s: Spot, dir: nat): (r: (IVec2, nat, nat))
    ensures r.1 < CHUNK_SIZE && r.2 < CHUNK_SIZE
  {
    var o := DirectionToOffset(dir);
    NeighborPos(s.cp, s.x + o.0, s.y + o.1)
  }

  /** A pixel set alight by a fuse travelling in direction `dir`. */
  function Lit(p: Pixel, dir: nat): Pixel
    requires dir < 4
  {
    p.(flags := WithDirection(p.flags | BURNING, dir))
  }

  /** The next cell gains BURNING and carries the direction on. */
  function Light(chunks: ChunkMap, t: (IVec2, nat, nat), dir: nat): ChunkMap
    requires InChunk(t.1, t.2) && dir < 4
  {
    if t.0 in chunks then
      var np := PixelAt(chunks[t.0], t.1, t.2);
      Put(chunks, t.0, t.1, t.2, Lit(np, dir))
    else chunks
  }

  /** The burning fuses with the direction each held when collected. */
  function FuseCandidates(chunks: ChunkMap, active: seq<IVec2>): (r: seq<(Spot, nat)>)
    ensures |r| == |Collect(chunks, active, BurningFuse)|
  {
    var spots := Collect(chunks, active, BurningFuse);
    seq(|spots|, k requires 0 <= k < |spots| => (spots[k], DirectionAt(chunks, spots[k])))
  }

  function DirectionAt(chunks: ChunkMap, s: Spot): (d: nat)
    ensures d < 4
  {
    if s.cp in chunks && InChunk(s.x, s.y) then DirectionOf(PixelAt(chunks[s.cp], s.x, s.y).flags) else 0
  }

  /** The processing loop over the first n candidates. */
  function FuseFold(chunks: ChunkMap, mats: seq<M.MaterialDef>, cands: seq<(Spot, nat)>, roll: nat -> bool, n: nat): ChunkMap
    requires |mats| > 0 && n <= |cands|
    requires forall k | 0 <= k < |cands| :: InChunk(cands[k].0.x, cands[k].0.y) && cands[k].1 < 4
  {
    if n == 0 then chunks
    else FuseStep(FuseFold(chunks, mats, cands, roll, n - 1), mats, cands[n - 1].0, cands[n - 1].1, roll(n - 1))
  }

  lemma FuseCandidatesInChunk(chunks: ChunkMap, active: seq<IVec2>)
    ensures forall k | 0 <= k < |FuseCandidates(chunks, active)| ::
              InChunk(FuseCandidates(chunks, active)[k].0.x, FuseCandidates(chunks, active)[k].0.y)
              && FuseCandidates(chunks, active)[k].1 < 4
  {
    var spots := Collect(chunks, active, BurningFuse);
    forall k | 0 <= k < |spots| ensures InChunk(spots[k].x, spots[k].y) {
      CollectMember(chunks, active, BurningFuse, spots[k]);
    }
  }

  /** `update_fuse_behavior`. */
  function FusePass(chunks: ChunkMap, active: seq<IVec2>, mats: seq<M.MaterialDef>, roll: nat -> bool): ChunkMap
    requires |mats| > 0
  {
    var cands := FuseCandidates(chunks, active);
    FuseCandidatesInChunk(chunks, active);
    FuseFold(chunks, mats, cands, roll, |cands|)
  }

  /**
   * A processed fuse turns into plain ASH. The next cell changes only when it
   * caught fire, and then it keeps its material, gains BURNING and carries the
   * fuse's direction; nothing else changes.
   */
  lemma FuseStepEffect(chunks: ChunkMap, mats: seq<M.MaterialDef>, s: Spot, dir: nat, t: (IVec2, nat, nat))
    requires |mats| > 0 && InChunk(s.x, s.y) && dir < 4 && s.cp in chunks
    requires t == FuseNext(s, dir)
    ensures var r := FuseStep(chunks, mats, s, dir, true);
            r.Keys == chunks.Keys
            && At(r, s.cp, s.x, s.y) == Some(NewPixel(ASH))
  {
    var o := DirectionToOffset(dir);
    NeighborPosMoves(s.cp, s.x, s.y, o.0, o.1);
    var burnt := Put(chunks, s.cp, s.x, s.y, NewPixel(ASH));
    PutEffect(chunks, s.cp, s.x, s.y, NewPixel(ASH), s.cp, s.x, s.y);
    if CatchesFire(chunks, mats, t.0, t.1, t.2) {
      LightEffect(burnt, t, dir, (s.cp, s.x, s.y));
    }
  }

  /** The cell the fuse lights keeps its material, gains BURNING and holds the fuse's direction. */
  lemma FuseStepLights(chunks: ChunkMap, mats: seq<M.MaterialDef>, s: Spot, dir: nat, t: (IVec2, nat, nat))
    requires |mats| > 0 && InChunk(s.x, s.y) && dir < 4
    requires t == FuseNext(s, dir) && CatchesFire(chunks, mats, t.0, t.1, t.2)
    ensures var r := FuseStep(chunks, mats, s, dir, true);
            At(r, t.0, t.1, t.2).Some?
            && At(r, t.0, t.1, t.2).value.material == PixelAt(chunks[t.0], t.1, t.2).material
            && At(r, t.0, t.1, t.2).value.flags & BURNING != 0
            && DirectionOf(At(r, t.0, t.1, t.2).value.flags) == dir
  {
    var o := DirectionToOffset(dir);
    NeighborPosMoves(s.cp, s.x, s.y, o.0, o.1);
    var burnt := Put(chunks, s.cp, s.x, s.y, NewPixel(ASH));
    PutEffect(chunks, s.cp, s.x, s.y, NewPixel(ASH), t.0, t.1, t.2);
    LightEffect(burnt, t, dir, t);
    LitPixel(PixelAt(burnt[t.0], t.1, t.2), dir);
  }

  /** Every cell other than the fuse and the cell it lights keeps its pixel. */
  lemma FuseStepElsewhere(chunks: ChunkMap, mats: seq<M.MaterialDef>, s: Spot, dir: nat, t: (IVec2, nat, nat),
                          q: (IVec2, nat, nat))
    requires |mats| > 0 && InChunk(s.x, s.y) && dir < 4 && InChunk(q.1, q.2)
    requires t == FuseNext(s, dir)
    requires q != (s.cp, s.x, s.y) && (!CatchesFire(chunks, mats, t.0, t.1, t.2) || q != t)
    ensures At(FuseStep(chunks, mats, s, dir, true), q.0, q.1, q.2) == At(chunks, q.0, q.1, q.2)
  {
    var burnt := Put(chunks, s.cp, s.x, s.y, NewPixel(ASH));
    PutEffect(chunks, s.cp, s.x, s.y, NewPixel(ASH), q.0, q.1, q.2);
    if CatchesFire(chunks, mats, t.0, t.1, t.2) {
      LightEffect(burnt, t, dir, q);
    }
  }

  /** Lighting changes the one target cell, when loaded, and no other. */
  lemma LightEffect(chunks: ChunkMap, t: (IVec2, nat, nat), dir: nat, q: (IVec2, nat, nat))
    requires InChunk(t.1, t.2) && dir < 4 && InChunk(q.1, q.2)
    ensures At(Light(chunks, t, dir), q.0, q.1, q.2)
            == if t.0 in chunks && q == t
               then Some(Lit(PixelAt(chunks[t.0], t.1, t.2), dir))
               else At(chunks, q.0, q.1, q.2)
  {
    if t.0 in chunks {
      var np := PixelAt(chunks[t.0], t.1, t.2);
      PutEffect(chunks, t.0, t.1, t.2, Lit(np, dir), q.0, q.1, q.2);
    }
  }

  /** A lit pixel keeps its material, is BURNING and holds the direction. */
  lemma LitPixel(p: Pixel, dir: nat)
    requires dir < 4
    ensures Lit(p, dir).material == p.material
    ensures Lit(p, dir).flags & BURNING != 0
    ensures DirectionOf(Lit(p, dir).flags) == dir
  {
    DirectionRoundTrip(p.flags | BURNING, dir);
    WithDirectionKeepsOtherBits(p.flags | BURNING, dir);
  }

  /** A dormant tip keeps its material and every bit but BEHAVIOR_ACTIVE, which is clear. */
  lemma DormantPixel(p: Pixel)
    ensures Dormant(p).material == p.material
    ensures Dormant(p).flags & BEHAVIOR_ACTIVE == 0
    ensures Dormant(p).flags | BEHAVIOR_ACTIVE == p.flags | BEHAVIOR_ACTIVE
  {
  }

  /** A marked pixel keeps its material and every bit, and has INFECTED set. */
  lemma MarkedPixel(p: Pixel)
    ensures Marked(p).material == p.material
    ensures Infected(Marked(p))
    ensures Marked(p).flags & !INFECTED == p.flags & !INFECTED
  {
  }

  /** A failed roll leaves the fuse, and everything else, as it is. */
  lemma FuseStepIdle(chunks: ChunkMap, mats: seq<M.MaterialDef>, s: Spot, dir: nat)
    requires |mats| > 0 && InChunk(s.x, s.y) && dir < 4
    ensures FuseStep(chunks, mats, s, dir, false) == chunks
  {
  }

  /** The processing loop of `update_fuse_behavior`. */
  method ProcessFuses(chunks: ChunkMap, mats: seq<M.MaterialDef>, cands: seq<(Spot, nat)>, roll: nat -> bool)
    returns (r: ChunkMap)
    requires |mats| > 0
    requires forall k | 0 <= k < |cands| :: InChunk(cands[k].0.x, cands[k].0.y) && cands[k].1 < 4
    ensures r == FuseFold(chunks, mats, cands, roll, |cands|)
  {
    r := chunks;
    var k := 0;
    while k < |cands|
      invariant 0 <= k <= |cands|
      invariant r == FuseFold(chunks, mats, cands, roll, k)
    {
      var s, dir := cands[k].0, cands[k].1;
      if roll(k) {
        var t := FuseNext(s, dir);
        var ignite := CatchesFire(r, mats, t.0, t.1, t.2);
        r := Put(r, s.cp, s.x, s.y, NewPixel(ASH));
        if ignite {
          r := Light(r, t, dir);
        }
      }
      k := k + 1;
    }
  }

  // ---------------------------------------------------------------------
  // Vine

  predicate VineTip(p: Pixel)
  {
    p.material == VINE && p.flags & BEHAVIOR_ACTIVE != 0
  }

  /** The growth directions, up weighted twice. */
  const VINE_DIRECTIONS: seq<(int, int)> := [(-1, 0), (1, 0), (0, 1), (0, 1), (-1, 1), (1, 1), (0, -1)]

  type VineDirIndex = i: nat | i < 7

  /** The draws for one vine tip: the growth roll, the direction index, and the deactivation roll. */
  datatype VineDraw = VineDraw(grow: bool, dir: VineDirIndex, deactivate: bool)

  /** A fresh vine tip. */
  const NewTip: Pixel := Pixel(VINE, BEHAVIOR_ACTIVE)

  /**
   * One vine tip: when the roll succeeds and the cell in the drawn direction
   * is loaded AIR, it becomes a new tip, and on the second roll the old tip
   * loses BEHAVIOR_ACTIVE.
   */
  function VineStep(chunks: ChunkMap, s: Spot, d: VineDraw): ChunkMap
    requires InChunk(s.x, s.y)
  {
    if !d.grow then chunks
    else
      var t := VineNext(s, d.dir);
      if CanGrow(chunks, t) then
        var grown := Put(chunks, t.0, t.1, t.2, NewTip);
        if d.deactivate then Deactivate(grown, s) else grown
      else chunks
  }

  /** The cell a tip grows towards. */
  function VineNext(s: Spot, i: VineDirIndex): (r: (IVec2, nat, nat))
    ensures r.1 < CHUNK_SIZE && r.2 < CHUNK_SIZE
  {
    NeighborPos(s.cp, s.x + VINE_DIRECTIONS[i].0, s.y + VINE_DIRECTIONS[i].1)
  }

  /** Growth needs a loaded AIR cell. */
  predicate CanGrow(chunks: ChunkMap, t: (IVec2, nat, nat))
    requires InChunk(t.1, t.2)
  {
    t.0 in chunks && PixelAt(chunks[t.0], t.1, t.2).material == M.AIR
  }

  /** A tip that stopped growing. */
  function Dormant(p: Pixel): Pixel
  {
    p.(flags := p.flags & !BEHAVIOR_ACTIVE)
  }

  /** The old tip, when its chunk is loaded, loses BEHAVIOR_ACTIVE. */
  function Deactivate(chunks: ChunkMap, s: Spot): ChunkMap
    requires InChunk(s.x, s.y)
  {
    if s.cp in chunks then
      var p := PixelAt(chunks[s.cp], s.x, s.y);
      Put(chunks, s.cp, s.x, s.y, Dormant(p))
    else chunks
  }

  lemma DeactivateEffect(chunks: ChunkMap, s: Spot, q: (IVec2, nat, nat))
    requires InChunk(s.x, s.y) && InChunk(q.1, q.2)
    ensures At(Deactivate(chunks, s), q.0, q.1, q.2)
            == if s.cp in chunks && q == (s.cp, s.x, s.y)
               then Some(Dormant(PixelAt(chunks[s.cp], s.x, s.y)))
               else At(chunks, q.0, q.1, q.2)
  {
    if s.cp in chunks {
      var p := PixelAt(chunks[s.cp], s.x, s.y);
      PutEffect(chunks, s.cp, s.x, s.y, Dormant(p), q.0, q.1, q.2);
    }
  }

  function VineFold(chunks: ChunkMap, spots: seq<Spot>, draw: nat -> VineDraw, n: nat): ChunkMap
    requires n <= |spots| && forall k | 0 <= k < |spots| :: InChunk(spots[k].x, spots[k].y)
  {
    if n == 0 then chunks else VineStep(VineFold(chunks, spots, draw, n - 1), spots[n - 1], draw(n - 1))
  }

  lemma CollectInChunk(chunks: ChunkMap, active: seq<IVec2>, sel: Pixel -> bool)
    ensures forall k | 0 <= k < |Collect(chunks, active, sel)| ::
              InChunk(Collect(chunks, active, sel)[k].x, Collect(chunks, active, sel)[k].y)
  {
    var spots := Collect(chunks, active, sel);
    forall k | 0 <= k < |spots| ensures InChunk(spots[k].x, spots[k].y) {
      CollectMember(chunks, active, sel, spots[k]);
    }
  }

  /** `update_vine_behavior`. */
  function VinePass(chunks: ChunkMap, active: seq<IVec2>, draw: nat -> VineDraw): ChunkMap
  {
    var spots := Collect(chunks, active, VineTip);
    CollectInChunk(chunks, active, VineTip);
    VineFold(chunks, spots, draw, |spots|)
  }

  /** A tip grows into the loaded AIR cell it drew, which becomes a fresh tip. */
  lemma VineStepGrows(chunks: ChunkMap, s: Spot, d: VineDraw, t: (IVec2, nat, nat))
    requires InChunk(s.x, s.y) && d.grow && t == VineNext(s, d.dir) && CanGrow(chunks, t)
    ensures At(VineStep(chunks, s, d), t.0, t.1, t.2) == Some(NewTip)
  {
    NeighborPosMoves(s.cp, s.x, s.y, VINE_DIRECTIONS[d.dir].0, VINE_DIRECTIONS[d.dir].1);
    var grown := Put(chunks, t.0, t.1, t.2, NewTip);
    PutEffect(chunks, t.0, t.1, t.2, NewTip, t.0, t.1, t.2);
    DeactivateEffect(grown, s, t);
  }

  /**
   * A vine step changes at most two cells: the cell it grows into, which was
   * loaded AIR and is now a fresh tip, and the old tip, which keeps its
   * material and only loses BEHAVIOR_ACTIVE.
   */
  lemma VineStepEffect(chunks: ChunkMap, s: Spot, d: VineDraw, t: (IVec2, nat, nat), q: (IVec2, nat, nat))
    requires InChunk(s.x, s.y) && InChunk(q.1, q.2) && t == VineNext(s, d.dir)
    ensures var r := VineStep(chunks, s, d);
            r.Keys == chunks.Keys
            && (At(r, q.0, q.1, q.2) != At(chunks, q.0, q.1, q.2) ==>
                  d.grow && CanGrow(chunks, t)
                  && ((q == t && At(r, q.0, q.1, q.2) == Some(NewTip))
                      || (q == (s.cp, s.x, s.y) && d.deactivate && At(chunks, q.0, q.1, q.2).Some?
                          && At(r, q.0, q.1, q.2) == Some(Dormant(At(chunks, q.0, q.1, q.2).value)))))
  {
    if d.grow && CanGrow(chunks, t) {
      NeighborPosMoves(s.cp, s.x, s.y, VINE_DIRECTIONS[d.dir].0, VINE_DIRECTIONS[d.dir].1);
      var grown := Put(chunks, t.0, t.1, t.2, NewTip);
      PutEffect(chunks, t.0, t.1, t.2, NewTip, q.0, q.1, q.2);
      PutEffect(chunks, t.0, t.1, t.2, NewTip, s.cp, s.x, s.y);
      if d.deactivate {
        DeactivateEffect(grown, s, q);
      }
    }
  }

  method ProcessVines(chunks: ChunkMap, spots: seq<Spot>, draw: nat -> VineDraw) returns (r: ChunkMap)
    requires forall k | 0 <= k < |spots| :: InChunk(spots[k].x, spots[k].y)
    ensures r == VineFold(chunks, spots, draw, |spots|)
  {
    r := chunks;
    var k := 0;
    while k < |spots|
      invariant 0 <= k <= |spots|
      invariant r == VineFold(chunks, spots, draw, k)
    {
      var s, d := spots[k], draw(k);
      if d.grow {
        var t := VineNext(s, d.dir);
        if CanGrow(r, t) {
          r := Put(r, t.0, t.1, t.2, NewTip);
          if d.deactivate {
            r := Deactivate(r, s);
          }
        }
      }
      k := k + 1;
    }
  }

  // ---------------------------------------------------------------------
  // Virus

  predicate IsVirus(p: Pixel) { p.material == VIRUS }

  /** A pixel the virus can infect: not AIR, BEDROCK or VIRUS, and not an electrical conductor. */
  predicate Infectable(mats: seq<M.MaterialDef>, p: Pixel)
    requires |mats| > 0
  {
    p.material != M.AIR && p.material != M.BEDROCK && p.material != VIRUS
    && !M.Lookup(mats, p.material).conductsElectricity
  }

  /** A neighbour offset component, as drawn from -1..=1. */
  type Unit = i: int | -1 <= i <= 1

  /** The draws for one virus: the spread roll and the neighbour offset. */
  datatype VirusDraw = VirusDraw(spread: bool, dx: Unit, dy: Unit)

  /** One virus: on a successful roll, a loaded infectable neighbour gains INFECTED (its material is kept for now). */
  function VirusStep(chunks: ChunkMap, mats: seq<M.MaterialDef>, s: Spot, d: VirusDraw): ChunkMap
    requires |mats| > 0 && InChunk(s.x, s.y)
  {
    if !d.spread || (d.dx == 0 && d.dy == 0) then chunks
    else
      var t := VirusNext(s, d);
      if CanInfect(chunks, mats, t) then Infect(chunks, t) else chunks
  }

  /** The neighbour a virus drew. */
  function VirusNext(s: Spot, d: VirusDraw): (r: (IVec2, nat, nat))
    ensures r.1 < CHUNK_SIZE && r.2 < CHUNK_SIZE
  {
    NeighborPos(s.cp, s.x + d.dx, s.y + d.dy)
  }

  predicate CanInfect(chunks: ChunkMap, mats: seq<M.MaterialDef>, t: (IVec2, nat, nat))
    requires |mats| > 0 && InChunk(t.1, t.2)
  {
    t.0 in chunks && Infectable(mats, PixelAt(chunks[t.0], t.1, t.2))
  }

  /** A pixel marked for infection. */
  function Marked(p: Pixel): Pixel
  {
    p.(flags := p.flags | INFECTED)
  }

  /** Mark the cell INFECTED, when its chunk is loaded. */
  function Infect(chunks: ChunkMap, t: (IVec2, nat, nat)): ChunkMap
    requires InChunk(t.1, t.2)
  {
    if t.0 in chunks then
      var np := PixelAt(chunks[t.0], t.1, t.2);
      Put(chunks, t.0, t.1, t.2, Marked(np))
    else chunks
  }

  function VirusFold(chunks: ChunkMap, mats: seq<M.MaterialDef>, spots: seq<Spot>, draw: nat -> VirusDraw, n: nat): ChunkMap
    requires |mats| > 0 && n <= |spots| && forall k | 0 <= k < |spots| :: InChunk(spots[k].x, spots[k].y)
  {
    if n == 0 then chunks else VirusStep(VirusFold(chunks, mats, spots, draw, n - 1), mats, spots[n - 1], draw(n - 1))
  }

  predicate Infected(p: Pixel) { p.flags & INFECTED != 0 }

  /** Cells x < n of row y of the transformation: every INFECTED pixel becomes a fresh VIRUS pixel. */
  function TransformRow(c: ChunkState, y: nat, n: nat): ChunkState
    requires y < CHUNK_SIZE && n <= CHUNK_SIZE
  {
    if n == 0 then c
    else
      var b := TransformRow(c, y, n - 1);
      if Infected(PixelAt(b, n - 1, y)) then WithPixel(b, n - 1, y, NewPixel(VIRUS)) else b
  }

  function TransformRows(c: ChunkState, n: nat): ChunkState
    requires n <= CHUNK_SIZE
  {
    if n == 0 then c else TransformRow(TransformRows(c, n - 1), n - 1, CHUNK_SIZE)
  }

  /** What the transformation does to one pixel. */
  function Transformed(p: Pixel): Pixel
  {
    if Infected(p) then NewPixel(VIRUS) else p
  }

  lemma {:induction false} TransformRowCells(c: ChunkState, y: nat, n: nat)
    requires y < CHUNK_SIZE && n <= CHUNK_SIZE
    ensures forall x: nat, y2: nat | InChunk(x, y2) ::
              PixelAt(TransformRow(c, y, n), x, y2) == if y2 == y && x < n then Transformed(PixelAt(c, x, y2)) else PixelAt(c, x, y2)
    ensures TransformRow(c, y, n).x == c.x && TransformRow(c, y, n).y == c.y
    decreases n
  {
    if n > 0 {
      TransformRowCells(c, y, n - 1);
      var b := TransformRow(c, y, n - 1);
      if Infected(PixelAt(b, n - 1, y)) {
        SetThenGet(b, n - 1, y, NewPixel(VIRUS));
      }
    }
  }

  lemma {:induction false} TransformRowsCells(c: ChunkState, n: nat)
    requires n <= CHUNK_SIZE
    ensures forall x: nat, y: nat | InChunk(x, y) ::
              PixelAt(TransformRows(c, n), x, y) == if y < n then Transformed(PixelAt(c, x, y)) else PixelAt(c, x, y)
    ensures TransformRows(c, n).x == c.x && TransformRows(c, n).y == c.y
    decreases n
  {
    if n > 0 {
      TransformRowsCells(c, n - 1);
      TransformRowCells(TransformRows(c, n - 1), n - 1, CHUNK_SIZE);
    }
  }

  /** The transformation loop over the listed chunks that are loaded. */
  function TransformAll(chunks: ChunkMap, active: seq<IVec2>): (r: ChunkMap)
    ensures r.Keys == chunks.Keys
  {
    if active == [] then chunks
    else
      var b := TransformAll(chunks, active[..|active| - 1]);
      var cp := active[|active| - 1];
      if cp in b then b[cp := TransformRows(b[cp], CHUNK_SIZE)] else b
  }

  /**
   * After the transformation, every pixel of a listed, loaded chunk is its
   * transformed self (so none keeps INFECTED), and every other chunk is
   * untouched. A chunk listed twice is transformed twice to the same effect.
   */
  lemma {:induction false} TransformAllCells(chunks: ChunkMap, active: seq<IVec2>, cp: IVec2, x: nat, y: nat)
    requires cp in chunks && InChunk(x, y)
    ensures PixelAt(TransformAll(chunks, active)[cp], x, y)
            == if cp in active then Transformed(PixelAt(chunks[cp], x, y)) else PixelAt(chunks[cp], x, y)
    ensures cp !in active ==> TransformAll(chunks, active)[cp] == chunks[cp]
    decreases |active|
  {
    if active != [] {
      var init := active[..|active| - 1];
      var last := active[|active| - 1];
      TransformAllCells(chunks, init, cp, x, y);
      assert active == init + [last];
      var b := TransformAll(chunks, init);
      if last == cp {
        TransformRowsCells(b[cp], CHUNK_SIZE);
      }
    }
  }

  /** No pixel of a listed, loaded chunk is left INFECTED. */
  lemma NoInfectionLeft(chunks: ChunkMap, active: seq<IVec2>, cp: IVec2, x: nat, y: nat)
    requires cp in chunks && cp in active && InChunk(x, y)
    ensures !Infected(PixelAt(TransformAll(chunks, active)[cp], x, y))
    ensures Infected(PixelAt(chunks[cp], x, y)) ==> PixelAt(TransformAll(chunks, active)[cp], x, y) == NewPixel(VIRUS)
  {
    TransformAllCells(chunks, active, cp, x, y);
  }

  /** `update_virus_behavior`: marking, then the transformation. */
  function VirusPass(chunks: ChunkMap, active: seq<IVec2>, mats: seq<M.MaterialDef>, draw: nat -> VirusDraw): ChunkMap
    requires |mats| > 0
  {
    var spots := Collect(chunks, active, IsVirus);
    CollectInChunk(chunks, active, IsVirus);
    TransformAll(VirusFold(chunks, mats, spots, draw, |spots|), active)
  }

  /** A virus step marks at most one loaded, infectable neighbour with INFECTED and keeps its material. */
  lemma VirusStepEffect(chunks: ChunkMap, mats: seq<M.MaterialDef>, s: Spot, d: VirusDraw, q: (IVec2, nat, nat))
    requires |mats| > 0 && InChunk(s.x, s.y) && InChunk(q.1, q.2)
    ensures var r := VirusStep(chunks, mats, s, d);
            r.Keys == chunks.Keys
            && (At(r, q.0, q.1, q.2) != At(chunks, q.0, q.1, q.2) ==>
                  d.spread && q == VirusNext(s, d)
                  && Infectable(mats, At(chunks, q.0, q.1, q.2).value)
                  && At(r, q.0, q.1, q.2) == Some(Marked(At(chunks, q.0, q.1, q.2).value)))
  {
    if d.spread && (d.dx != 0 || d.dy != 0) {
      var t := VirusNext(s, d);
      if CanInfect(chunks, mats, t) {
        var np := PixelAt(chunks[t.0], t.1, t.2);
        PutEffect(chunks, t.0, t.1, t.2, Marked(np), q.0, q.1, q.2);
      }
    }
  }

  method ProcessViruses(chunks: ChunkMap, mats: seq<M.MaterialDef>, spots: seq<Spot>, draw: nat -> VirusDraw)
    returns (r: ChunkMap)
    requires |mats| > 0 && forall k | 0 <= k < |spots| :: InChunk(spots[k].x, spots[k].y)
    ensures r == VirusFold(chunks, mats, spots, draw, |spots|)
  {
    r := chunks;
    var k := 0;
    while k < |spots|
      invariant 0 <= k <= |spots|
      invariant r == VirusFold(chunks, mats, spots, draw, k)
    {
      var s, d := spots[k], draw(k);
      if d.spread && (d.dx != 0 || d.dy != 0) {
        var t := VirusNext(s, d);
        if CanInfect(r, mats, t) {
          r := Infect(r, t);
        }
      }
      k := k + 1;
    }
  }

  /** The transformation loop, chunk by chunk, each in place. */
  method TransformChunks(chunks: ChunkMap, active: seq<IVec2>) returns (r: ChunkMap)
    ensures r == TransformAll(chunks, active)
  {
    r := chunks;
    var i := 0;
    while i < |active|
      invariant 0 <= i <= |active|
      invariant r == TransformAll(chunks, active[..i])
    {
      assert active[..i + 1][..i] == active[..i];
      var cp := active[i];
      if cp in r {
        var c := TransformChunk(r[cp]);
        r := r[cp := c];
      }
      i := i + 1;
    }
    assert active[..i] == active;
  }

  method TransformChunk(c0: ChunkState) returns (c: ChunkState)
    ensures c == TransformRows(c0, CHUNK_SIZE)
  {
    c := c0;
    var y := 0;
    while y < CHUNK_SIZE
      invariant 0 <= y <= CHUNK_SIZE
      invariant c == TransformRows(c0, y)
    {
      ghost var before := c;
      var x := 0;
      while x < CHUNK_SIZE
        invariant 0 <= x <= CHUNK_SIZE
        invariant c == TransformRow(before, y, x)
      {
        if Infected(PixelAt(c, x, y)) {
          c := WithPixel(c, x, y, NewPixel(VIRUS));
        }
        x := x + 1;
      }
      y := y + 1;
    }
  }

  // ---------------------------------------------------------------------
  // Clone

  predicate IsClone(p: Pixel) { p.material == CLONE }

  /** A material the clone copies: anything but AIR, CLONE and VIRUS. */
  predicate Copyable(m: U16) { m != M.AIR && m != CLONE && m != VIRUS }

  /** The neighbour of `s` at offset k of the eight, in the order of the nested loops. */
  function NeighbourAt(s: Spot, k: nat): (IVec2, nat, nat)
    requires k < 8
  {
    NeighborPos(s.cp, s.x + NeighborQueries.EIGHT[k].0, s.y + NeighborQueries.EIGHT[k].1)
  }

  /** The first neighbour from offset k on, whose chunk is loaded, with a copyable material. */
  function SourceFrom(chunks: ChunkMap, s: Spot, k: nat): (r: Option<U16>)
    requires k <= 8
    ensures r.Some? ==> Copyable(r.value)
    decreases 8 - k
  {
    if k == 8 then None
    else
      var t := NeighbourAt(s, k);
      if t.0 in chunks && Copyable(PixelAt(chunks[t.0], t.1, t.2).material) then Some(PixelAt(chunks[t.0], t.1, t.2).material)
      else SourceFrom(chunks, s, k + 1)
  }

  /** The first neighbour from offset k on, whose chunk is loaded, that holds AIR. */
  function TargetFrom(chunks: ChunkMap, s: Spot, k: nat): (r: Option<(IVec2, nat, nat)>)
    requires k <= 8
    ensures r.Some? ==> r.value.0 in chunks && r.value.1 < 64 && r.value.2 < 64
                        && PixelAt(chunks[r.value.0], r.value.1, r.value.2).material == M.AIR
    decreases 8 - k
  {
    if k == 8 then None
    else
      var t := NeighbourAt(s, k);
      if t.0 in chunks && PixelAt(chunks[t.0], t.1, t.2).material == M.AIR then Some(t)
      else TargetFrom(chunks, s, k + 1)
  }

  /**
   * One clone on a successful roll: the first copyable neighbour's material
   * is copied into the first AIR neighbour. `emitted` says whether a copy was
   * made.
   */
  function CloneStep(chunks: ChunkMap, s: Spot, emit: bool): (r: (ChunkMap, bool))
    requires InChunk(s.x, s.y)
  {
    if !emit then (chunks, false)
    else match SourceFrom(chunks, s, 0)
      case None => (chunks, false)
      case Some(m) =>
        match TargetFrom(chunks, s, 0)
        case None => (chunks, false)
        case Some(t) => (Put(chunks, t.0, t.1, t.2, NewPixel(m)), true)
  }

  /** A copy is made only of a copyable material found next to the clone, into a neighbouring AIR cell; nothing else changes. */
  lemma CloneStepEffect(chunks: ChunkMap, s: Spot, emit: bool, cq: IVec2, qx: nat, qy: nat)
    requires InChunk(s.x, s.y) && InChunk(qx, qy)
    ensures var (r, emitted) := CloneStep(chunks, s, emit);
            r.Keys == chunks.Keys
            && (!emitted ==> r == chunks)
            && (emitted ==> SourceFrom(chunks, s, 0).Some? && TargetFrom(chunks, s, 0).Some?)
            && (At(r, cq, qx, qy) != At(chunks, cq, qx, qy) ==>
                  emitted && TargetFrom(chunks, s, 0) == Some((cq, qx, qy))
                  && At(chunks, cq, qx, qy).value.material == M.AIR
                  && At(r, cq, qx, qy) == Some(NewPixel(SourceFrom(chunks, s, 0).value)))
  {
    if emit && SourceFrom(chunks, s, 0).Some? && TargetFrom(chunks, s, 0).Some? {
      var t := TargetFrom(chunks, s, 0).value;
      PutEffect(chunks, t.0, t.1, t.2, NewPixel(SourceFrom(chunks, s, 0).value), cq, qx, qy);
    }
  }

  /**
   * The clone loop as written: the `return` after the first copy leaves the
   * whole pass, so the clones after it are not processed in this call.
   */
  function CloneFoldAsWritten(chunks: ChunkMap, spots: seq<Spot>, emit: nat -> bool, n: nat): (r: (ChunkMap, bool))
    requires n <= |spots| && forall k | 0 <= k < |spots| :: InChunk(spots[k].x, spots[k].y)
  {
    if n == 0 then (chunks, false)
    else
      var (b, done) := CloneFoldAsWritten(chunks, spots, emit, n - 1);
      if done then (b, true) else CloneStep(b, spots[n - 1], emit(n - 1))
  }

  /** The clone loop as intended: one copy at most per clone, and every clone processed. */
  function CloneFold(chunks: ChunkMap, spots: seq<Spot>, emit: nat -> bool, n: nat): ChunkMap
    requires n <= |spots| && forall k | 0 <= k < |spots| :: InChunk(spots[k].x, spots[k].y)
  {
    if n == 0 then chunks else CloneStep(CloneFold(chunks, spots, emit, n - 1), spots[n - 1], emit(n - 1)).0
  }

  /** `update_clone_behavior` as written. */
  function ClonePassAsWritten(chunks: ChunkMap, active: seq<IVec2>, emit: nat -> bool): ChunkMap
  {
    var spots := Collect(chunks, active, IsClone);
    CollectInChunk(chunks, active, IsClone);
    CloneFoldAsWritten(chunks, spots, emit, |spots|).0
  }

  /** `update_clone_behavior` with the early exit leaving only the current clone. */
  function ClonePass(chunks: ChunkMap, active: seq<IVec2>, emit: nat -> bool): ChunkMap
  {
    var spots := Collect(chunks, active, IsClone);
    CollectInChunk(chunks, active, IsClone);
    CloneFold(chunks, spots, emit, |spots|)
  }

  /** Whether the pixel at a position differs between two maps. */
  predicate Changed(a: ChunkMap, b: ChunkMap, q: (IVec2, nat, nat))
    requires InChunk(q.1, q.2)
  {
    At(a, q.0, q.1, q.2) != At(b, q.0, q.1, q.2)
  }

  /**
   * As written, a whole clone pass changes at most one cell: until the first
   * copy the map is untouched, and after it the pass has returned. Any two
   * changed positions are the same position.
   */
  lemma {:induction false} CloneAsWrittenOneCopy(chunks: ChunkMap, spots: seq<Spot>, emit: nat -> bool, n: nat,
                                                 p1: (IVec2, nat, nat), p2: (IVec2, nat, nat))
    requires n <= |spots| && forall k | 0 <= k < |spots| :: InChunk(spots[k].x, spots[k].y)
    requires InChunk(p1.1, p1.2) && InChunk(p2.1, p2.2)
    ensures var (r, done) := CloneFoldAsWritten(chunks, spots, emit, n);
            (!done ==> r == chunks)
            && (Changed(chunks, r, p1) && Changed(chunks, r, p2) ==> p1 == p2)
    decreases n
  {
    if n > 0 {
      CloneAsWrittenOneCopy(chunks, spots, emit, n - 1, p1, p2);
      var (b, done) := CloneFoldAsWritten(chunks, spots, emit, n - 1);
      if !done {
        CloneStepEffect(b, spots[n - 1], emit(n - 1), p1.0, p1.1, p1.2);
        CloneStepEffect(b, spots[n - 1], emit(n - 1), p2.0, p2.1, p2.2);
      }
    }
  }

  const ORIGIN := IVec2(0, 0)

  /**
   * Around the clone at (10, y) of chunk (0, 0): AIR on the three cells of
   * row y - 1 and STONE on the cell to its left. The other neighbours do not
   * matter: the scan meets STONE before them, and the first AIR cell comes
   * first in the same order.
   */
  predicate CloneScene(chunks: ChunkMap, y: nat)
    requires 1 <= y < 63
  {
    ORIGIN in chunks
    && PixelAt(chunks[ORIGIN], 9, y - 1).material == M.AIR
    && PixelAt(chunks[ORIGIN], 10, y - 1).material == M.AIR
    && PixelAt(chunks[ORIGIN], 11, y - 1).material == M.AIR
    && PixelAt(chunks[ORIGIN], 9, y).material == M.STONE
  }

  /** In such a scene the clone copies STONE into the AIR cell at (9, y - 1). */
  lemma CloneSceneCopies(chunks: ChunkMap, y: nat, s: Spot)
    requires 1 <= y < 63 && CloneScene(chunks, y) && s == Spot(ORIGIN, 10, y)
    ensures CloneStep(chunks, s, true) == (Put(chunks, ORIGIN, 9, y - 1, NewPixel(M.STONE)), true)
  {
    assert NeighbourAt(s, 0) == (ORIGIN, 9, y - 1);
    assert NeighbourAt(s, 1) == (ORIGIN, 10, y - 1);
    assert NeighbourAt(s, 2) == (ORIGIN, 11, y - 1);
    assert NeighbourAt(s, 3) == (ORIGIN, 9, y);
    assert SourceFrom(chunks, s, 0) == Some(M.STONE);
    var above: nat := y - 1;
    assert TargetFrom(chunks, s, 0) == Some((ORIGIN, 9, above));
  }

  /** Copying into row 9 leaves a scene around row 20 in place. */
  lemma CloneSceneKept(chunks: ChunkMap)
    requires CloneScene(chunks, 20)
    ensures CloneScene(Put(chunks, ORIGIN, 9, 9, NewPixel(M.STONE)), 20)
  {
    var p := NewPixel(M.STONE);
    PutEffect(chunks, ORIGIN, 9, 9, p, ORIGIN, 9, 19);
    PutEffect(chunks, ORIGIN, 9, 9, p, ORIGIN, 10, 19);
    PutEffect(chunks, ORIGIN, 9, 9, p, ORIGIN, 11, 19);
    PutEffect(chunks, ORIGIN, 9, 9, p, ORIGIN, 9, 20);
  }

  /**
   * Two clones, at (10, 10) and (10, 20), each with STONE on its left and AIR
   * above, both rolling a success: as written only the first one copies, and
   * (9, 19) stays AIR; the intended pass copies STONE there too.
   */
  lemma CloneEarlyReturnWitness(chunks: ChunkMap, spots: seq<Spot>, emit: nat -> bool)
    requires CloneScene(chunks, 10) && CloneScene(chunks, 20)
    requires spots == [Spot(ORIGIN, 10, 10), Spot(ORIGIN, 10, 20)] && emit(0) && emit(1)
    ensures At(CloneFoldAsWritten(chunks, spots, emit, 2).0, ORIGIN, 9, 19) == At(chunks, ORIGIN, 9, 19)
    ensures At(CloneFold(chunks, spots, emit, 2), ORIGIN, 9, 19) == Some(NewPixel(M.STONE))
  {
    var r1 := Put(chunks, ORIGIN, 9, 9, NewPixel(M.STONE));
    CloneSceneCopies(chunks, 10, spots[0]);
    assert CloneFoldAsWritten(chunks, spots, emit, 1) == (r1, true);
    assert CloneFoldAsWritten(chunks, spots, emit, 2) == (r1, true);
    PutEffect(chunks, ORIGIN, 9, 9, NewPixel(M.STONE), ORIGIN, 9, 19);
    CloneSceneKept(chunks);
    CloneSceneCopies(r1, 20, spots[1]);
    assert CloneFold(chunks, spots, emit, 1) == r1;
    PutEffect(r1, ORIGIN, 9, 19, NewPixel(M.STONE), ORIGIN, 9, 19);
  }

  method ProcessClonesAsWritten(chunks: ChunkMap, spots: seq<Spot>, emit: nat -> bool) returns (r: ChunkMap)
    requires forall k | 0 <= k < |spots| :: InChunk(spots[k].x, spots[k].y)
    ensures r == CloneFoldAsWritten(chunks, spots, emit, |spots|).0
  {
    var k := 0;
    while k < |spots|
      invariant 0 <= k <= |spots|
      invariant CloneFoldAsWritten(chunks, spots, emit, k) == (chunks, false)
    {
      var next, done := CloneStepMethod(chunks, spots[k], emit(k));
      assert CloneFoldAsWritten(chunks, spots, emit, k + 1) == (next, done);
      if done {
        CloneStaysDone(chunks, spots, emit, k + 1, |spots|);
        return next;
      }
      k := k + 1;
    }
    r := chunks;
  }

  /** Once the as-written fold has copied, later clones change nothing. */
  lemma {:induction false} CloneStaysDone(chunks: ChunkMap, spots: seq<Spot>, emit: nat -> bool, k: nat, n: nat)
    requires k <= n <= |spots| && forall i | 0 <= i < |spots| :: InChunk(spots[i].x, spots[i].y)
    requires CloneFoldAsWritten(chunks, spots, emit, k).1
    ensures CloneFoldAsWritten(chunks, spots, emit, n) == CloneFoldAsWritten(chunks, spots, emit, k)
    decreases n - k
  {
    if n > k {
      CloneStaysDone(chunks, spots, emit, k, n - 1);
    }
  }

  method ProcessClones(chunks: ChunkMap, spots: seq<Spot>, emit: nat -> bool) returns (r: ChunkMap)
    requires forall k | 0 <= k < |spots| :: InChunk(spots[k].x, spots[k].y)
    ensures r == CloneFold(chunks, spots, emit, |spots|)
  {
    r := chunks;
    var k := 0;
    while k < |spots|
      invariant 0 <= k <= |spots|
      invariant r == CloneFold(chunks, spots, emit, k)
    {
      var done;
      r, done := CloneStepMethod(r, spots[k], emit(k));
      k := k + 1;
    }
  }

  /** One clone: the two nested neighbour loops, the second leaving as soon as it has copied. */
  method CloneStepMethod(chunks: ChunkMap, s: Spot, emit: bool) returns (r: ChunkMap, copied: bool)
    requires InChunk(s.x, s.y)
    ensures (r, copied) == CloneStep(chunks, s, emit)
  {
    r, copied := chunks, false;
    if !emit {
      return;
    }
    var source: Option<U16> := None;
    var k := 0;
    while k < 8 && source.None?
      invariant 0 <= k <= 8
      invariant SourceFrom(chunks, s, 0) == if source.Some? then source else SourceFrom(chunks, s, k)
    {
      var t := NeighbourAt(s, k);
      if t.0 in chunks && Copyable(PixelAt(chunks[t.0], t.1, t.2).material) {
        source := Some(PixelAt(chunks[t.0], t.1, t.2).material);
      }
      k := k + 1;
    }
    if source.Some? {
      k := 0;
      while k < 8
        invariant 0 <= k <= 8
        invariant TargetFrom(chunks, s, 0) == TargetFrom(chunks, s, k)
      {
        var t := NeighbourAt(s, k);
        if t.0 in chunks && PixelAt(chunks[t.0], t.1, t.2).material == M.AIR {
          r, copied := Put(chunks, t.0, t.1, t.2, NewPixel(source.value)), true;
          return;
        }
        k := k + 1;
      }
    }
  }

  // ---------------------------------------------------------------------
  // The whole update

  /** The draws of one `update` call, one stream per pass. */
  datatype Draws = Draws(fuse: nat -> bool, vine: nat -> VineDraw, virus: nat -> VirusDraw, clone: nat -> bool)

  /** `SpecialBehaviorsSystem::update`: fuse, vine, virus, then clone, each on the result of the previous. */
  function Update(chunks: ChunkMap, active: seq<IVec2>, mats: seq<M.MaterialDef>, draws: Draws): (r: ChunkMap)
    requires |mats| > 0
  {
    var afterFuse := FusePass(chunks, active, mats, draws.fuse);
    var afterVine := VinePass(afterFuse, active, draws.vine);
    var afterVirus := VirusPass(afterVine, active, mats, draws.virus);
    ClonePassAsWritten(afterVirus, active, draws.clone)
  }

  method UpdateAll(chunks: ChunkMap, active: seq<IVec2>, mats: seq<M.MaterialDef>, draws: Draws) returns (r: ChunkMap)
    requires |mats| > 0
    ensures r == Update(chunks, active, mats, draws)
  {
    var cands := FuseCandidates(chunks, active);
    FuseCandidatesInChunk(chunks, active);
    r := ProcessFuses(chunks, mats, cands, draws.fuse);
    var tips := CollectSpots(r, active, VineTip);
    CollectInChunk(r, active, VineTip);
    r := ProcessVines(r, tips, draws.vine);
    var viruses := CollectSpots(r, active, IsVirus);
    CollectInChunk(r, active, IsVirus);
    r := ProcessViruses(r, mats, viruses, draws.virus);
    r := TransformChunks(r, active);
    var clones := CollectSpots(r, active, IsClone);
    CollectInChunk(r, active, IsClone);
    r := ProcessClonesAsWritten(r, clones, draws.clone);
  }
}
