/**
 * The single-pixel creatures of the engine crate: ants, birds and fish.
 * Like the special-material passes, each pass collects the positions of its
 * material in the active chunks and then moves them one by one. The
 * direction-flag helpers and the neighbour-position helper of this system
 * are the same code as those of the special-material system and are the
 * functions of `SpecialBehaviors`.
 *
 * The steering of birds and fish sums floating-point forces and ends in one
 * of the four unit steps; that step is a draw here (`heading`), as are the
 * probability rolls.
 */
module PixelEntities {
  import opened Ints
  import opened Wrappers
  import opened Chunks
  import opened CoreIds
  import M = Materials
  import SB = SpecialBehaviors

  type Dir4 = d: nat | d < 4

  /** `offset_to_direction`: up if dy > 0, else right if dx > 0, else down if dy < 0, else left. */
  function OffsetToDirection(dx: int, dy: int): (d: Dir4)
  {
    if dy > 0 then 0 else if dx > 0 then 1 else if dy < 0 then 2 else 3
  }

  /** The four unit steps and the four directions convert into each other. */
  lemma OffsetRoundTrip(d: Dir4)
    ensures OffsetToDirection(SB.DirectionToOffset(d).0, SB.DirectionToOffset(d).1) == d
  {
  }

  lemma DirectionRoundTrip(dx: int, dy: int)
    requires (dx, dy) in {(0, 1), (1, 0), (0, -1), (-1, 0)}
    ensures SB.DirectionToOffset(OffsetToDirection(dx, dy)) == (dx, dy)
  {
  }

  // ---------------------------------------------------------------------
  // Moving a pixel

  /**
   * The pixel at `s` moves to `t`, with its direction rewritten when `dir`
   * is given, and `left` takes its place; nothing happens when the source
   * chunk is not loaded.
   */
  function Carry(chunks: ChunkMap, s: SB.Spot, t: (IVec2, nat, nat), left: Pixel, dir: Option<Dir4>): ChunkMap
    requires InChunk(s.x, s.y) && InChunk(t.1, t.2)
  {
    if s.cp in chunks then
      var p := PixelAt(chunks[s.cp], s.x, s.y);
      SB.Put(SB.Put(chunks, s.cp, s.x, s.y, left), t.0, t.1, t.2, Headed(p, dir))
    else chunks
  }

  /** A pixel with its direction rewritten, or unchanged. */
  function Headed(p: Pixel, dir: Option<Dir4>): Pixel
  {
    if dir.Some? then p.(flags := SB.WithDirection(p.flags, dir.value)) else p
  }

  /** The pixel at `s` turns to direction `dir` in place. */
  function Turn(chunks: ChunkMap, s: SB.Spot, dir: Dir4): ChunkMap
    requires InChunk(s.x, s.y)
  {
    if s.cp in chunks then
      var p := PixelAt(chunks[s.cp], s.x, s.y);
      SB.Put(chunks, s.cp, s.x, s.y, Headed(p, Some(dir)))
    else chunks
  }

  /** A carry writes `left` at the source and the moved pixel at a loaded target; every other cell is unchanged. */
  lemma CarryEffect(chunks: ChunkMap, s: SB.Spot, t: (IVec2, nat, nat), left: Pixel, dir: Option<Dir4>, q: (IVec2, nat, nat))
    requires InChunk(s.x, s.y) && InChunk(t.1, t.2) && InChunk(q.1, q.2) && t != (s.cp, s.x, s.y)
    ensures SB.At(Carry(chunks, s, t, left, dir), q.0, q.1, q.2)
            == if s.cp !in chunks then SB.At(chunks, q.0, q.1, q.2)
               else if q == t && t.0 in chunks then Some(Headed(PixelAt(chunks[s.cp], s.x, s.y), dir))
               else if q == (s.cp, s.x, s.y) then Some(left)
               else SB.At(chunks, q.0, q.1, q.2)
  {
    if s.cp in chunks {
      var p := PixelAt(chunks[s.cp], s.x, s.y);
      var vacated := SB.Put(chunks, s.cp, s.x, s.y, left);
      SB.PutEffect(chunks, s.cp, s.x, s.y, left, q.0, q.1, q.2);
      SB.PutEffect(vacated, t.0, t.1, t.2, Headed(p, dir), q.0, q.1, q.2);
    }
  }

  lemma TurnEffect(chunks: ChunkMap, s: SB.Spot, dir: Dir4, q: (IVec2, nat, nat))
    requires InChunk(s.x, s.y) && InChunk(q.1, q.2)
    ensures SB.At(Turn(chunks, s, dir), q.0, q.1, q.2)
            == if s.cp in chunks && q == (s.cp, s.x, s.y) then Some(Headed(PixelAt(chunks[s.cp], s.x, s.y), Some(dir)))
               else SB.At(chunks, q.0, q.1, q.2)
  {
    if s.cp in chunks {
      SB.PutEffect(chunks, s.cp, s.x, s.y, Headed(PixelAt(chunks[s.cp], s.x, s.y), Some(dir)), q.0, q.1, q.2);
    }
  }

  /** Rewriting the direction keeps the material and stores the direction. */
  lemma HeadedPixel(p: Pixel, dir: Option<Dir4>)
    ensures Headed(p, dir).material == p.material
    ensures dir.Some? ==> SB.DirectionOf(Headed(p, dir).flags) == dir.value
    ensures dir.None? ==> Headed(p, dir) == p
  {
    if dir.Some? {
      SB.DirectionRoundTrip(p.flags, dir.value);
    }
  }

  /** The material of a cell, when its chunk is loaded. */
  function MaterialAt(chunks: ChunkMap, t: (IVec2, nat, nat)): Option<U16>
    requires InChunk(t.1, t.2)
  {
    if t.0 in chunks then Some(PixelAt(chunks[t.0], t.1, t.2).material) else None
  }

  predicate HasType(chunks: ChunkMap, mats: seq<M.MaterialDef>, t: (IVec2, nat, nat), ty: M.MaterialType)
    requires |mats| > 0 && InChunk(t.1, t.2)
  {
    MaterialAt(chunks, t).Some? && M.Lookup(mats, MaterialAt(chunks, t).value).materialType == ty
  }

  // ---------------------------------------------------------------------
  // Ants

  predicate IsAnt(p: Pixel) { p.material == ANT }

  /** The draws for one ant: the move roll, the direction-change roll, and the coin for the new direction. */
  datatype AntDraw = AntDraw(move: bool, change: bool, right: bool)

  /** The direction held in the flags at `s`, or 0 when its chunk is not loaded. */
  function CurrentDirection(chunks: ChunkMap, s: SB.Spot): Dir4
    requires InChunk(s.x, s.y)
  {
    if s.cp in chunks then SB.DirectionOf(PixelAt(chunks[s.cp], s.x, s.y).flags) else 0
  }

  /** An ant stands on a loaded Solid or Powder cell. */
  predicate OnGround(chunks: ChunkMap, mats: seq<M.MaterialDef>, s: SB.Spot)
    requires |mats| > 0 && InChunk(s.x, s.y)
  {
    var below := SB.NeighborPos(s.cp, s.x, s.y - 1);
    HasType(chunks, mats, below, M.Solid) || HasType(chunks, mats, below, M.Powder)
  }

  /** The horizontal step of a walking ant: a fresh coin after a direction change, otherwise its heading. */
  function WalkStep(d: AntDraw, current: Dir4): int
  {
    if d.change then (if d.right then 1 else -1) else (if current == 1 then 1 else -1)
  }

  /** The step an ant tries: walking on the ground, falling otherwise. */
  function AntOffset(chunks: ChunkMap, mats: seq<M.MaterialDef>, s: SB.Spot, d: AntDraw): (o: (int, int))
    requires |mats| > 0 && InChunk(s.x, s.y)
    ensures o in {(1, 0), (-1, 0), (0, -1)}
  {
    if OnGround(chunks, mats, s) then (WalkStep(d, CurrentDirection(chunks, s)), 0) else (0, -1)
  }

  /** An ant can enter a loaded AIR or Gas cell. */
  predicate AntCanEnter(chunks: ChunkMap, mats: seq<M.MaterialDef>, t: (IVec2, nat, nat))
    requires |mats| > 0 && InChunk(t.1, t.2)
  {
    MaterialAt(chunks, t) == Some(M.AIR) || HasType(chunks, mats, t, M.Gas)
  }

  /** The heading an ant takes after a move with horizontal step dx. */
  function AntHeading(dx: int, current: Dir4): Dir4
  {
    if dx > 0 then 1 else if dx < 0 then 3 else current
  }

  /**
   * One ant: when the roll succeeds it moves into AIR or gas that is not
   * WATER, leaving AIR; when a walking ant is blocked it climbs diagonally
   * up into AIR, or else turns around.
   */
  function AntStep(chunks: ChunkMap, mats: seq<M.MaterialDef>, s: SB.Spot, d: AntDraw): ChunkMap
    requires |mats| > 0 && InChunk(s.x, s.y)
  {
    if !d.move then chunks
    else AntAct(chunks, mats, s, AntOffset(chunks, mats, s, d), CurrentDirection(chunks, s))
  }

  /** The ant's cell and the cell its step leads to. */
  function AntTarget(s: SB.Spot, o: (int, int)): (r: (IVec2, nat, nat))
    ensures r.1 < CHUNK_SIZE && r.2 < CHUNK_SIZE
  {
    SB.NeighborPos(s.cp, s.x + o.0, s.y + o.1)
  }

  /** The cell diagonally above the step, where a blocked ant climbs. */
  function ClimbTarget(s: SB.Spot, o: (int, int)): (r: (IVec2, nat, nat))
    ensures r.1 < CHUNK_SIZE && r.2 < CHUNK_SIZE
  {
    SB.NeighborPos(s.cp, s.x + o.0, s.y + 1)
  }

  /** An ant that moves: the target is loaded AIR or gas, and not WATER. */
  predicate AntMoves(chunks: ChunkMap, mats: seq<M.MaterialDef>, t: (IVec2, nat, nat))
    requires |mats| > 0 && InChunk(t.1, t.2)
  {
    AntCanEnter(chunks, mats, t) && MaterialAt(chunks, t) != Some(M.WATER)
  }

  /** An ant with step o and heading cur acts on its target. */
  function AntAct(chunks: ChunkMap, mats: seq<M.MaterialDef>, s: SB.Spot, o: (int, int), cur: Dir4): ChunkMap
    requires |mats| > 0 && InChunk(s.x, s.y)
  {
    var t := AntTarget(s, o);
    if AntMoves(chunks, mats, t) then Carry(chunks, s, t, NewPixel(M.AIR), Some(AntHeading(o.0, cur)))
    else if OnGround(chunks, mats, s) && !AntCanEnter(chunks, mats, t) then AntBlocked(chunks, s, o, cur)
    else chunks
  }

  /** A walking ant that cannot enter its target climbs into AIR above it, or turns around. */
  function AntBlocked(chunks: ChunkMap, s: SB.Spot, o: (int, int), cur: Dir4): ChunkMap
    requires InChunk(s.x, s.y)
  {
    var up := ClimbTarget(s, o);
    if MaterialAt(chunks, up) == Some(M.AIR) then Carry(chunks, s, up, NewPixel(M.AIR), None)
    else Turn(chunks, s, if cur == 1 then 3 else 1)
  }

  lemma AntTargetsMove(s: SB.Spot, o: (int, int))
    requires InChunk(s.x, s.y) && o in {(1, 0), (-1, 0), (0, -1)}
    ensures AntTarget(s, o) != (s.cp, s.x, s.y) && ClimbTarget(s, o) != (s.cp, s.x, s.y)
  {
    SB.NeighborPosMoves(s.cp, s.x, s.y, o.0, o.1);
    SB.NeighborPosMoves(s.cp, s.x, s.y, o.0, 1);
  }

  /** What a changed cell other than the ant's own looks like after an ant step. */
  predicate AntEntered(chunks: ChunkMap, mats: seq<M.MaterialDef>, s: SB.Spot, r: ChunkMap, q: (IVec2, nat, nat))
    requires |mats| > 0 && InChunk(s.x, s.y) && InChunk(q.1, q.2) && s.cp in chunks
  {
    (MaterialAt(chunks, q) == Some(M.AIR) || (HasType(chunks, mats, q, M.Gas) && MaterialAt(chunks, q) != Some(M.WATER)))
    && SB.At(r, q.0, q.1, q.2).Some?
    && SB.At(r, q.0, q.1, q.2).value.material == PixelAt(chunks[s.cp], s.x, s.y).material
    && SB.At(r, s.cp, s.x, s.y) == Some(NewPixel(M.AIR))
  }

  lemma AntMoveEffect(chunks: ChunkMap, mats: seq<M.MaterialDef>, s: SB.Spot, o: (int, int), cur: Dir4, q: (IVec2, nat, nat))
    requires |mats| > 0 && InChunk(s.x, s.y) && InChunk(q.1, q.2) && s.cp in chunks
    requires q != (s.cp, s.x, s.y) && o in {(1, 0), (-1, 0), (0, -1)}
    requires AntMoves(chunks, mats, AntTarget(s, o))
    ensures var r := Carry(chunks, s, AntTarget(s, o), NewPixel(M.AIR), Some(AntHeading(o.0, cur)));
            SB.At(r, q.0, q.1, q.2) != SB.At(chunks, q.0, q.1, q.2) ==> AntEntered(chunks, mats, s, r, q)
  {
    var t := AntTarget(s, o);
    AntTargetsMove(s, o);
    CarryEffect(chunks, s, t, NewPixel(M.AIR), Some(AntHeading(o.0, cur)), q);
    CarryEffect(chunks, s, t, NewPixel(M.AIR), Some(AntHeading(o.0, cur)), (s.cp, s.x, s.y));
    HeadedPixel(PixelAt(chunks[s.cp], s.x, s.y), Some(AntHeading(o.0, cur)));
  }

  lemma AntBlockedEffect(chunks: ChunkMap, mats: seq<M.MaterialDef>, s: SB.Spot, o: (int, int), cur: Dir4, q: (IVec2, nat, nat))
    requires |mats| > 0 && InChunk(s.x, s.y) && InChunk(q.1, q.2) && s.cp in chunks
    requires q != (s.cp, s.x, s.y) && o in {(1, 0), (-1, 0), (0, -1)}
    ensures var r := AntBlocked(chunks, s, o, cur);
            SB.At(r, q.0, q.1, q.2) != SB.At(chunks, q.0, q.1, q.2) ==> AntEntered(chunks, mats, s, r, q)
  {
    var up := ClimbTarget(s, o);
    AntTargetsMove(s, o);
    if MaterialAt(chunks, up) == Some(M.AIR) {
      CarryEffect(chunks, s, up, NewPixel(M.AIR), None, q);
      CarryEffect(chunks, s, up, NewPixel(M.AIR), None, (s.cp, s.x, s.y));
    } else {
      TurnEffect(chunks, s, if cur == 1 then 3 else 1, q);
    }
  }

  /**
   * An ant step changes the ant's own cell and at most one other: a loaded
   * cell that held AIR, or gas other than WATER, now holding the ant's old
   * material, while the ant's cell is AIR. A turn changes only the heading.
   */
  lemma AntStepEffect(chunks: ChunkMap, mats: seq<M.MaterialDef>, s: SB.Spot, d: AntDraw, q: (IVec2, nat, nat))
    requires |mats| > 0 && InChunk(s.x, s.y) && InChunk(q.1, q.2) && s.cp in chunks
    requires q != (s.cp, s.x, s.y)
    ensures var r := AntStep(chunks, mats, s, d);
            SB.At(r, q.0, q.1, q.2) != SB.At(chunks, q.0, q.1, q.2) ==> AntEntered(chunks, mats, s, r, q)
  {
    if d.move {
      var o := AntOffset(chunks, mats, s, d);
      var cur := CurrentDirection(chunks, s);
      if AntMoves(chunks, mats, AntTarget(s, o)) {
        AntMoveEffect(chunks, mats, s, o, cur, q);
      } else if OnGround(chunks, mats, s) && !AntCanEnter(chunks, mats, AntTarget(s, o)) {
        AntBlockedEffect(chunks, mats, s, o, cur, q);
      }
    }
  }

  /**
   * The number of ants is kept: when the step changes a cell other than the
   * ant's own, that cell now holds the ant and held none before, and the
   * ant's own cell holds none afterwards (the registry must not make ANT a
   * gas, or an ant could walk into another).
   */
  lemma AntCountKept(chunks: ChunkMap, mats: seq<M.MaterialDef>, s: SB.Spot, d: AntDraw, q: (IVec2, nat, nat))
    requires |mats| > 0 && InChunk(s.x, s.y) && InChunk(q.1, q.2) && s.cp in chunks
    requires IsAnt(PixelAt(chunks[s.cp], s.x, s.y)) && M.Lookup(mats, ANT).materialType != M.Gas
    requires q != (s.cp, s.x, s.y)
    ensures var r := AntStep(chunks, mats, s, d);
            SB.At(r, q.0, q.1, q.2) != SB.At(chunks, q.0, q.1, q.2) ==>
              MaterialAt(chunks, q) != Some(ANT) && SB.At(r, q.0, q.1, q.2).value.material == ANT
              && SB.At(r, s.cp, s.x, s.y).value.material != ANT
  {
    AntStepEffect(chunks, mats, s, d, q);
  }

  // ---------------------------------------------------------------------
  // Birds

  predicate IsBird(p: Pixel) { p.material == BIRD }

  /** The draws for one bird: the update roll and the unit step its steering ends in. */
  datatype HeadingDraw = HeadingDraw(move: bool, heading: Dir4)

  /** A bird can enter loaded AIR, or a gas that is not another bird. */
  predicate BirdCanEnter(chunks: ChunkMap, mats: seq<M.MaterialDef>, t: (IVec2, nat, nat))
    requires |mats| > 0 && InChunk(t.1, t.2)
  {
    MaterialAt(chunks, t) == Some(M.AIR) || (HasType(chunks, mats, t, M.Gas) && MaterialAt(chunks, t) != Some(BIRD))
  }

  function StepTarget(s: SB.Spot, heading: Dir4): (r: (IVec2, nat, nat))
    ensures r.1 < CHUNK_SIZE && r.2 < CHUNK_SIZE
  {
    var o := SB.DirectionToOffset(heading);
    SB.NeighborPos(s.cp, s.x + o.0, s.y + o.1)
  }

  /** One bird: it moves one step into air or gas, leaving AIR and heading the way it moved. */
  function BirdStep(chunks: ChunkMap, mats: seq<M.MaterialDef>, s: SB.Spot, d: HeadingDraw): ChunkMap
    requires |mats| > 0 && InChunk(s.x, s.y)
  {
    var t := StepTarget(s, d.heading);
    if d.move && BirdCanEnter(chunks, mats, t) then
      var o := SB.DirectionToOffset(d.heading);
      Carry(chunks, s, t, NewPixel(M.AIR), Some(OffsetToDirection(o.0, o.1)))
    else chunks
  }

  lemma StepTargetMoves(s: SB.Spot, heading: Dir4)
    requires InChunk(s.x, s.y)
    ensures StepTarget(s, heading) != (s.cp, s.x, s.y)
  {
    var o := SB.DirectionToOffset(heading);
    SB.NeighborPosMoves(s.cp, s.x, s.y, o.0, o.1);
  }

  /** A bird moves only into air or gas other than a bird, leaving AIR, and ends up heading the way it moved. */
  lemma BirdStepEffect(chunks: ChunkMap, mats: seq<M.MaterialDef>, s: SB.Spot, d: HeadingDraw, q: (IVec2, nat, nat))
    requires |mats| > 0 && InChunk(s.x, s.y) && InChunk(q.1, q.2) && s.cp in chunks
    requires q != (s.cp, s.x, s.y)
    ensures var r := BirdStep(chunks, mats, s, d);
            SB.At(r, q.0, q.1, q.2) != SB.At(chunks, q.0, q.1, q.2) ==>
              q == StepTarget(s, d.heading) && BirdCanEnter(chunks, mats, q)
              && SB.At(r, q.0, q.1, q.2).Some?
              && SB.At(r, q.0, q.1, q.2).value.material == PixelAt(chunks[s.cp], s.x, s.y).material
              && SB.DirectionOf(SB.At(r, q.0, q.1, q.2).value.flags) == d.heading
              && SB.At(r, s.cp, s.x, s.y) == Some(NewPixel(M.AIR))
  {
    var t := StepTarget(s, d.heading);
    StepTargetMoves(s, d.heading);
    if d.move && BirdCanEnter(chunks, mats, t) {
      var o := SB.DirectionToOffset(d.heading);
      OffsetRoundTrip(d.heading);
      CarryEffect(chunks, s, t, NewPixel(M.AIR), Some(OffsetToDirection(o.0, o.1)), q);
      CarryEffect(chunks, s, t, NewPixel(M.AIR), Some(OffsetToDirection(o.0, o.1)), (s.cp, s.x, s.y));
      HeadedPixel(PixelAt(chunks[s.cp], s.x, s.y), Some(OffsetToDirection(o.0, o.1)));
    }
  }

  // ---------------------------------------------------------------------
  // Fish

  predicate IsFish(p: Pixel) { p.material == FISH }

  /** Whether neighbour k (in the order of the nested loops) is loaded WATER. */
  predicate WaterNeighbour(chunks: ChunkMap, s: SB.Spot, k: nat)
    requires k < 8
  {
    MaterialAt(chunks, SB.NeighbourAt(s, k)) == Some(M.WATER)
  }

  /** The number of loaded WATER cells among the first n neighbours. */
  function WaterCount(chunks: ChunkMap, s: SB.Spot, n: nat): nat
    requires n <= 8
  {
    if n == 0 then 0 else WaterCount(chunks, s, n - 1) + (if WaterNeighbour(chunks, s, n - 1) then 1 else 0)
  }

  /** `is_pixel_in_water`: at least three of the eight neighbours are loaded WATER. */
  predicate InWater(chunks: ChunkMap, s: SB.Spot)
  {
    WaterCount(chunks, s, 8) >= 3
  }

  /** The neighbours among the first n that are loaded WATER. */
  function WaterSet(chunks: ChunkMap, s: SB.Spot, n: nat): set<nat>
    requires n <= 8
  {
    set k: nat | k < n && WaterNeighbour(chunks, s, k)
  }

  /** Neighbour n - 1 joins the set exactly when it is WATER. */
  lemma WaterSetStep(chunks: ChunkMap, s: SB.Spot, n: nat)
    requires 0 < n <= 8
    ensures WaterSet(chunks, s, n) == WaterSet(chunks, s, n - 1) + (if WaterNeighbour(chunks, s, n - 1) then {n - 1} else {})
    ensures n - 1 !in WaterSet(chunks, s, n - 1)
  {
  }

  /** The count is the number of WATER neighbours. */
  lemma {:induction false} WaterCountIsSize(chunks: ChunkMap, s: SB.Spot, n: nat)
    requires n <= 8
    ensures WaterCount(chunks, s, n) == |WaterSet(chunks, s, n)|
    decreases n
  {
    if n > 0 {
      WaterCountIsSize(chunks, s, n - 1);
      WaterSetStep(chunks, s, n);
    }
  }

  lemma InWaterMeans(chunks: ChunkMap, s: SB.Spot)
    ensures InWater(chunks, s) <==> |WaterSet(chunks, s, 8)| >= 3
  {
    WaterCountIsSize(chunks, s, 8);
  }

  /** `is_pixel_in_water`, counting over the eight neighbours. */
  method IsPixelInWater(chunks: ChunkMap, s: SB.Spot) returns (b: bool)
    ensures b == InWater(chunks, s)
  {
    var count := 0;
    var k := 0;
    while k < 8
      invariant 0 <= k <= 8
      invariant count == WaterCount(chunks, s, k)
    {
      var t := SB.NeighbourAt(s, k);
      if t.0 in chunks && PixelAt(chunks[t.0], t.1, t.2).material == M.WATER {
        count := count + 1;
      }
      k := k + 1;
    }
    b := count >= 3;
  }

  /**
   * One fish: out of water it falls into loaded AIR or WATER below it,
   * leaving AIR; in water it swims one step into WATER, leaving WATER and
   * heading the way it swam, or turns around when the step is blocked.
   * `dir` is the direction it held when collected.
   */
  function FishStep(chunks: ChunkMap, s: SB.Spot, dir: Dir4, d: HeadingDraw): ChunkMap
    requires InChunk(s.x, s.y)
  {
    if !d.move then chunks
    else if !InWater(chunks, s) then
      var below := SB.NeighborPos(s.cp, s.x, s.y - 1);
      if MaterialAt(chunks, below) == Some(M.AIR) || MaterialAt(chunks, below) == Some(M.WATER) then
        Carry(chunks, s, below, NewPixel(M.AIR), None)
      else chunks
    else
      var t := StepTarget(s, d.heading);
      if MaterialAt(chunks, t) == Some(M.WATER) then
        var o := SB.DirectionToOffset(d.heading);
        Carry(chunks, s, t, NewPixel(M.WATER), Some(OffsetToDirection(o.0, o.1)))
      else Turn(chunks, s, (dir + 2) % 4)
  }

  /** A swimming fish moves only into WATER, leaves WATER behind, and heads the way it swam. */
  lemma FishSwims(chunks: ChunkMap, s: SB.Spot, dir: Dir4, d: HeadingDraw)
    requires InChunk(s.x, s.y) && s.cp in chunks && d.move && InWater(chunks, s)
    requires MaterialAt(chunks, StepTarget(s, d.heading)) == Some(M.WATER)
    ensures var r := FishStep(chunks, s, dir, d);
            var t := StepTarget(s, d.heading);
            SB.At(r, s.cp, s.x, s.y) == Some(NewPixel(M.WATER))
            && SB.At(r, t.0, t.1, t.2).Some?
            && SB.At(r, t.0, t.1, t.2).value.material == PixelAt(chunks[s.cp], s.x, s.y).material
            && SB.DirectionOf(SB.At(r, t.0, t.1, t.2).value.flags) == d.heading
  {
    var t := StepTarget(s, d.heading);
    var o := SB.DirectionToOffset(d.heading);
    StepTargetMoves(s, d.heading);
    OffsetRoundTrip(d.heading);
    CarryEffect(chunks, s, t, NewPixel(M.WATER), Some(OffsetToDirection(o.0, o.1)), t);
    CarryEffect(chunks, s, t, NewPixel(M.WATER), Some(OffsetToDirection(o.0, o.1)), (s.cp, s.x, s.y));
    HeadedPixel(PixelAt(chunks[s.cp], s.x, s.y), Some(OffsetToDirection(o.0, o.1)));
  }

  /** A blocked fish in water stays where it is and turns to (dir + 2) mod 4; nothing else changes. */
  lemma FishTurns(chunks: ChunkMap, s: SB.Spot, dir: Dir4, d: HeadingDraw, q: (IVec2, nat, nat))
    requires InChunk(s.x, s.y) && InChunk(q.1, q.2) && s.cp in chunks && d.move && InWater(chunks, s)
    requires MaterialAt(chunks, StepTarget(s, d.heading)) != Some(M.WATER)
    ensures var r := FishStep(chunks, s, dir, d);
            SB.At(r, s.cp, s.x, s.y).Some?
            && SB.At(r, s.cp, s.x, s.y).value.material == PixelAt(chunks[s.cp], s.x, s.y).material
            && SB.DirectionOf(SB.At(r, s.cp, s.x, s.y).value.flags) == (dir + 2) % 4
            && (q != (s.cp, s.x, s.y) ==> SB.At(r, q.0, q.1, q.2) == SB.At(chunks, q.0, q.1, q.2))
  {
    TurnEffect(chunks, s, (dir + 2) % 4, q);
    TurnEffect(chunks, s, (dir + 2) % 4, (s.cp, s.x, s.y));
    HeadedPixel(PixelAt(chunks[s.cp], s.x, s.y), Some((dir + 2) % 4));
  }

  /**
   * Every fish branch keeps the number of fish: a changed cell other than the
   * fish's own held no fish before (it was AIR or WATER) and now holds the
   * fish, whose own cell then holds AIR or WATER.
   */
  lemma FishCountKept(chunks: ChunkMap, s: SB.Spot, dir: Dir4, d: HeadingDraw, q: (IVec2, nat, nat))
    requires InChunk(s.x, s.y) && InChunk(q.1, q.2) && s.cp in chunks && IsFish(PixelAt(chunks[s.cp], s.x, s.y))
    requires q != (s.cp, s.x, s.y)
    ensures var r := FishStep(chunks, s, dir, d);
            SB.At(r, q.0, q.1, q.2) != SB.At(chunks, q.0, q.1, q.2) ==>
              (MaterialAt(chunks, q) == Some(M.AIR) || MaterialAt(chunks, q) == Some(M.WATER))
              && SB.At(r, q.0, q.1, q.2).Some? && SB.At(r, q.0, q.1, q.2).value.material == FISH
              && SB.At(r, s.cp, s.x, s.y).Some? && SB.At(r, s.cp, s.x, s.y).value.material != FISH
  {
    if d.move {
      if !InWater(chunks, s) {
        var below := SB.NeighborPos(s.cp, s.x, s.y - 1);
        SB.NeighborPosMoves(s.cp, s.x, s.y, 0, -1);
        if MaterialAt(chunks, below) == Some(M.AIR) || MaterialAt(chunks, below) == Some(M.WATER) {
          CarryEffect(chunks, s, below, NewPixel(M.AIR), None, q);
          CarryEffect(chunks, s, below, NewPixel(M.AIR), None, (s.cp, s.x, s.y));
        }
      } else {
        var t := StepTarget(s, d.heading);
        StepTargetMoves(s, d.heading);
        var o := SB.DirectionToOffset(d.heading);
        if MaterialAt(chunks, t) == Some(M.WATER) {
          CarryEffect(chunks, s, t, NewPixel(M.WATER), Some(OffsetToDirection(o.0, o.1)), q);
          CarryEffect(chunks, s, t, NewPixel(M.WATER), Some(OffsetToDirection(o.0, o.1)), (s.cp, s.x, s.y));
          HeadedPixel(PixelAt(chunks[s.cp], s.x, s.y), Some(OffsetToDirection(o.0, o.1)));
        } else {
          TurnEffect(chunks, s, (dir + 2) % 4, q);
        }
      }
    }
  }

  // ---------------------------------------------------------------------
  // The passes

  function AntFold(chunks: ChunkMap, mats: seq<M.MaterialDef>, spots: seq<SB.Spot>, draw: nat -> AntDraw, n: nat): ChunkMap
    requires |mats| > 0 && n <= |spots| && forall k | 0 <= k < |spots| :: InChunk(spots[k].x, spots[k].y)
  {
    if n == 0 then chunks else AntStep(AntFold(chunks, mats, spots, draw, n - 1), mats, spots[n - 1], draw(n - 1))
  }

  function BirdFold(chunks: ChunkMap, mats: seq<M.MaterialDef>, spots: seq<SB.Spot>, draw: nat -> HeadingDraw, n: nat): ChunkMap
    requires |mats| > 0 && n <= |spots| && forall k | 0 <= k < |spots| :: InChunk(spots[k].x, spots[k].y)
  {
    if n == 0 then chunks else BirdStep(BirdFold(chunks, mats, spots, draw, n - 1), mats, spots[n - 1], draw(n - 1))
  }

  function FishFold(chunks: ChunkMap, cands: seq<(SB.Spot, nat)>, draw: nat -> HeadingDraw, n: nat): ChunkMap
    requires n <= |cands| && forall k | 0 <= k < |cands| :: InChunk(cands[k].0.x, cands[k].0.y) && cands[k].1 < 4
  {
    if n == 0 then chunks else FishStep(FishFold(chunks, cands, draw, n - 1), cands[n - 1].0, cands[n - 1].1, draw(n - 1))
  }

  /** The fish with the direction each held when collected. */
  function FishCandidates(chunks: ChunkMap, active: seq<IVec2>): (r: seq<(SB.Spot, nat)>)
    ensures forall k | 0 <= k < |r| :: InChunk(r[k].0.x, r[k].0.y) && r[k].1 < 4
  {
    var spots := SB.Collect(chunks, active, IsFish);
    SB.CollectInChunk(chunks, active, IsFish);
    seq(|spots|, k requires 0 <= k < |spots| => (spots[k], SB.DirectionAt(chunks, spots[k])))
  }

  /** `PixelEntitySystem::update`: ants, then birds, then fish, each pass on the result of the previous. */
  function Update(chunks: ChunkMap, active: seq<IVec2>, mats: seq<M.MaterialDef>,
                  ants: nat -> AntDraw, birds: nat -> HeadingDraw, fish: nat -> HeadingDraw): ChunkMap
    requires |mats| > 0
  {
    var antSpots := SB.Collect(chunks, active, IsAnt);
    SB.CollectInChunk(chunks, active, IsAnt);
    var afterAnts := AntFold(chunks, mats, antSpots, ants, |antSpots|);
    var birdSpots := SB.Collect(afterAnts, active, IsBird);
    SB.CollectInChunk(afterAnts, active, IsBird);
    var afterBirds := BirdFold(afterAnts, mats, birdSpots, birds, |birdSpots|);
    var cands := FishCandidates(afterBirds, active);
    FishFold(afterBirds, cands, fish, |cands|)
  }

  method ProcessAnts(chunks: ChunkMap, mats: seq<M.MaterialDef>, spots: seq<SB.Spot>, draw: nat -> AntDraw)
    returns (r: ChunkMap)
    requires |mats| > 0 && forall k | 0 <= k < |spots| :: InChunk(spots[k].x, spots[k].y)
    ensures r == AntFold(chunks, mats, spots, draw, |spots|)
  {
    r := chunks;
    var k := 0;
    while k < |spots|
      invariant 0 <= k <= |spots|
      invariant r == AntFold(chunks, mats, spots, draw, k)
    {
      r := MoveAnt(r, mats, spots[k], draw(k));
      k := k + 1;
    }
  }

  /** The body of the ant loop. */
  method MoveAnt(chunks: ChunkMap, mats: seq<M.MaterialDef>, s: SB.Spot, d: AntDraw) returns (r: ChunkMap)
    requires |mats| > 0 && InChunk(s.x, s.y)
    ensures r == AntStep(chunks, mats, s, d)
  {
    r := chunks;
    if !d.move {
      return;
    }
    var onGround := OnGround(chunks, mats, s);
    var cur := CurrentDirection(chunks, s);
    var o := (0, -1);
    if onGround {
      o := (WalkStep(d, cur), 0);
    }
    assert o == AntOffset(chunks, mats, s, d);
    var t := AntTarget(s, o);
    var canMove := AntCanEnter(chunks, mats, t);
    var isWater := MaterialAt(chunks, t) == Some(M.WATER);
    if canMove && !isWater {
      r := Carry(chunks, s, t, NewPixel(M.AIR), Some(AntHeading(o.0, cur)));
    } else if onGround && !canMove {
      var up := ClimbTarget(s, o);
      if MaterialAt(chunks, up) == Some(M.AIR) {
        r := Carry(chunks, s, up, NewPixel(M.AIR), None);
      } else {
        r := Turn(chunks, s, if cur == 1 then 3 else 1);
      }
    }
  }

  method ProcessBirds(chunks: ChunkMap, mats: seq<M.MaterialDef>, spots: seq<SB.Spot>, draw: nat -> HeadingDraw)
    returns (r: ChunkMap)
    requires |mats| > 0 && forall k | 0 <= k < |spots| :: InChunk(spots[k].x, spots[k].y)
    ensures r == BirdFold(chunks, mats, spots, draw, |spots|)
  {
    r := chunks;
    var k := 0;
    while k < |spots|
      invariant 0 <= k <= |spots|
      invariant r == BirdFold(chunks, mats, spots, draw, k)
    {
      r := MoveBird(r, mats, spots[k], draw(k));
      k := k + 1;
    }
  }

  /** One bird of the bird pass: step along the drawn heading into AIR or a non-bird gas, or stay. */
  method MoveBird(chunks: ChunkMap, mats: seq<M.MaterialDef>, s: SB.Spot, d: HeadingDraw) returns (r: ChunkMap)
    requires |mats| > 0 && InChunk(s.x, s.y)
    ensures r == BirdStep(chunks, mats, s, d)
  {
    r := chunks;
    if !d.move {
      return;
    }
    var t := StepTarget(s, d.heading);
    var canMove := BirdCanEnter(chunks, mats, t);
    if canMove {
      var o := SB.DirectionToOffset(d.heading);
      r := Carry(chunks, s, t, NewPixel(M.AIR), Some(OffsetToDirection(o.0, o.1)));
    }
  }

  method ProcessFish(chunks: ChunkMap, cands: seq<(SB.Spot, nat)>, draw: nat -> HeadingDraw) returns (r: ChunkMap)
    requires forall k | 0 <= k < |cands| :: InChunk(cands[k].0.x, cands[k].0.y) && cands[k].1 < 4
    ensures r == FishFold(chunks, cands, draw, |cands|)
  {
    r := chunks;
    var k := 0;
    while k < |cands|
      invariant 0 <= k <= |cands|
      invariant r == FishFold(chunks, cands, draw, k)
    {
      r := MoveFish(r, cands[k].0, cands[k].1, draw(k));
      k := k + 1;
    }
  }

  /** The body of the fish loop. */
  method MoveFish(chunks: ChunkMap, s: SB.Spot, dir: Dir4, d: HeadingDraw) returns (r: ChunkMap)
    requires InChunk(s.x, s.y)
    ensures r == FishStep(chunks, s, dir, d)
  {
    r := chunks;
    if !d.move {
      return;
    }
    var inWater := IsPixelInWater(chunks, s);
    if !inWater {
      var below := SB.NeighborPos(s.cp, s.x, s.y - 1);
      var canFall := MaterialAt(chunks, below) == Some(M.AIR) || MaterialAt(chunks, below) == Some(M.WATER);
      if canFall {
        r := Carry(chunks, s, below, NewPixel(M.AIR), None);
      }
      return;
    }
    var t := StepTarget(s, d.heading);
    if MaterialAt(chunks, t) == Some(M.WATER) {
      var o := SB.DirectionToOffset(d.heading);
      r := Carry(chunks, s, t, NewPixel(M.WATER), Some(OffsetToDirection(o.0, o.1)));
    } else {
      r := Turn(chunks, s, (dir + 2) % 4);
    }
  }

  method UpdateAll(chunks: ChunkMap, active: seq<IVec2>, mats: seq<M.MaterialDef>,
                   ants: nat -> AntDraw, birds: nat -> HeadingDraw, fish: nat -> HeadingDraw) returns (r: ChunkMap)
    requires |mats| > 0
    ensures r == Update(chunks, active, mats, ants, birds, fish)
  {
    var antSpots := SB.CollectSpots(chunks, active, IsAnt);
    SB.CollectInChunk(chunks, active, IsAnt);
    r := ProcessAnts(chunks, mats, antSpots, ants);
    var birdSpots := SB.CollectSpots(r, active, IsBird);
    SB.CollectInChunk(r, active, IsBird);
    r := ProcessBirds(r, mats, birdSpots, birds);
    var cands := FishCandidates(r, active);
    r := ProcessFish(r, cands, fish);
  }
}
