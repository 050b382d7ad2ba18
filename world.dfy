/**
 * The world: loaded chunks keyed by chunk position, the list of active
 * chunks, the player position and the fixed-timestep accumulator, and the
 * cellular-automaton pass that visits every pixel of an active chunk.
 *
 * Pixel rules are functions over the chunk map; the class `World` holds
 * the map and list and updates them in place. Every random draw of a pixel
 * visit is a field of `PixelRolls`; the caller supplies one `PixelRolls`
 * per cell of a chunk (`CellRolls`) and one `CellRolls` per active chunk.
 */
module Worlds {
  import opened Wrappers
  import opened Ints
  import opened Chunks
  import opened WorldGrid
  import M = Materials
  import R = LegacyReactions
  import Chemistry
  import Temperature

  // ---------------------------------------------------------------------
  // Moving one pixel

  /** The source and destination chunks are loaded and the destination is empty. */
  predicate CanMove(chunks: ChunkMap, fx: int, fy: int, tx: int, ty: int)
  {
    GetPixel(chunks, fx, fy).Some? && GetPixel(chunks, tx, ty).Some? && IsEmpty(GetPixel(chunks, tx, ty).value)
  }

  /** `try_move_world`: check, then swap within one chunk or clear-then-write across two. */
  function MoveAttempt(chunks: ChunkMap, fx: int, fy: int, tx: int, ty: int): (r: (bool, ChunkMap))
    ensures r.1.Keys == chunks.Keys
  {
    var (sp, sx, sy) := WorldToChunkCoords(fx, fy);
    var (dp, dx, dy) := WorldToChunkCoords(tx, ty);
    if sp !in chunks || dp !in chunks then (false, chunks)
    else if !IsEmpty(PixelAt(chunks[dp], dx, dy)) then (false, chunks)
    else if sp == dp then (true, chunks[sp := Swapped(chunks[sp], sx, sy, dx, dy)])
    else
      var src := PixelAt(chunks[sp], sx, sy);
      var cleared := WriteLocal(chunks, sp, sx, sy, Air);
      (true, WriteLocal(cleared, dp, dx, dy, src))
  }

  /** The move is refused exactly when a chunk is missing or the destination is occupied, and then nothing changes. */
  lemma MoveAttemptRefused(chunks: ChunkMap, fx: int, fy: int, tx: int, ty: int)
    ensures MoveAttempt(chunks, fx, fy, tx, ty).0 == CanMove(chunks, fx, fy, tx, ty)
    ensures !CanMove(chunks, fx, fy, tx, ty) ==> MoveAttempt(chunks, fx, fy, tx, ty).1 == chunks
  {
  }

  /**
   * A successful move puts the source pixel at the destination and the
   * destination's empty pixel (AIR material) at the source, and no other
   * pixel of the world changes; so the two materials are exchanged.
   */
  lemma MoveAttemptMoves(chunks: ChunkMap, fx: int, fy: int, tx: int, ty: int)
    requires CanMove(chunks, fx, fy, tx, ty)
    ensures var r := MoveAttempt(chunks, fx, fy, tx, ty).1;
            GetPixel(r, tx, ty) == GetPixel(chunks, fx, fy)
            && GetPixel(r, fx, fy).Some? && GetPixel(r, fx, fy).value.material == M.AIR
            && forall qx, qy | (qx != fx || qy != fy) && (qx != tx || qy != ty) ::
                 GetPixel(r, qx, qy) == GetPixel(chunks, qx, qy)
  {
    var (sp, sx, sy) := WorldToChunkCoords(fx, fy);
    var (dp, dx, dy) := WorldToChunkCoords(tx, ty);
    var r := MoveAttempt(chunks, fx, fy, tx, ty).1;
    if sp == dp {
      SwapExchanges(chunks[sp], sx, sy, dx, dy);
      forall qx, qy | (qx != fx || qy != fy) && (qx != tx || qy != ty)
        ensures GetPixel(r, qx, qy) == GetPixel(chunks, qx, qy)
      {
        WorldToChunkCoordsInjective(qx, qy, fx, fy);
        WorldToChunkCoordsInjective(qx, qy, tx, ty);
      }
    } else {
      var src := PixelAt(chunks[sp], sx, sy);
      var cleared := WriteLocal(chunks, sp, sx, sy, Air);
      assert cleared == WriteAt(chunks, fx, fy, Air);
      assert r == WriteAt(cleared, tx, ty, src);
      WriteAtEffect(chunks, fx, fy, Air);
      WriteAtEffect(cleared, tx, ty, src);
    }
  }

  /** A move only exchanges the materials of its two cells, so the multiset of materials is kept. */
  lemma MoveAttemptConserves(chunks: ChunkMap, fx: int, fy: int, tx: int, ty: int)
    requires CanMove(chunks, fx, fy, tx, ty) && (fx != tx || fy != ty)
    ensures var r := MoveAttempt(chunks, fx, fy, tx, ty).1;
            multiset{GetPixel(r, fx, fy).value.material, GetPixel(r, tx, ty).value.material}
            == multiset{GetPixel(chunks, fx, fy).value.material, GetPixel(chunks, tx, ty).value.material}
  {
    MoveAttemptMoves(chunks, fx, fy, tx, ty);
  }

  // ---------------------------------------------------------------------
  // Move orders

  /** The two cells beside x on row y, the left one first when `leftFirst`. */
  function Sideways(x: int, y: int, leftFirst: bool): seq<IVec2>
  {
    if leftFirst then [IVec2(x - 1, y), IVec2(x + 1, y)] else [IVec2(x + 1, y), IVec2(x - 1, y)]
  }

  /** Powder: straight down, then the two downward diagonals, the coin choosing which diagonal comes first. */
  function PowderTargets(x: int, y: int, leftFirst: bool): (r: seq<IVec2>)
    ensures |r| == 3 && r[0] == IVec2(x, y - 1)
    ensures {r[1], r[2]} == {IVec2(x - 1, y - 1), IVec2(x + 1, y - 1)}
    ensures leftFirst <==> r[1].x < r[2].x
  {
    [IVec2(x, y - 1)] + Sideways(x, y - 1, leftFirst)
  }

  /** Liquid: the powder targets, then the two horizontal neighbours in the same coin order. */
  function LiquidTargets(x: int, y: int, leftFirst: bool): (r: seq<IVec2>)
    ensures |r| == 5 && r[..3] == PowderTargets(x, y, leftFirst)
    ensures {r[3], r[4]} == {IVec2(x - 1, y), IVec2(x + 1, y)}
    ensures r[3].x == r[1].x && r[4].x == r[2].x
  {
    PowderTargets(x, y, leftFirst) + Sideways(x, y, leftFirst)
  }

  /** Gas: the powder targets mirrored upward, then the two horizontal neighbours, in the same coin order. */
  function GasTargets(x: int, y: int, leftFirst: bool): (r: seq<IVec2>)
    ensures |r| == 5
    ensures forall i | 0 <= i < 3 :: r[i] == IVec2(PowderTargets(x, y, leftFirst)[i].x, 2 * y - PowderTargets(x, y, leftFirst)[i].y)
    ensures r[3..] == LiquidTargets(x, y, leftFirst)[3..]
  {
    [IVec2(x, y + 1)] + Sideways(x, y + 1, leftFirst) + Sideways(x, y, leftFirst)
  }

  /** The index of the first target from `k` on that the pixel at (fx, fy) can move into. */
  function FirstMovable(chunks: ChunkMap, fx: int, fy: int, targets: seq<IVec2>, k: nat): (r: Option<nat>)
    requires k <= |targets|
    ensures r.Some? ==> k <= r.value < |targets| && CanMove(chunks, fx, fy, targets[r.value].x, targets[r.value].y)
                        && forall i | k <= i < r.value :: !CanMove(chunks, fx, fy, targets[i].x, targets[i].y)
    ensures r.None? ==> forall i | k <= i < |targets| :: !CanMove(chunks, fx, fy, targets[i].x, targets[i].y)
    decreases |targets| - k
  {
    if k == |targets| then None
    else if CanMove(chunks, fx, fy, targets[k].x, targets[k].y) then Some(k)
    else FirstMovable(chunks, fx, fy, targets, k + 1)
  }

  /** The source's form: try one target; if it moved, stop, otherwise go on with the rest. */
  function Chain(chunks: ChunkMap, fx: int, fy: int, targets: seq<IVec2>): (r: (bool, ChunkMap))
    ensures r.1.Keys == chunks.Keys
    decreases |targets|
  {
    if targets == [] then (false, chunks)
    else
      var m := MoveAttempt(chunks, fx, fy, targets[0].x, targets[0].y);
      if m.0 then m else Chain(chunks, fx, fy, targets[1..])
  }

  /**
   * The chain performs exactly the move into the first target that can be
   * moved into, and changes nothing (reporting false) when there is none.
   */
  lemma {:induction false} ChainMovesFirstPossible(chunks: ChunkMap, fx: int, fy: int, targets: seq<IVec2>)
    ensures Chain(chunks, fx, fy, targets)
            == match FirstMovable(chunks, fx, fy, targets, 0)
               case None => (false, chunks)
               case Some(k) => MoveAttempt(chunks, fx, fy, targets[k].x, targets[k].y)
    decreases |targets|
  {
    if targets != [] {
      MoveAttemptRefused(chunks, fx, fy, targets[0].x, targets[0].y);
      ChainMovesFirstPossible(chunks, fx, fy, targets[1..]);
      if !CanMove(chunks, fx, fy, targets[0].x, targets[0].y) {
        FirstMovableShift(chunks, fx, fy, targets);
      }
    }
  }

  lemma FirstMovableShift(chunks: ChunkMap, fx: int, fy: int, targets: seq<IVec2>)
    requires targets != [] && !CanMove(chunks, fx, fy, targets[0].x, targets[0].y)
    ensures var rest := FirstMovable(chunks, fx, fy, targets[1..], 0);
            FirstMovable(chunks, fx, fy, targets, 0) == if rest.Some? then Some(rest.value + 1) else None
  {
    FirstMovableTail(chunks, fx, fy, targets, 0);
  }

  /** Searching `targets` from `k + 1` is searching its tail from `k`, one index further on. */
  lemma {:induction false} FirstMovableTail(chunks: ChunkMap, fx: int, fy: int, targets: seq<IVec2>, k: nat)
    requires k < |targets|
    ensures var rest := FirstMovable(chunks, fx, fy, targets[1..], k);
            FirstMovable(chunks, fx, fy, targets, k + 1) == if rest.Some? then Some(rest.value + 1) else None
    decreases |targets| - k
  {
    if k + 1 < |targets| {
      assert targets[1..][k] == targets[k + 1];
      FirstMovableTail(chunks, fx, fy, targets, k + 1);
    }
  }

  /** `update_powder`. */
  function UpdatePowder(chunks: ChunkMap, cp: IVec2, x: nat, y: nat, leftFirst: bool): (r: ChunkMap)
    ensures r.Keys == chunks.Keys
  {
    Chain(chunks, WorldX(cp, x), WorldY(cp, y), PowderTargets(WorldX(cp, x), WorldY(cp, y), leftFirst)).1
  }

  /** `update_liquid`. */
  function UpdateLiquid(chunks: ChunkMap, cp: IVec2, x: nat, y: nat, leftFirst: bool): (r: ChunkMap)
    ensures r.Keys == chunks.Keys
  {
    Chain(chunks, WorldX(cp, x), WorldY(cp, y), LiquidTargets(WorldX(cp, x), WorldY(cp, y), leftFirst)).1
  }

  /** `update_gas`. */
  function UpdateGas(chunks: ChunkMap, cp: IVec2, x: nat, y: nat, leftFirst: bool): (r: ChunkMap)
    ensures r.Keys == chunks.Keys
  {
    Chain(chunks, WorldX(cp, x), WorldY(cp, y), GasTargets(WorldX(cp, x), WorldY(cp, y), leftFirst)).1
  }

  // ---------------------------------------------------------------------
  // Fire

  /** Chance per visit that fire turns to smoke. */
  const SMOKE_CHANCE: real := 0.02

  /**
   * `update_fire` as written: heat the cell, move like a gas, then on a
   * successful roll write SMOKE at the fire's ORIGINAL coordinates, which
   * the move may already have vacated.
   */
  function UpdateFire(chunks: ChunkMap, cp: IVec2, x: nat, y: nat, leftFirst: bool, smokeRoll: real): (r: ChunkMap)
    requires InChunk(x, y)
    ensures r.Keys == chunks.Keys
  {
    var moved := UpdateGas(Chemistry.FireHeat(chunks, cp, x, y), cp, x, y, leftFirst);
    if smokeRoll < SMOKE_CHANCE then SetPixel(moved, WorldX(cp, x), WorldY(cp, y), M.SMOKE) else moved
  }

  /**
   * A fire pixel with open air straight above rises, and a successful smoke
   * roll then turns the vacated cell into SMOKE while the fire lives on one
   * cell higher: the roll does not end the fire.
   */
  lemma FireOutlivesSmokeRoll(chunks: ChunkMap, cp: IVec2, x: nat, y: nat, leftFirst: bool, smokeRoll: real)
    requires InChunk(x, y) && cp in chunks && PixelAt(chunks[cp], x, y).material == M.FIRE
    requires CanMove(chunks, WorldX(cp, x), WorldY(cp, y), WorldX(cp, x), WorldY(cp, y) + 1)
    requires smokeRoll < SMOKE_CHANCE
    ensures var wx, wy := WorldX(cp, x), WorldY(cp, y);
            var r := UpdateFire(chunks, cp, x, y, leftFirst, smokeRoll);
            GetPixel(r, wx, wy + 1) == Some(PixelAt(chunks[cp], x, y))
            && GetPixel(r, wx, wy) == Some(Pixel(M.SMOKE, 0))
  {
    var wx, wy := WorldX(cp, x), WorldY(cp, y);
    var up, moved := FireMove(chunks, cp, x, y, leftFirst);
    assert up == IVec2(wx, wy + 1);
    LocalRoundTrip(cp, x, y);
    SetPixelEffect(moved, wx, wy, M.SMOKE);
  }

  /** The heat-and-rise part of a fire visit, and the cell where the fire ends up. */
  lemma FireMove(chunks: ChunkMap, cp: IVec2, x: nat, y: nat, leftFirst: bool) returns (at: IVec2, moved: ChunkMap)
    requires InChunk(x, y) && cp in chunks
    ensures var wx, wy := WorldX(cp, x), WorldY(cp, y);
            moved == UpdateGas(Chemistry.FireHeat(chunks, cp, x, y), cp, x, y, leftFirst)
            && at == FireDestination(chunks, cp, x, y, leftFirst)
            && GetPixel(moved, at.x, at.y) == Some(PixelAt(chunks[cp], x, y))
            && (CanMove(chunks, wx, wy, wx, wy + 1) ==> at == IVec2(wx, wy + 1))
  {
    var wx, wy := WorldX(cp, x), WorldY(cp, y);
    var heated := Chemistry.FireHeat(chunks, cp, x, y);
    var ts := GasTargets(wx, wy, leftFirst);
    moved := UpdateGas(heated, cp, x, y, leftFirst);
    at := FireDestination(chunks, cp, x, y, leftFirst);
    LocalRoundTrip(cp, x, y);
    ChainMovesFirstPossible(heated, wx, wy, ts);
    assert forall i | 0 <= i < |ts| :: CanMove(heated, wx, wy, ts[i].x, ts[i].y) == CanMove(chunks, wx, wy, ts[i].x, ts[i].y);
    assert FirstMovable(heated, wx, wy, ts, 0) == FirstMovable(chunks, wx, wy, ts, 0) by {
      FirstMovableSame(heated, chunks, wx, wy, ts, 0);
    }
    match FirstMovable(chunks, wx, wy, ts, 0)
    case None =>
    case Some(k) =>
      MoveAttemptMoves(heated, wx, wy, ts[k].x, ts[k].y);
  }

  /** Two maps that agree on which moves are possible pick the same first target. */
  lemma {:induction false} FirstMovableSame(a: ChunkMap, b: ChunkMap, fx: int, fy: int, ts: seq<IVec2>, k: nat)
    requires k <= |ts|
    requires forall i | 0 <= i < |ts| :: CanMove(a, fx, fy, ts[i].x, ts[i].y) == CanMove(b, fx, fy, ts[i].x, ts[i].y)
    ensures FirstMovable(a, fx, fy, ts, k) == FirstMovable(b, fx, fy, ts, k)
    decreases |ts| - k
  {
    if k < |ts| {
      FirstMovableSame(a, b, fx, fy, ts, k + 1);
    }
  }

  /** The cell a fire pixel occupies after its gas move: the first open target, or where it was. */
  function FireDestination(chunks: ChunkMap, cp: IVec2, x: nat, y: nat, leftFirst: bool): IVec2
  {
    var wx, wy := WorldX(cp, x), WorldY(cp, y);
    var ts := GasTargets(wx, wy, leftFirst);
    match FirstMovable(chunks, wx, wy, ts, 0)
    case None => IVec2(wx, wy)
    case Some(k) => ts[k]
  }

  /** `update_fire` with the smoke written where the fire ended up, so a successful roll always ends the fire. */
  function UpdateFireCorrected(chunks: ChunkMap, cp: IVec2, x: nat, y: nat, leftFirst: bool, smokeRoll: real): (r: ChunkMap)
    requires InChunk(x, y)
    ensures r.Keys == chunks.Keys
  {
    var moved := UpdateGas(Chemistry.FireHeat(chunks, cp, x, y), cp, x, y, leftFirst);
    var at := FireDestination(chunks, cp, x, y, leftFirst);
    if smokeRoll < SMOKE_CHANCE then SetPixel(moved, at.x, at.y, M.SMOKE) else moved
  }

  /**
   * In the corrected fire step a successful roll turns the fire itself into
   * SMOKE wherever it moved, and a failed roll leaves the fire at its destination.
   */
  lemma UpdateFireCorrectedEndsFire(chunks: ChunkMap, cp: IVec2, x: nat, y: nat, leftFirst: bool, smokeRoll: real)
    requires InChunk(x, y) && cp in chunks
    ensures var at := FireDestination(chunks, cp, x, y, leftFirst);
            var r := UpdateFireCorrected(chunks, cp, x, y, leftFirst, smokeRoll);
            (smokeRoll < SMOKE_CHANCE ==> GetPixel(r, at.x, at.y) == Some(Pixel(M.SMOKE, 0)))
            && (smokeRoll >= SMOKE_CHANCE ==> GetPixel(r, at.x, at.y) == Some(PixelAt(chunks[cp], x, y)))
  {
    var at, moved := FireMove(chunks, cp, x, y, leftFirst);
    SetPixelEffect(moved, at.x, at.y, M.SMOKE);
  }

  // ---------------------------------------------------------------------
  // Reactions with neighbours

  /** Neighbour order of `check_pixel_reactions`: up, right, down, left. */
  const ReactionOffsets: seq<(int, int)> := [(0, 1), (1, 0), (0, -1), (-1, 0)]

  /**
   * Neighbour `k` of (wx, wy) reacts with material `mat`: it is loaded and
   * not empty, a reaction for the pair exists at this temperature, and the
   * roll for this neighbour falls under its probability.
   */
  predicate Reacts(chunks: ChunkMap, rs: seq<R.Reaction>, mat: U16, temp: real, wx: int, wy: int, roll: nat -> real, k: nat)
    requires k < 4
  {
    var n := GetPixel(chunks, Partner(wx, wy, k).0, Partner(wx, wy, k).1);
    n.Some? && !IsEmpty(n.value)
    && R.Find(rs, mat, n.value.material, temp).Some?
    && roll(k) < R.Find(rs, mat, n.value.material, temp).value.probability
  }

  /** Neighbour `k` of (wx, wy). */
  function Partner(wx: int, wy: int, k: nat): (int, int)
    requires k < 4
  {
    (wx + ReactionOffsets[k].0, wy + ReactionOffsets[k].1)
  }

  /** The outputs of the reaction with neighbour `k`: for the pixel, then for the neighbour. */
  function Outputs(chunks: ChunkMap, rs: seq<R.Reaction>, mat: U16, temp: real, wx: int, wy: int, roll: nat -> real, k: nat): (U16, U16)
    requires k < 4 && Reacts(chunks, rs, mat, temp, wx, wy, roll, k)
  {
    var nmat := GetPixel(chunks, Partner(wx, wy, k).0, Partner(wx, wy, k).1).value.material;
    R.GetOutputs(R.Find(rs, mat, nmat, temp).value, mat, nmat)
  }

  /** Writing a reaction's outputs: output A at (wx, wy), output B at neighbour `k`. */
  function Reacted(chunks: ChunkMap, rs: seq<R.Reaction>, mat: U16, temp: real, wx: int, wy: int, roll: nat -> real, k: nat): ChunkMap
    requires k < 4 && Reacts(chunks, rs, mat, temp, wx, wy, roll, k)
  {
    var out := Outputs(chunks, rs, mat, temp, wx, wy, roll, k);
    SetPixel(SetPixel(chunks, wx, wy, out.0), Partner(wx, wy, k).0, Partner(wx, wy, k).1, out.1)
  }

  /** The neighbour loop from `k` on: the first neighbour that reacts does so, and the loop stops. */
  function ReactFrom(chunks: ChunkMap, rs: seq<R.Reaction>, mat: U16, temp: real, wx: int, wy: int, roll: nat -> real, k: nat): (r: ChunkMap)
    requires k <= 4
    ensures r.Keys == chunks.Keys
    decreases 4 - k
  {
    if k == 4 then chunks
    else if Reacts(chunks, rs, mat, temp, wx, wy, roll, k) then Reacted(chunks, rs, mat, temp, wx, wy, roll, k)
    else ReactFrom(chunks, rs, mat, temp, wx, wy, roll, k + 1)
  }

  /** The first neighbour from `k` on that reacts. */
  function FirstReacting(chunks: ChunkMap, rs: seq<R.Reaction>, mat: U16, temp: real, wx: int, wy: int, roll: nat -> real, k: nat): (r: Option<nat>)
    requires k <= 4
    ensures r.Some? ==> k <= r.value < 4 && Reacts(chunks, rs, mat, temp, wx, wy, roll, r.value)
                        && forall i | k <= i < r.value :: !Reacts(chunks, rs, mat, temp, wx, wy, roll, i)
    ensures r.None? ==> forall i | k <= i < 4 :: !Reacts(chunks, rs, mat, temp, wx, wy, roll, i)
    decreases 4 - k
  {
    if k == 4 then None
    else if Reacts(chunks, rs, mat, temp, wx, wy, roll, k) then Some(k)
    else FirstReacting(chunks, rs, mat, temp, wx, wy, roll, k + 1)
  }

  /** The loop applies exactly the reaction with the first reacting neighbour, or nothing. */
  lemma {:induction false} ReactFromFirst(chunks: ChunkMap, rs: seq<R.Reaction>, mat: U16, temp: real, wx: int, wy: int, roll: nat -> real, k: nat)
    requires k <= 4
    ensures ReactFrom(chunks, rs, mat, temp, wx, wy, roll, k)
            == match FirstReacting(chunks, rs, mat, temp, wx, wy, roll, k)
               case None => chunks
               case Some(j) => Reacted(chunks, rs, mat, temp, wx, wy, roll, j)
    decreases 4 - k
  {
    if k < 4 {
      ReactFromFirst(chunks, rs, mat, temp, wx, wy, roll, k + 1);
    }
  }

  /** `check_pixel_reactions` at local (x, y) of chunk `cp`. */
  function CheckPixelReactions(chunks: ChunkMap, rs: seq<R.Reaction>, cp: IVec2, x: nat, y: nat, roll: nat -> real): (r: ChunkMap)
    requires InChunk(x, y)
    ensures r.Keys == chunks.Keys
  {
    if cp !in chunks then chunks
    else
      var p := PixelAt(chunks[cp], x, y);
      if IsEmpty(p) then chunks
      else ReactFrom(chunks, rs, p.material, Temperature.TemperatureAtPixel(chunks[cp], x, y), WorldX(cp, x), WorldY(cp, y), roll, 0)
  }

  /**
   * A reaction writes its two outputs, those of the first reaction listed
   * for the pair, and leaves every other pixel and the set of chunks alone.
   */
  lemma ReactedEffect(chunks: ChunkMap, rs: seq<R.Reaction>, mat: U16, temp: real, wx: int, wy: int, roll: nat -> real, k: nat)
    requires k < 4 && Reacts(chunks, rs, mat, temp, wx, wy, roll, k) && GetPixel(chunks, wx, wy).Some?
    ensures var nb := Partner(wx, wy, k);
            var out := Outputs(chunks, rs, mat, temp, wx, wy, roll, k);
            var r := Reacted(chunks, rs, mat, temp, wx, wy, roll, k);
            r.Keys == chunks.Keys
            && GetPixel(r, wx, wy) == Some(NewPixel(out.0))
            && GetPixel(r, nb.0, nb.1) == Some(NewPixel(out.1))
            && forall qx, qy | (qx != wx || qy != wy) && (qx != nb.0 || qy != nb.1) :: GetPixel(r, qx, qy) == GetPixel(chunks, qx, qy)
  {
    var nb := Partner(wx, wy, k);
    var out := Outputs(chunks, rs, mat, temp, wx, wy, roll, k);
    assert nb.0 != wx || nb.1 != wy;
    var s1 := SetPixel(chunks, wx, wy, out.0);
    SetPixelEffect(chunks, wx, wy, out.0);
    SetPixelEffect(s1, nb.0, nb.1, out.1);
  }

  /**
   * At most one reaction happens per visit: with the first neighbour that
   * reacts, the pixel becomes output A, that neighbour output B, and no
   * other pixel changes; without one, nothing changes.
   */
  lemma CheckPixelReactionsEffect(chunks: ChunkMap, rs: seq<R.Reaction>, cp: IVec2, x: nat, y: nat, roll: nat -> real)
    requires InChunk(x, y) && cp in chunks && !IsEmpty(PixelAt(chunks[cp], x, y))
    ensures var p := PixelAt(chunks[cp], x, y);
            var temp := Temperature.TemperatureAtPixel(chunks[cp], x, y);
            var wx, wy := WorldX(cp, x), WorldY(cp, y);
            var r := CheckPixelReactions(chunks, rs, cp, x, y, roll);
            match FirstReacting(chunks, rs, p.material, temp, wx, wy, roll, 0)
            case None => r == chunks
            case Some(j) => r == Reacted(chunks, rs, p.material, temp, wx, wy, roll, j)
  {
    var p := PixelAt(chunks[cp], x, y);
    var temp := Temperature.TemperatureAtPixel(chunks[cp], x, y);
    ReactFromFirst(chunks, rs, p.material, temp, WorldX(cp, x), WorldY(cp, y), roll, 0);
  }

  // ---------------------------------------------------------------------
  // One pixel visit

  /** The random draws of one pixel visit: the side coin, the smoke, burn and per-neighbour reaction rolls. */
  datatype PixelRolls = PixelRolls(leftFirst: bool, smokeRoll: real, burnRoll: real, reactionRoll: nat -> real)

  /** CA movement by material type; solids stay. */
  function Move(chunks: ChunkMap, t: M.MaterialType, cp: IVec2, x: nat, y: nat, leftFirst: bool): (r: ChunkMap)
    ensures r.Keys == chunks.Keys
  {
    match t
    case Powder => UpdatePowder(chunks, cp, x, y, leftFirst)
    case Liquid => UpdateLiquid(chunks, cp, x, y, leftFirst)
    case Gas => UpdateGas(chunks, cp, x, y, leftFirst)
    case Solid => chunks
  }

  /**
   * `update_pixel`: empty cells and unloaded chunks are skipped; fire runs
   * its own step; anything else may ignite (when not yet burning), burns
   * (when it was burning at the start of the visit), moves by its
   * material's type, then reacts with a neighbour from its original cell.
   */
  function UpdatePixel(chunks: ChunkMap, mats: seq<M.MaterialDef>, rs: seq<R.Reaction>, cp: IVec2, x: nat, y: nat, rolls: PixelRolls): (r: ChunkMap)
    requires InChunk(x, y) && |mats| > 0
    ensures r.Keys == chunks.Keys
  {
    if cp !in chunks then chunks
    else
      var p := PixelAt(chunks[cp], x, y);
      if IsEmpty(p) then chunks
      else if p.material == M.FIRE then UpdateFire(chunks, cp, x, y, rolls.leftFirst, rolls.smokeRoll)
      else
        var burning := p.flags & BURNING != 0;
        var s1 := if !burning then Chemistry.CheckIgnition(chunks, mats, cp, x, y) else chunks;
        var s2 := if burning then Chemistry.UpdateBurningMaterial(s1, mats, cp, x, y, rolls.burnRoll) else s1;
        var s3 := Move(s2, M.Lookup(mats, p.material).materialType, cp, x, y, rolls.leftFirst);
        CheckPixelReactions(s3, rs, cp, x, y, rolls.reactionRoll)
  }

  /** (qx, qy) lies in the 3x3 block centred on (wx, wy). */
  predicate Near(qx: int, qy: int, wx: int, wy: int)
  {
    wx - 1 <= qx <= wx + 1 && wy - 1 <= qy <= wy + 1
  }

  /** `b` has the chunks of `a` and differs from it only at pixels near (wx, wy). */
  ghost predicate OnlyNear(a: ChunkMap, b: ChunkMap, wx: int, wy: int)
  {
    b.Keys == a.Keys && forall qx, qy | !Near(qx, qy, wx, wy) :: GetPixel(b, qx, qy) == GetPixel(a, qx, qy)
  }

  lemma OnlyNearTrans(a: ChunkMap, b: ChunkMap, c: ChunkMap, wx: int, wy: int)
    requires OnlyNear(a, b, wx, wy) && OnlyNear(b, c, wx, wy)
    ensures OnlyNear(a, c, wx, wy)
  {
  }

  /** A chain of moves into neighbouring targets only touches the 3x3 block. */
  lemma ChainOnlyNear(chunks: ChunkMap, fx: int, fy: int, targets: seq<IVec2>)
    requires forall i | 0 <= i < |targets| :: Near(targets[i].x, targets[i].y, fx, fy)
    ensures OnlyNear(chunks, Chain(chunks, fx, fy, targets).1, fx, fy)
  {
    ChainMovesFirstPossible(chunks, fx, fy, targets);
    match FirstMovable(chunks, fx, fy, targets, 0)
    case None =>
    case Some(k) =>
      MoveAttemptMoves(chunks, fx, fy, targets[k].x, targets[k].y);
  }

  lemma MoveOnlyNear(chunks: ChunkMap, t: M.MaterialType, cp: IVec2, x: nat, y: nat, leftFirst: bool)
    ensures OnlyNear(chunks, Move(chunks, t, cp, x, y, leftFirst), WorldX(cp, x), WorldY(cp, y))
  {
    var wx, wy := WorldX(cp, x), WorldY(cp, y);
    match t
    case Powder => ChainOnlyNear(chunks, wx, wy, PowderTargets(wx, wy, leftFirst));
    case Liquid => ChainOnlyNear(chunks, wx, wy, LiquidTargets(wx, wy, leftFirst));
    case Gas => ChainOnlyNear(chunks, wx, wy, GasTargets(wx, wy, leftFirst));
    case Solid =>
  }

  lemma IgnitionOnlyNear(chunks: ChunkMap, mats: seq<M.MaterialDef>, cp: IVec2, x: nat, y: nat)
    requires InChunk(x, y) && |mats| > 0
    ensures OnlyNear(chunks, Chemistry.CheckIgnition(chunks, mats, cp, x, y), WorldX(cp, x), WorldY(cp, y))
  {
    var wx, wy := WorldX(cp, x), WorldY(cp, y);
    var r := Chemistry.CheckIgnition(chunks, mats, cp, x, y);
    Chemistry.CheckIgnitionEffect(chunks, mats, cp, x, y);
    forall qx, qy | !Near(qx, qy, wx, wy)
      ensures GetPixel(r, qx, qy) == GetPixel(chunks, qx, qy)
    {
      if GetPixel(r, qx, qy) != GetPixel(chunks, qx, qy) {
        Chemistry.FireSpotIsNeighbour(chunks, wx, wy, qx, qy);
      }
    }
  }

  lemma BurningOnlyNear(chunks: ChunkMap, mats: seq<M.MaterialDef>, cp: IVec2, x: nat, y: nat, roll: real)
    requires InChunk(x, y) && |mats| > 0
    ensures OnlyNear(chunks, Chemistry.UpdateBurningMaterial(chunks, mats, cp, x, y, roll), WorldX(cp, x), WorldY(cp, y))
  {
    if cp in chunks {
      Chemistry.UpdateBurningEffect(chunks, mats, cp, x, y, roll);
    }
  }

  lemma FireOnlyNear(chunks: ChunkMap, cp: IVec2, x: nat, y: nat, leftFirst: bool, smokeRoll: real)
    requires InChunk(x, y)
    ensures OnlyNear(chunks, UpdateFire(chunks, cp, x, y, leftFirst, smokeRoll), WorldX(cp, x), WorldY(cp, y))
  {
    var wx, wy := WorldX(cp, x), WorldY(cp, y);
    var heated := Chemistry.FireHeat(chunks, cp, x, y);
    ChainOnlyNear(heated, wx, wy, GasTargets(wx, wy, leftFirst));
    var moved := UpdateGas(heated, cp, x, y, leftFirst);
    SetPixelEffect(moved, wx, wy, M.SMOKE);
  }

  /** The fire's destination is one of its gas targets, all of which are next to it. */
  lemma FireDestinationNear(chunks: ChunkMap, cp: IVec2, x: nat, y: nat, leftFirst: bool)
    ensures var at := FireDestination(chunks, cp, x, y, leftFirst);
            Near(at.x, at.y, WorldX(cp, x), WorldY(cp, y))
  {
    var wx, wy := WorldX(cp, x), WorldY(cp, y);
    var ts := GasTargets(wx, wy, leftFirst);
    assert forall i | 0 <= i < |ts| :: Near(ts[i].x, ts[i].y, wx, wy);
  }

  lemma FireCorrectedOnlyNear(chunks: ChunkMap, cp: IVec2, x: nat, y: nat, leftFirst: bool, smokeRoll: real)
    requires InChunk(x, y)
    ensures OnlyNear(chunks, UpdateFireCorrected(chunks, cp, x, y, leftFirst, smokeRoll), WorldX(cp, x), WorldY(cp, y))
  {
    var wx, wy := WorldX(cp, x), WorldY(cp, y);
    var heated := Chemistry.FireHeat(chunks, cp, x, y);
    ChainOnlyNear(heated, wx, wy, GasTargets(wx, wy, leftFirst));
    var moved := UpdateGas(heated, cp, x, y, leftFirst);
    var at := FireDestination(chunks, cp, x, y, leftFirst);
    FireDestinationNear(chunks, cp, x, y, leftFirst);
    SetPixelEffect(moved, at.x, at.y, M.SMOKE);
  }

  lemma ReactionsOnlyNear(chunks: ChunkMap, rs: seq<R.Reaction>, cp: IVec2, x: nat, y: nat, roll: nat -> real)
    requires InChunk(x, y)
    ensures OnlyNear(chunks, CheckPixelReactions(chunks, rs, cp, x, y, roll), WorldX(cp, x), WorldY(cp, y))
  {
    if cp in chunks && !IsEmpty(PixelAt(chunks[cp], x, y)) {
      var p := PixelAt(chunks[cp], x, y);
      var temp := Temperature.TemperatureAtPixel(chunks[cp], x, y);
      var wx, wy := WorldX(cp, x), WorldY(cp, y);
      CheckPixelReactionsEffect(chunks, rs, cp, x, y, roll);
      match FirstReacting(chunks, rs, p.material, temp, wx, wy, roll, 0)
      case None =>
      case Some(j) =>
        LocalRoundTrip(cp, x, y);
        ReactedEffect(chunks, rs, p.material, temp, wx, wy, roll, j);
    }
  }

  /** A pixel visit changes no pixel outside the 3x3 block around it, and keeps the set of chunks. */
  lemma UpdatePixelOnlyNear(chunks: ChunkMap, mats: seq<M.MaterialDef>, rs: seq<R.Reaction>, cp: IVec2, x: nat, y: nat, rolls: PixelRolls)
    requires InChunk(x, y) && |mats| > 0
    ensures OnlyNear(chunks, UpdatePixel(chunks, mats, rs, cp, x, y, rolls), WorldX(cp, x), WorldY(cp, y))
  {
    var wx, wy := WorldX(cp, x), WorldY(cp, y);
    if cp in chunks {
      var p := PixelAt(chunks[cp], x, y);
      if !IsEmpty(p) {
        if p.material == M.FIRE {
          FireOnlyNear(chunks, cp, x, y, rolls.leftFirst, rolls.smokeRoll);
        } else {
          var burning := p.flags & BURNING != 0;
          var s1 := if !burning then Chemistry.CheckIgnition(chunks, mats, cp, x, y) else chunks;
          var s2 := if burning then Chemistry.UpdateBurningMaterial(s1, mats, cp, x, y, rolls.burnRoll) else s1;
          var s3 := Move(s2, M.Lookup(mats, p.material).materialType, cp, x, y, rolls.leftFirst);
          if !burning { IgnitionOnlyNear(chunks, mats, cp, x, y); }
          if burning { BurningOnlyNear(s1, mats, cp, x, y, rolls.burnRoll); }
          OnlyNearTrans(chunks, s1, s2, wx, wy);
          MoveOnlyNear(s2, M.Lookup(mats, p.material).materialType, cp, x, y, rolls.leftFirst);
          OnlyNearTrans(chunks, s2, s3, wx, wy);
          ReactionsOnlyNear(s3, rs, cp, x, y, rolls.reactionRoll);
          OnlyNearTrans(chunks, s3, UpdatePixel(chunks, mats, rs, cp, x, y, rolls), wx, wy);
        }
      }
    }
  }

  // ---------------------------------------------------------------------
  // The chunk pass

  /** The column of step `i` of row `y`: even rows go left to right, odd rows right to left. */
  function RowCell(y: nat, i: nat): (x: nat)
    requires i < CHUNK_SIZE
    ensures x < CHUNK_SIZE
  {
    if y % 2 == 0 then i else CHUNK_SIZE - 1 - i
  }

  /** A row's steps visit each of its 64 columns exactly once. */
  lemma RowCellBijection(y: nat, i: nat, j: nat, x: nat)
    requires i < CHUNK_SIZE && j < CHUNK_SIZE && x < CHUNK_SIZE
    ensures RowCell(y, i) == RowCell(y, j) ==> i == j
    ensures RowCell(y, RowCell(y, x)) == x
  {
  }

  /**
   * The `k`-th cell visited by `update_chunk_ca`: rows from the bottom up,
   * even rows left to right and odd rows right to left.
   */
  function ScanCell(k: nat): (c: (nat, nat))
    requires k < CHUNK_AREA
    ensures InChunk(c.0, c.1)
  {
    (RowCell(k / CHUNK_SIZE, k % CHUNK_SIZE), k / CHUNK_SIZE)
  }

  /** The visit number of cell (x, y). */
  function ScanIndex(x: nat, y: nat): (k: nat)
    requires InChunk(x, y)
    ensures k < CHUNK_AREA
  {
    y * CHUNK_SIZE + RowCell(y, x)
  }

  /** Step `i` of row `y` is the `y * 64 + i`-th visit. */
  lemma ScanCellOfRow(y: nat, i: nat)
    requires y < CHUNK_SIZE && i < CHUNK_SIZE
    ensures y * CHUNK_SIZE + i < CHUNK_AREA
    ensures ScanCell(y * CHUNK_SIZE + i) == (RowCell(y, i), y)
  {
    var k := y * CHUNK_SIZE + i;
    assert k / CHUNK_SIZE == y && k % CHUNK_SIZE == i by {
      DivUnique(k, k / CHUNK_SIZE, k % CHUNK_SIZE, y, i);
    }
  }

  /** The scan visits every cell of the chunk exactly once: ScanCell and ScanIndex are inverse. */
  lemma ScanIsBijection(k: nat, x: nat, y: nat)
    requires k < CHUNK_AREA && InChunk(x, y)
    ensures ScanIndex(ScanCell(k).0, ScanCell(k).1) == k
    ensures ScanCell(ScanIndex(x, y)) == (x, y)
  {
    assert k == (k / CHUNK_SIZE) * CHUNK_SIZE + k % CHUNK_SIZE;
    ScanCellOfRow(y, RowCell(y, x));
  }

  /** Rows are visited from the bottom up, so a later visit is never on a lower row. */
  lemma ScanBottomUp(j: nat, k: nat)
    requires j <= k < CHUNK_AREA
    ensures ScanCell(j).1 <= ScanCell(k).1
  {
  }

  /** The random draws of a pass over one chunk, one set per visited cell (x, y). */
  type CellRolls = (nat, nat) -> PixelRolls

  /** The world after the first `i` steps of row `y` of chunk `cp`, from `chunks`. */
  function RowPass(chunks: ChunkMap, mats: seq<M.MaterialDef>, rs: seq<R.Reaction>, cp: IVec2, rolls: CellRolls, y: nat, i: nat): (r: ChunkMap)
    requires |mats| > 0 && y < CHUNK_SIZE && i <= CHUNK_SIZE
  {
    if i == 0 then chunks
    else
      var x := RowCell(y, i - 1);
      UpdatePixel(RowPass(chunks, mats, rs, cp, rolls, y, i - 1), mats, rs, cp, x, y, rolls(x, y))
  }

  /** The world after the bottom `n` rows of chunk `cp`; `CAPass(.., CHUNK_SIZE)` is the whole `update_chunk_ca`. */
  function CAPass(chunks: ChunkMap, mats: seq<M.MaterialDef>, rs: seq<R.Reaction>, cp: IVec2, rolls: CellRolls, n: nat): (r: ChunkMap)
    requires |mats| > 0 && n <= CHUNK_SIZE
  {
    if n == 0 then chunks
    else RowPass(CAPass(chunks, mats, rs, cp, rolls, n - 1), mats, rs, cp, rolls, n - 1, CHUNK_SIZE)
  }

  /** (qx, qy) lies in chunk `cp` or in the one-pixel ring around it. */
  predicate NearChunk(qx: int, qy: int, cp: IVec2)
  {
    cp.x * CHUNK_SIZE - 1 <= qx <= cp.x * CHUNK_SIZE + CHUNK_SIZE && cp.y * CHUNK_SIZE - 1 <= qy <= cp.y * CHUNK_SIZE + CHUNK_SIZE
  }

  /** A pixel visit in chunk `cp` leaves a pixel away from the chunk alone. */
  lemma UpdatePixelKeepsFarPixel(chunks: ChunkMap, mats: seq<M.MaterialDef>, rs: seq<R.Reaction>, cp: IVec2, x: nat, y: nat, rolls: PixelRolls, qx: int, qy: int)
    requires InChunk(x, y) && |mats| > 0 && !NearChunk(qx, qy, cp)
    ensures GetPixel(UpdatePixel(chunks, mats, rs, cp, x, y, rolls), qx, qy) == GetPixel(chunks, qx, qy)
  {
    UpdatePixelOnlyNear(chunks, mats, rs, cp, x, y, rolls);
    assert !Near(qx, qy, WorldX(cp, x), WorldY(cp, y));
  }

  lemma {:induction false} RowPassKeepsFarPixel(chunks: ChunkMap, mats: seq<M.MaterialDef>, rs: seq<R.Reaction>, cp: IVec2, rolls: CellRolls, y: nat, i: nat, qx: int, qy: int)
    requires |mats| > 0 && y < CHUNK_SIZE && i <= CHUNK_SIZE && !NearChunk(qx, qy, cp)
    ensures GetPixel(RowPass(chunks, mats, rs, cp, rolls, y, i), qx, qy) == GetPixel(chunks, qx, qy)
    decreases i
  {
    if i > 0 {
      RowPassKeepsFarPixel(chunks, mats, rs, cp, rolls, y, i - 1, qx, qy);
      var x := RowCell(y, i - 1);
      UpdatePixelKeepsFarPixel(RowPass(chunks, mats, rs, cp, rolls, y, i - 1), mats, rs, cp, x, y, rolls(x, y), qx, qy);
    }
  }

  lemma {:induction false} CAPassKeepsFarPixel(chunks: ChunkMap, mats: seq<M.MaterialDef>, rs: seq<R.Reaction>, cp: IVec2, rolls: CellRolls, n: nat, qx: int, qy: int)
    requires |mats| > 0 && n <= CHUNK_SIZE && !NearChunk(qx, qy, cp)
    ensures GetPixel(CAPass(chunks, mats, rs, cp, rolls, n), qx, qy) == GetPixel(chunks, qx, qy)
    decreases n
  {
    if n > 0 {
      CAPassKeepsFarPixel(chunks, mats, rs, cp, rolls, n - 1, qx, qy);
      CAPassRowKeepsFarPixel(chunks, mats, rs, cp, rolls, n, qx, qy);
    }
  }

  lemma CAPassRowKeepsFarPixel(chunks: ChunkMap, mats: seq<M.MaterialDef>, rs: seq<R.Reaction>, cp: IVec2, rolls: CellRolls, n: nat, qx: int, qy: int)
    requires |mats| > 0 && 0 < n <= CHUNK_SIZE && !NearChunk(qx, qy, cp)
    ensures GetPixel(CAPass(chunks, mats, rs, cp, rolls, n), qx, qy) == GetPixel(CAPass(chunks, mats, rs, cp, rolls, n - 1), qx, qy)
  {
    RowPassKeepsFarPixel(CAPass(chunks, mats, rs, cp, rolls, n - 1), mats, rs, cp, rolls, n - 1, CHUNK_SIZE, qx, qy);
  }

  /**
   * Updating a chunk changes no pixel outside the chunk and the one-pixel
   * ring around it, and loads or drops no chunk.
   */
  lemma CAPassStaysNearChunk(chunks: ChunkMap, mats: seq<M.MaterialDef>, rs: seq<R.Reaction>, cp: IVec2, rolls: CellRolls)
    requires |mats| > 0
    ensures CAPass(chunks, mats, rs, cp, rolls, CHUNK_SIZE).Keys == chunks.Keys
    ensures forall qx, qy | !NearChunk(qx, qy, cp) :: GetPixel(CAPass(chunks, mats, rs, cp, rolls, CHUNK_SIZE), qx, qy) == GetPixel(chunks, qx, qy)
  {
    CAPassKeepsChunks(chunks, mats, rs, cp, rolls, CHUNK_SIZE);
    forall qx, qy | !NearChunk(qx, qy, cp)
      ensures GetPixel(CAPass(chunks, mats, rs, cp, rolls, CHUNK_SIZE), qx, qy) == GetPixel(chunks, qx, qy)
    {
      CAPassKeepsFarPixel(chunks, mats, rs, cp, rolls, CHUNK_SIZE, qx, qy);
    }
  }

  lemma {:induction false} RowPassUnloaded(chunks: ChunkMap, mats: seq<M.MaterialDef>, rs: seq<R.Reaction>, cp: IVec2, rolls: CellRolls, y: nat, i: nat)
    requires |mats| > 0 && y < CHUNK_SIZE && i <= CHUNK_SIZE && cp !in chunks
    ensures RowPass(chunks, mats, rs, cp, rolls, y, i) == chunks
    decreases i
  {
    if i > 0 {
      RowPassUnloaded(chunks, mats, rs, cp, rolls, y, i - 1);
    }
  }

  /** A pass over a chunk that is not loaded changes nothing. */
  lemma {:induction false} CAPassUnloaded(chunks: ChunkMap, mats: seq<M.MaterialDef>, rs: seq<R.Reaction>, cp: IVec2, rolls: CellRolls, n: nat)
    requires |mats| > 0 && n <= CHUNK_SIZE && cp !in chunks
    ensures CAPass(chunks, mats, rs, cp, rolls, n) == chunks
    decreases n
  {
    if n > 0 {
      CAPassUnloaded(chunks, mats, rs, cp, rolls, n - 1);
      CAPassRowUnloaded(chunks, mats, rs, cp, rolls, n);
    }
  }

  lemma CAPassRowUnloaded(chunks: ChunkMap, mats: seq<M.MaterialDef>, rs: seq<R.Reaction>, cp: IVec2, rolls: CellRolls, n: nat)
    requires |mats| > 0 && 0 < n <= CHUNK_SIZE && cp !in chunks && CAPass(chunks, mats, rs, cp, rolls, n - 1) == chunks
    ensures CAPass(chunks, mats, rs, cp, rolls, n) == chunks
  {
    RowPassUnloaded(chunks, mats, rs, cp, rolls, n - 1, CHUNK_SIZE);
  }

  lemma {:induction false} RowPassKeepsChunks(chunks: ChunkMap, mats: seq<M.MaterialDef>, rs: seq<R.Reaction>, cp: IVec2, rolls: CellRolls, y: nat, i: nat)
    requires |mats| > 0 && y < CHUNK_SIZE && i <= CHUNK_SIZE
    ensures RowPass(chunks, mats, rs, cp, rolls, y, i).Keys == chunks.Keys
    decreases i
  {
    if i > 0 {
      RowPassKeepsChunks(chunks, mats, rs, cp, rolls, y, i - 1);
    }
  }

  /** A pass loads and drops no chunk. */
  lemma {:induction false} CAPassKeepsChunks(chunks: ChunkMap, mats: seq<M.MaterialDef>, rs: seq<R.Reaction>, cp: IVec2, rolls: CellRolls, n: nat)
    requires |mats| > 0 && n <= CHUNK_SIZE
    ensures CAPass(chunks, mats, rs, cp, rolls, n).Keys == chunks.Keys
    decreases n
  {
    if n > 0 {
      CAPassKeepsChunks(chunks, mats, rs, cp, rolls, n - 1);
      RowPassKeepsChunks(CAPass(chunks, mats, rs, cp, rolls, n - 1), mats, rs, cp, rolls, n - 1, CHUNK_SIZE);
    }
  }

  // ---------------------------------------------------------------------
  // A simulation step over the active chunks

  /** Phase 1: clear the UPDATED flag of every pixel in each loaded active chunk. */
  function ClearPhase(chunks: ChunkMap, active: seq<IVec2>): (r: ChunkMap)
    ensures r.Keys == chunks.Keys
    decreases |active|
  {
    if active == [] then chunks
    else
      var before := ClearPhase(chunks, active[..|active| - 1]);
      var pos := active[|active| - 1];
      if pos in before then before[pos := ClearedFlags(before[pos])] else before
  }

  /** Clearing flags changes no pixel's material, and leaves the UPDATED bit clear in every active chunk. */
  lemma {:induction false} ClearPhaseKeepsMaterials(chunks: ChunkMap, active: seq<IVec2>)
    ensures var r := ClearPhase(chunks, active);
            forall p, i | p in chunks && 0 <= i < CHUNK_AREA :: r[p].pixels[i].material == chunks[p].pixels[i].material
    ensures var r := ClearPhase(chunks, active);
            forall p, i | p in chunks && p in active && 0 <= i < CHUNK_AREA :: r[p].pixels[i].flags & UPDATED == 0
    decreases |active|
  {
    if active != [] {
      var before := ClearPhase(chunks, active[..|active| - 1]);
      var pos := active[|active| - 1];
      ClearPhaseKeepsMaterials(chunks, active[..|active| - 1]);
      if pos in before {
        ClearedFlagsKeepsRest(before[pos]);
      }
      forall p | p in active ensures p in active[..|active| - 1] || p == pos {
        var j :| 0 <= j < |active| && active[j] == p;
        if j < |active| - 1 { assert active[..|active| - 1][j] == p; }
      }
    }
  }

  /** Phase 2: the CA pass over the first `n` active chunks in list order; `rolls(i)` drives the `i`-th. */
  function CAPhase(chunks: ChunkMap, mats: seq<M.MaterialDef>, rs: seq<R.Reaction>, active: seq<IVec2>, rolls: nat -> CellRolls, n: nat): (r: ChunkMap)
    requires |mats| > 0 && n <= |active|
  {
    if n == 0 then chunks
    else CAPass(CAPhase(chunks, mats, rs, active, rolls, n - 1), mats, rs, active[n - 1], rolls(n - 1), CHUNK_SIZE)
  }

  lemma ClearPhaseNext(chunks: ChunkMap, active: seq<IVec2>, i: nat)
    requires i < |active|
    ensures var before := ClearPhase(chunks, active[..i]);
            ClearPhase(chunks, active[..i + 1])
            == if active[i] in before then before[active[i] := ClearedFlags(before[active[i]])] else before
  {
    assert active[..i + 1][..i] == active[..i];
  }

  lemma CAPhaseNext(chunks: ChunkMap, mats: seq<M.MaterialDef>, rs: seq<R.Reaction>, active: seq<IVec2>, rolls: nat -> CellRolls, i: nat)
    requires |mats| > 0 && i < |active|
    ensures CAPhase(chunks, mats, rs, active, rolls, i + 1)
            == CAPass(CAPhase(chunks, mats, rs, active, rolls, i), mats, rs, active[i], rolls(i), CHUNK_SIZE)
  {
  }
  /** The CA phase loads and drops no chunk. */
  lemma {:induction false} CAPhaseKeepsChunks(chunks: ChunkMap, mats: seq<M.MaterialDef>, rs: seq<R.Reaction>, active: seq<IVec2>, rolls: nat -> CellRolls, n: nat)
    requires |mats| > 0 && n <= |active|
    ensures CAPhase(chunks, mats, rs, active, rolls, n).Keys == chunks.Keys
    decreases n
  {
    if n > 0 {
      CAPhaseKeepsChunks(chunks, mats, rs, active, rolls, n - 1);
      CAPassKeepsChunks(CAPhase(chunks, mats, rs, active, rolls, n - 1), mats, rs, active[n - 1], rolls(n - 1), CHUNK_SIZE);
    }
  }


  /** (qx, qy) is outside every one of the first `n` active chunks and their one-pixel rings. */
  predicate FarFromActive(qx: int, qy: int, active: seq<IVec2>, n: nat)
    requires n <= |active|
  {
    forall i | 0 <= i < n :: !NearChunk(qx, qy, active[i])
  }

  /** One pixel away from every active chunk keeps its value through the first `n` chunk passes. */
  lemma {:induction false} CAPhaseKeepsFarPixel(chunks: ChunkMap, mats: seq<M.MaterialDef>, rs: seq<R.Reaction>, active: seq<IVec2>, rolls: nat -> CellRolls, n: nat, qx: int, qy: int)
    requires |mats| > 0 && n <= |active| && FarFromActive(qx, qy, active, n)
    ensures GetPixel(CAPhase(chunks, mats, rs, active, rolls, n), qx, qy) == GetPixel(chunks, qx, qy)
    decreases n
  {
    if n > 0 {
      assert FarFromActive(qx, qy, active, n - 1);
      CAPhaseKeepsFarPixel(chunks, mats, rs, active, rolls, n - 1, qx, qy);
      assert !NearChunk(qx, qy, active[n - 1]);
      CAPhaseStepKeepsFarPixel(chunks, mats, rs, active, rolls, n - 1, qx, qy);
    }
  }

  lemma CAPhaseStepKeepsFarPixel(chunks: ChunkMap, mats: seq<M.MaterialDef>, rs: seq<R.Reaction>, active: seq<IVec2>, rolls: nat -> CellRolls, i: nat, qx: int, qy: int)
    requires |mats| > 0 && i < |active| && !NearChunk(qx, qy, active[i])
    ensures GetPixel(CAPhase(chunks, mats, rs, active, rolls, i + 1), qx, qy) == GetPixel(CAPhase(chunks, mats, rs, active, rolls, i), qx, qy)
  {
    CAPassKeepsFarPixel(CAPhase(chunks, mats, rs, active, rolls, i), mats, rs, active[i], rolls(i), CHUNK_SIZE, qx, qy);
    CAPhaseNext(chunks, mats, rs, active, rolls, i);
  }

  /** The pixels a step can change all lie in or right beside an active chunk. */
  lemma CAPhaseStaysNearActive(chunks: ChunkMap, mats: seq<M.MaterialDef>, rs: seq<R.Reaction>, active: seq<IVec2>, rolls: nat -> CellRolls, n: nat)
    requires |mats| > 0 && n <= |active|
    ensures forall qx, qy | FarFromActive(qx, qy, active, n) ::
              GetPixel(CAPhase(chunks, mats, rs, active, rolls, n), qx, qy) == GetPixel(chunks, qx, qy)
  {
    forall qx, qy | FarFromActive(qx, qy, active, n)
      ensures GetPixel(CAPhase(chunks, mats, rs, active, rolls, n), qx, qy) == GetPixel(chunks, qx, qy)
    {
      CAPhaseKeepsFarPixel(chunks, mats, rs, active, rolls, n, qx, qy);
    }
  }

  /** Simulation steps per second. */
  const FIXED_TIMESTEP: real := 1.0 / 60.0

  /** How many fixed steps `update` runs for an accumulated time `acc`. */
  function StepsFor(acc: real): nat
    decreases if acc < FIXED_TIMESTEP then 0 else (acc * 60.0).Floor
  {
    if acc < FIXED_TIMESTEP then 0 else 1 + StepsFor(acc - FIXED_TIMESTEP)
  }

  lemma StepsForNext(acc: real)
    requires acc >= FIXED_TIMESTEP
    ensures StepsFor(acc) == 1 + StepsFor(acc - FIXED_TIMESTEP)
    ensures 0 <= ((acc - FIXED_TIMESTEP) * 60.0).Floor < (acc * 60.0).Floor
  {
  }

  /** `n` whole timesteps fit in `acc` and the next one does not: exactly `n` steps run. */
  lemma {:induction false} StepsForCount(acc: real, n: nat)
    requires (n == 0 || n as real * FIXED_TIMESTEP <= acc) && acc < (n + 1) as real * FIXED_TIMESTEP
    ensures StepsFor(acc) == n
    decreases n
  {
    if n > 0 {
      StepsForCount(acc - FIXED_TIMESTEP, n - 1);
    }
  }

  /** After the steps, what is left of a non-negative accumulator is less than one timestep. */
  lemma {:induction false} StepsForLeavesRemainder(acc: real)
    requires acc >= 0.0
    ensures 0.0 <= acc - StepsFor(acc) as real * FIXED_TIMESTEP < FIXED_TIMESTEP
    decreases if acc < FIXED_TIMESTEP then 0 else (acc * 60.0).Floor
  {
    if acc >= FIXED_TIMESTEP {
      StepsForLeavesRemainder(acc - FIXED_TIMESTEP);
    }
  }

  /** The step count is the number of whole timesteps in the accumulator. */
  lemma {:induction false} StepsForIsWholeSteps(acc: real)
    requires acc >= 0.0
    ensures StepsFor(acc) == (acc * 60.0).Floor
  {
    StepsForLeavesRemainder(acc);
    var n := StepsFor(acc);
    assert n as real <= acc * 60.0 < n as real + 1.0;
  }

  /** The chunk the player stands in, as `add_chunk` computes it: truncating casts and division. */
  function PlayerChunk(px: real, py: real): IVec2
  {
    IVec2(TruncDiv(RealToI32(px), CHUNK_SIZE), TruncDiv(RealToI32(py), CHUNK_SIZE))
  }

  /** `pos` is within Chebyshev distance 2 of the player's chunk. */
  predicate NearPlayer(pos: IVec2, px: real, py: real)
  {
    Abs(pos.x - PlayerChunk(px, py).x) <= 2 && Abs(pos.y - PlayerChunk(px, py).y) <= 2
  }

  predicate NoDuplicates(s: seq<IVec2>)
  {
    forall i, j | 0 <= i < j < |s| :: s[i] != s[j]
  }

  // ---------------------------------------------------------------------
  // The scan loops, on chunk-map values

  /**
   * `update_chunk_ca` on a chunk-map value: the rows of chunk `cp`, bottom
   * to top; `World.UpdateChunkCA` stores the result back.
   */
  method ScanChunk(mats: seq<M.MaterialDef>, rs: seq<R.Reaction>, cp: IVec2, rolls: CellRolls, c0: ChunkMap) returns (c: ChunkMap)
    requires |mats| > 0
    ensures c == CAPass(c0, mats, rs, cp, rolls, CHUNK_SIZE)
  {
    c := c0;
    for y := 0 to CHUNK_SIZE
      invariant c == CAPass(c0, mats, rs, cp, rolls, y)
    {
      c := UpdateRow(mats, rs, cp, rolls, y, c);
    }
  }

  /** Row `y` of the scan: left to right when `y` is even, right to left when odd. */
  method UpdateRow(mats: seq<M.MaterialDef>, rs: seq<R.Reaction>, cp: IVec2, rolls: CellRolls, y: nat, c0: ChunkMap) returns (c: ChunkMap)
    requires |mats| > 0 && y < CHUNK_SIZE
    ensures c == RowPass(c0, mats, rs, cp, rolls, y, CHUNK_SIZE)
  {
    c := c0;
    for i := 0 to CHUNK_SIZE
      invariant c == RowPass(c0, mats, rs, cp, rolls, y, i)
    {
      var x := RowCell(y, i);
      c := UpdatePixel(c, mats, rs, cp, x, y, rolls(x, y));
    }
  }

  /** The CA pass over each active chunk in turn, starting from the chunk map `c0`. */
  method PassActiveChunks(mats: seq<M.MaterialDef>, rs: seq<R.Reaction>, active: seq<IVec2>, rolls: nat -> CellRolls, c0: ChunkMap)
    returns (c: ChunkMap)
    requires |mats| > 0
    ensures c == CAPhase(c0, mats, rs, active, rolls, |active|)
  {
    c := c0;
    for i := 0 to |active|
      invariant c == CAPhase(c0, mats, rs, active, rolls, i)
    {
      c := PassActiveChunk(mats, rs, active, c0, rolls, i, c);
    }
  }

  /** The pass over the `i`-th active chunk, continuing the phase. */
  method PassActiveChunk(mats: seq<M.MaterialDef>, rs: seq<R.Reaction>, active: seq<IVec2>, ghost start: ChunkMap, rolls: nat -> CellRolls, i: nat, c0: ChunkMap)
    returns (c: ChunkMap)
    requires |mats| > 0 && i < |active|
    requires c0 == CAPhase(start, mats, rs, active, rolls, i)
    ensures c == CAPhase(start, mats, rs, active, rolls, i + 1)
  {
    CAPhaseNext(start, mats, rs, active, rolls, i);
    c := ScanChunk(mats, rs, active[i], rolls(i), c0);
  }

  /**
   * The chunks after one `step_simulation` from `chunks` when the
   * temperature simulator's counter stands at `counter`: clear flags, run
   * the CA pass over the active chunks, then diffuse if the counter was 1.
   */
  ghost function SimulationStep(chunks: ChunkMap, mats: seq<M.MaterialDef>, rs: seq<R.Reaction>, active: seq<IVec2>, rolls: nat -> CellRolls, counter: nat): ChunkMap
    requires |mats| > 0
  {
    var moved := CAPhase(ClearPhase(chunks, active), mats, rs, active, rolls, |active|);
    if counter == 1 then Temperature.DiffuseAll(moved, active) else moved
  }

  /** `n` simulation steps in a row; step `k` draws from `rolls(k)` and finds the counter at `(counter + k) % 2`. */
  ghost function SimulationSteps(chunks: ChunkMap, mats: seq<M.MaterialDef>, rs: seq<R.Reaction>, active: seq<IVec2>, rolls: nat -> nat -> CellRolls, counter: nat, n: nat): ChunkMap
    requires |mats| > 0
    decreases n
  {
    if n == 0 then chunks
    else SimulationStep(SimulationSteps(chunks, mats, rs, active, rolls, counter, n - 1), mats, rs, active, rolls(n - 1), (counter + n - 1) % 2)
  }

  lemma SimulationStepsNext(chunks: ChunkMap, mats: seq<M.MaterialDef>, rs: seq<R.Reaction>, active: seq<IVec2>, rolls: nat -> nat -> CellRolls, counter: nat, n: nat, before: ChunkMap, after: ChunkMap)
    requires |mats| > 0
    requires before == SimulationSteps(chunks, mats, rs, active, rolls, counter, n)
    requires after == SimulationStep(before, mats, rs, active, rolls(n), (counter + n) % 2)
    ensures after == SimulationSteps(chunks, mats, rs, active, rolls, counter, n + 1)
  {
  }

  // ---------------------------------------------------------------------
  // The world object

  class World {
    var chunks: ChunkMap
    var materials: seq<M.MaterialDef>
    var reactions: seq<R.Reaction>
    var temperatureSim: Temperature.TemperatureSimulator
    var playerX: real
    var playerY: real
    var activeChunks: seq<IVec2>
    var timeAccumulator: real

    /** Active chunks are loaded and listed once, and the material table is never empty. */
    ghost predicate Valid()
      reads this, temperatureSim
    {
      temperatureSim.Valid() && |materials| > 0
      && NoDuplicates(activeChunks)
      && forall i | 0 <= i < |activeChunks| :: activeChunks[i] in chunks
    }

    /** The parts of the world a pixel operation does not touch. */
    ghost function Settings(): (seq<M.MaterialDef>, seq<R.Reaction>, Temperature.TemperatureSimulator, real, real, real)
      reads this
    {
      (materials, reactions, temperatureSim, playerX, playerY, timeAccumulator)
    }

    /** `World::new` without the generated test terrain. */
    constructor ()
      ensures Valid() && fresh(temperatureSim) && temperatureSim.updateCounter == 0
      ensures chunks == map[] && activeChunks == []
      ensures materials == M.DefaultDefs() && reactions == R.DefaultReactions()
      ensures playerX == 0.0 && playerY == 100.0 && timeAccumulator == 0.0
    {
      chunks := map[];
      materials := M.DefaultDefs();
      reactions := R.DefaultReactions();
      temperatureSim := new Temperature.TemperatureSimulator();
      playerX, playerY := 0.0, 100.0;
      activeChunks := [];
      timeAccumulator := 0.0;
    }

    /** `World::set_pixel`: a fresh pixel of material `m` at a world position; unloaded chunks are ignored. */
    method SetPixel(wx: int, wy: int, m: U16)
      requires Valid()
      modifies this
      ensures Valid() && Settings() == old(Settings()) && activeChunks == old(activeChunks)
      ensures chunks == WorldGrid.SetPixel(old(chunks), wx, wy, m)
    {
      chunks := WorldGrid.SetPixel(chunks, wx, wy, m);
    }

    /** `World::try_move_world`. */
    method TryMoveWorld(fx: int, fy: int, tx: int, ty: int) returns (moved: bool)
      requires Valid()
      modifies this
      ensures Valid() && Settings() == old(Settings()) && activeChunks == old(activeChunks)
      ensures (moved, chunks) == MoveAttempt(old(chunks), fx, fy, tx, ty)
    {
      var r := MoveAttempt(chunks, fx, fy, tx, ty);
      moved, chunks := r.0, r.1;
    }

    /** `update_chunk_ca`: the serpentine bottom-up scan of chunk `cp`, one pixel visit per cell. */
    method UpdateChunkCA(cp: IVec2, rolls: CellRolls)
      requires Valid()
      modifies this`chunks
      ensures Valid() && Settings() == old(Settings()) && activeChunks == old(activeChunks)
      ensures chunks == CAPass(old(chunks), materials, reactions, cp, rolls, CHUNK_SIZE)
    {
      CAPassKeepsChunks(chunks, materials, reactions, cp, rolls, CHUNK_SIZE);
      chunks := ScanChunk(materials, reactions, cp, rolls, chunks);
    }

    /** Phase 1 of `step_simulation`: clear the UPDATED flags of the active chunks. */
    method ClearActiveFlags()
      requires Valid()
      modifies this
      ensures Valid() && Settings() == old(Settings()) && activeChunks == old(activeChunks)
      ensures chunks == ClearPhase(old(chunks), activeChunks)
    {
      var i := 0;
      while i < |activeChunks|
        invariant 0 <= i <= |activeChunks|
        invariant Valid() && Settings() == old(Settings()) && activeChunks == old(activeChunks)
        invariant chunks == ClearPhase(old(chunks), activeChunks[..i])
      {
        ClearPhaseNext(old(chunks), activeChunks, i);
        var pos := activeChunks[i];
        if pos in chunks {
          chunks := chunks[pos := ClearedFlags(chunks[pos])];
        }
        i := i + 1;
      }
      assert activeChunks[..i] == activeChunks;
    }

    /** Phase 2 of `step_simulation`: the CA pass over each active chunk, in list order. */
    method UpdateActiveChunks(rolls: nat -> CellRolls)
      requires Valid()
      modifies this`chunks
      ensures Valid() && Settings() == old(Settings()) && activeChunks == old(activeChunks)
      ensures chunks == CAPhase(old(chunks), materials, reactions, activeChunks, rolls, |activeChunks|)
    {
      CAPhaseKeepsChunks(chunks, materials, reactions, activeChunks, rolls, |activeChunks|);
      chunks := PassActiveChunks(materials, reactions, activeChunks, rolls, chunks);
    }

    /**
     * `step_simulation`, phases 1 to 3: clear flags, run the CA pass over
     * each active chunk, then let the temperature simulator diffuse on
     * every second step.
     */
    method StepSimulation(rolls: nat -> CellRolls)
      requires Valid()
      modifies this, temperatureSim
      ensures Valid() && Settings() == old(Settings()) && activeChunks == old(activeChunks)
      ensures var moved := CAPhase(ClearPhase(old(chunks), activeChunks), materials, reactions, activeChunks, rolls, |activeChunks|);
              chunks == if old(temperatureSim.updateCounter) == 1 then Temperature.DiffuseAll(moved, activeChunks) else moved
      ensures chunks == SimulationStep(old(chunks), materials, reactions, activeChunks, rolls, old(temperatureSim.updateCounter) as nat)
      ensures temperatureSim.updateCounter as nat == (old(temperatureSim.updateCounter) as nat + 1) % 2
    {
      ClearActiveFlags();
      UpdateActiveChunks(rolls);
      Temperature.DiffuseAllFrame(chunks, activeChunks);
      chunks := temperatureSim.Update(chunks, activeChunks);
    }

    /** Step `n` of an `update` call that started from `start` with the counter at `counter`. */
    method NthStep(rolls: nat -> nat -> CellRolls, ghost start: ChunkMap, ghost counter: nat, n: nat)
      requires Valid()
      requires chunks == SimulationSteps(start, materials, reactions, activeChunks, rolls, counter, n)
      requires temperatureSim.updateCounter as nat == (counter + n) % 2
      modifies this, temperatureSim
      ensures Valid() && Settings() == old(Settings()) && activeChunks == old(activeChunks)
      ensures chunks == SimulationSteps(start, materials, reactions, activeChunks, rolls, counter, n + 1)
      ensures temperatureSim.updateCounter as nat == (counter + n + 1) % 2
    {
      ghost var before := chunks;
      StepSimulation(rolls(n));
      SimulationStepsNext(start, materials, reactions, activeChunks, rolls, counter, n, before, chunks);
    }

    /**
     * `update`: add `dt` to the accumulator and run one step per whole
     * timestep in it; step `n` of this call draws from `rolls(n)`.
     */
    method Update(dt: real, rolls: nat -> nat -> CellRolls)
      requires Valid()
      modifies this, temperatureSim
      ensures Valid() && activeChunks == old(activeChunks)
      ensures materials == old(materials) && reactions == old(reactions) && temperatureSim == old(temperatureSim)
      ensures playerX == old(playerX) && playerY == old(playerY)
      ensures timeAccumulator == old(timeAccumulator) + dt - StepsFor(old(timeAccumulator) + dt) as real * FIXED_TIMESTEP
      ensures var n := StepsFor(old(timeAccumulator) + dt);
              chunks == SimulationSteps(old(chunks), materials, reactions, activeChunks, rolls, old(temperatureSim.updateCounter) as nat, n)
              && temperatureSim.updateCounter as nat == (old(temperatureSim.updateCounter) as nat + n) % 2
    {
      var acc := timeAccumulator + dt;
      ghost var start := acc;
      ghost var c0, k0 := chunks, temperatureSim.updateCounter as nat;
      var n: nat := 0;
      while acc >= FIXED_TIMESTEP
        invariant Valid() && Settings() == old(Settings()) && activeChunks == old(activeChunks)
        invariant acc == start - n as real * FIXED_TIMESTEP
        invariant n > 0 ==> acc >= 0.0
        invariant chunks == SimulationSteps(c0, materials, reactions, activeChunks, rolls, k0, n)
        invariant temperatureSim.updateCounter as nat == (k0 + n) % 2
        decreases (acc * 60.0).Floor
      {
        StepsForNext(acc);
        NthStep(rolls, c0, k0, n);
        acc := acc - FIXED_TIMESTEP;
        n := n + 1;
      }
      StepsForCount(start, n);
      timeAccumulator := acc;
    }

    /** `clear_all_chunks`. */
    method ClearAllChunks()
      requires Valid()
      modifies this
      ensures Valid() && Settings() == old(Settings())
      ensures chunks == map[] && activeChunks == []
    {
      chunks := map[];
      activeChunks := [];
    }

    /**
     * `add_chunk`: insert or replace the chunk at its own position, and
     * activate it when it is near the player and not yet active.
     */
    method AddChunk(c: ChunkState)
      requires Valid()
      modifies this
      ensures Valid() && Settings() == old(Settings())
      ensures chunks == old(chunks)[IVec2(c.x, c.y) := c]
      ensures var pos := IVec2(c.x, c.y);
              activeChunks == if NearPlayer(pos, playerX, playerY) && pos !in old(activeChunks)
                              then old(activeChunks) + [pos] else old(activeChunks)
    {
      var pos := IVec2(c.x, c.y);
      chunks := chunks[pos := c];
      var player := PlayerChunk(playerX, playerY);
      var distX := Abs(pos.x - player.x);
      var distY := Abs(pos.y - player.y);
      if distX <= 2 && distY <= 2 {
        if pos !in activeChunks {
          activeChunks := activeChunks + [pos];
        }
      }
    }
  }
}
