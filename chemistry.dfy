/**
 * Ignition and burning: a flammable pixel at or above its ignition
 * temperature starts burning and lights the first empty loaded neighbour;
 * a burning pixel turns into its burn product on a successful roll and
 * heats its coarse cell; fire heats its own cell.
 *
 * The burn and fire rolls are parameters: `roll` stands for the uniform
 * draw in [0, 1) that the random generator compares against a probability.
 */
module Chemistry {
  import opened Wrappers
  import opened Ints
  import opened Chunks
  import opened WorldGrid
  import M = Materials
  import Temperature

  /** Neighbour offsets tried when lighting fire, in order. */
  const IgnitionOffsets: seq<(int, int)> := [(0, 1), (1, 0), (-1, 0), (0, -1)]

  /** Neighbour `k` of (wx, wy) is loaded and empty, so fire may be placed there. */
  predicate FireCandidate(chunks: ChunkMap, wx: int, wy: int, k: nat)
    requires k < 4
  {
    var n := GetPixel(chunks, wx + IgnitionOffsets[k].0, wy + IgnitionOffsets[k].1);
    n.Some? && IsEmpty(n.value)
  }

  /** The first offset from `k` on at which fire may be placed. */
  function FirstCandidate(chunks: ChunkMap, wx: int, wy: int, k: nat): (r: Option<nat>)
    requires k <= 4
    ensures r.Some? ==> k <= r.value < 4 && FireCandidate(chunks, wx, wy, r.value)
                        && forall i | k <= i < r.value :: !FireCandidate(chunks, wx, wy, i)
    ensures r.None? ==> forall i | k <= i < 4 :: !FireCandidate(chunks, wx, wy, i)
    decreases 4 - k
  {
    if k == 4 then None
    else if FireCandidate(chunks, wx, wy, k) then Some(k)
    else FirstCandidate(chunks, wx, wy, k + 1)
  }

  /** The neighbour loop of `check_ignition`: the first candidate becomes FIRE, then the loop stops. */
  function SpreadFire(chunks: ChunkMap, wx: int, wy: int): (r: ChunkMap)
    ensures r.Keys == chunks.Keys
  {
    match FirstCandidate(chunks, wx, wy, 0)
    case None => chunks
    case Some(j) => SetPixel(chunks, wx + IgnitionOffsets[j].0, wy + IgnitionOffsets[j].1, M.FIRE)
  }

  /** The pixel's material is flammable, has an ignition temperature, and its cell has reached it. */
  predicate Ignites(chunks: ChunkMap, mats: seq<M.MaterialDef>, cp: IVec2, x: nat, y: nat)
    requires InChunk(x, y) && |mats| > 0
  {
    cp in chunks &&
    var m := M.Lookup(mats, PixelAt(chunks[cp], x, y).material);
    m.flammable && m.ignitionTemp.Some?
    && Temperature.TemperatureAtPixel(chunks[cp], x, y) >= m.ignitionTemp.value
  }

  /** `check_ignition`. */
  function CheckIgnition(chunks: ChunkMap, mats: seq<M.MaterialDef>, cp: IVec2, x: nat, y: nat): (r: ChunkMap)
    requires InChunk(x, y) && |mats| > 0
    ensures r.Keys == chunks.Keys
  {
    if cp !in chunks then chunks
    else
      var pixel := PixelAt(chunks[cp], x, y);
      var m := M.Lookup(mats, pixel.material);
      if !m.flammable then chunks
      else
        var temp := Temperature.TemperatureAtPixel(chunks[cp], x, y);
        if m.ignitionTemp.Some? && temp >= m.ignitionTemp.value then
          var lit := WriteLocal(chunks, cp, x, y, pixel.(flags := pixel.flags | BURNING));
          SpreadFire(lit, WorldX(cp, x), WorldY(cp, y))
        else chunks
  }

  /** (qx, qy) is neighbour `k` of (wx, wy) for some offset `k` at which fire may be placed. */
  predicate IsFireSpot(chunks: ChunkMap, wx: int, wy: int, qx: int, qy: int)
  {
    exists k | 0 <= k < 4 :: qx == wx + IgnitionOffsets[k].0 && qy == wy + IgnitionOffsets[k].1
                           && FireCandidate(chunks, wx, wy, k)
  }

  /** A fire spot is one of the four orthogonal neighbours. */
  lemma FireSpotIsNeighbour(chunks: ChunkMap, wx: int, wy: int, qx: int, qy: int)
    requires IsFireSpot(chunks, wx, wy, qx, qy)
    ensures Abs(qx - wx) + Abs(qy - wy) == 1
  {
    var k :| 0 <= k < 4 && qx == wx + IgnitionOffsets[k].0 && qy == wy + IgnitionOffsets[k].1
             && FireCandidate(chunks, wx, wy, k);
  }

  /** The fire loop leaves (wx, wy) alone, and any pixel it changes is a fire spot that is now FIRE. */
  lemma SpreadFireEffect(chunks: ChunkMap, wx: int, wy: int)
    ensures SpreadFire(chunks, wx, wy).Keys == chunks.Keys
    ensures GetPixel(SpreadFire(chunks, wx, wy), wx, wy) == GetPixel(chunks, wx, wy)
    ensures forall qx, qy | GetPixel(SpreadFire(chunks, wx, wy), qx, qy) != GetPixel(chunks, qx, qy) ::
              GetPixel(SpreadFire(chunks, wx, wy), qx, qy) == Some(Pixel(M.FIRE, 0))
              && IsFireSpot(chunks, wx, wy, qx, qy)
  {
    match FirstCandidate(chunks, wx, wy, 0)
    case None =>
    case Some(j) =>
      var nx, ny := wx + IgnitionOffsets[j].0, wy + IgnitionOffsets[j].1;
      var r := WriteAt(chunks, nx, ny, NewPixel(M.FIRE));
      assert r == SpreadFire(chunks, wx, wy);
      assert nx != wx || ny != wy;
      WriteAtEffect(chunks, nx, ny, NewPixel(M.FIRE));
      assert IsFireSpot(chunks, wx, wy, nx, ny);
      forall qx, qy | GetPixel(r, qx, qy) != GetPixel(chunks, qx, qy)
        ensures qx == nx && qy == ny
      {
      }
  }

  /** Under ignition, `check_ignition` is the BURNING write followed by the fire loop. */
  lemma IgnitionUnfold(chunks: ChunkMap, mats: seq<M.MaterialDef>, cp: IVec2, x: nat, y: nat)
    requires InChunk(x, y) && |mats| > 0 && Ignites(chunks, mats, cp, x, y)
    ensures var p := PixelAt(chunks[cp], x, y);
            CheckIgnition(chunks, mats, cp, x, y)
            == SpreadFire(WriteLocal(chunks, cp, x, y, Pixel(p.material, p.flags | BURNING)), WorldX(cp, x), WorldY(cp, y))
  {
  }

  /** Writing `np` at a loaded cell and then running the fire loop around it. */
  lemma LightAndSpread(chunks: ChunkMap, cp: IVec2, x: nat, y: nat, np: Pixel)
    requires InChunk(x, y) && cp in chunks
    ensures var wx, wy := WorldX(cp, x), WorldY(cp, y);
            var r := SpreadFire(WriteLocal(chunks, cp, x, y, np), wx, wy);
            GetPixel(r, wx, wy) == Some(np)
            && forall qx, qy | (qx != wx || qy != wy) && GetPixel(r, qx, qy) != GetPixel(chunks, qx, qy) ::
                 GetPixel(r, qx, qy) == Some(Pixel(M.FIRE, 0)) && IsFireSpot(chunks, wx, wy, qx, qy)
  {
    var wx, wy := WorldX(cp, x), WorldY(cp, y);
    LocalRoundTrip(cp, x, y);
    var lit := WriteLocal(chunks, cp, x, y, np);
    WriteLocalIsWriteAt(chunks, cp, x, y, np);
    WriteAtEffect(chunks, wx, wy, np);
    SpreadFireEffect(lit, wx, wy);
    var r := SpreadFire(lit, wx, wy);
    forall qx, qy | (qx != wx || qy != wy) && GetPixel(r, qx, qy) != GetPixel(chunks, qx, qy)
      ensures GetPixel(r, qx, qy) == Some(Pixel(M.FIRE, 0)) && IsFireSpot(chunks, wx, wy, qx, qy)
    {
      LightAndSpreadAt(chunks, cp, x, y, np, qx, qy);
    }
  }

  /** The same, for one pixel other than the written one. */
  lemma LightAndSpreadAt(chunks: ChunkMap, cp: IVec2, x: nat, y: nat, np: Pixel, qx: int, qy: int)
    requires InChunk(x, y) && cp in chunks
    requires qx != WorldX(cp, x) || qy != WorldY(cp, y)
    requires GetPixel(SpreadFire(WriteLocal(chunks, cp, x, y, np), WorldX(cp, x), WorldY(cp, y)), qx, qy)
             != GetPixel(chunks, qx, qy)
    ensures var r := SpreadFire(WriteLocal(chunks, cp, x, y, np), WorldX(cp, x), WorldY(cp, y));
            GetPixel(r, qx, qy) == Some(Pixel(M.FIRE, 0)) && IsFireSpot(chunks, WorldX(cp, x), WorldY(cp, y), qx, qy)
  {
    var wx, wy := WorldX(cp, x), WorldY(cp, y);
    LocalRoundTrip(cp, x, y);
    var lit := WriteLocal(chunks, cp, x, y, np);
    WriteLocalIsWriteAt(chunks, cp, x, y, np);
    WriteAtEffect(chunks, wx, wy, np);
    SpreadFireEffect(lit, wx, wy);
    assert GetPixel(lit, qx, qy) == GetPixel(chunks, qx, qy);
    var k :| 0 <= k < 4 && qx == wx + IgnitionOffsets[k].0 && qy == wy + IgnitionOffsets[k].1
             && FireCandidate(lit, wx, wy, k);
    assert FireCandidate(chunks, wx, wy, k);
  }

  /**
   * Without ignition nothing changes. On ignition the pixel keeps its material
   * and gains BURNING, and at most one other pixel changes: the first loaded
   * empty neighbour in offset order becomes FIRE.
   */
  lemma CheckIgnitionEffect(chunks: ChunkMap, mats: seq<M.MaterialDef>, cp: IVec2, x: nat, y: nat)
    requires InChunk(x, y) && |mats| > 0
    ensures !Ignites(chunks, mats, cp, x, y) ==> CheckIgnition(chunks, mats, cp, x, y) == chunks
    ensures Ignites(chunks, mats, cp, x, y) ==>
              var wx, wy := WorldX(cp, x), WorldY(cp, y);
              var old_p := PixelAt(chunks[cp], x, y);
              var r := CheckIgnition(chunks, mats, cp, x, y);
              GetPixel(r, wx, wy) == Some(Pixel(old_p.material, old_p.flags | BURNING))
              && forall qx, qy | (qx != wx || qy != wy) && GetPixel(r, qx, qy) != GetPixel(chunks, qx, qy) ::
                   GetPixel(r, qx, qy) == Some(Pixel(M.FIRE, 0)) && IsFireSpot(chunks, wx, wy, qx, qy)
  {
    if Ignites(chunks, mats, cp, x, y) {
      var p := PixelAt(chunks[cp], x, y);
      IgnitionUnfold(chunks, mats, cp, x, y);
      LightAndSpread(chunks, cp, x, y, Pixel(p.material, p.flags | BURNING));
    }
  }

  /** `update_burning_material`: on a successful roll the pixel becomes its burn product (or AIR) and its cell gains 20 degrees. */
  function UpdateBurningMaterial(chunks: ChunkMap, mats: seq<M.MaterialDef>, cp: IVec2, x: nat, y: nat, roll: real): (r: ChunkMap)
    requires InChunk(x, y) && |mats| > 0
    ensures r.Keys == chunks.Keys
  {
    if cp !in chunks then chunks
    else
      var m := M.Lookup(mats, PixelAt(chunks[cp], x, y).material);
      if roll < m.burnRate then
        AddHeat(SetPixel(chunks, WorldX(cp, x), WorldY(cp, y), m.burnsTo.UnwrapOr(M.AIR)), cp, x, y, 20.0)
      else chunks
  }

  /** A failed roll changes nothing; a successful one rewrites only this pixel and heats only its cell. */
  lemma UpdateBurningEffect(chunks: ChunkMap, mats: seq<M.MaterialDef>, cp: IVec2, x: nat, y: nat, roll: real)
    requires InChunk(x, y) && |mats| > 0 && cp in chunks
    ensures var m := M.Lookup(mats, PixelAt(chunks[cp], x, y).material);
            var r := UpdateBurningMaterial(chunks, mats, cp, x, y, roll);
            var wx, wy := WorldX(cp, x), WorldY(cp, y);
            (roll >= m.burnRate ==> r == chunks)
            && (roll < m.burnRate ==>
                  GetPixel(r, wx, wy) == Some(Pixel(m.burnsTo.UnwrapOr(M.AIR), 0))
                  && (forall qx, qy | qx != wx || qy != wy :: GetPixel(r, qx, qy) == GetPixel(chunks, qx, qy))
                  && Temperature.TemperatureAtPixel(r[cp], x, y)
                     == Temperature.MinReal(Temperature.TemperatureAtPixel(chunks[cp], x, y) + 20.0,
                                            Temperature.MAX_TEMPERATURE))
  {
    var m := M.Lookup(mats, PixelAt(chunks[cp], x, y).material);
    if roll < m.burnRate {
      var wx, wy := WorldX(cp, x), WorldY(cp, y);
      LocalRoundTrip(cp, x, y);
      var written := SetPixel(chunks, wx, wy, m.burnsTo.UnwrapOr(M.AIR));
      SetPixelEffect(chunks, wx, wy, m.burnsTo.UnwrapOr(M.AIR));
      WriteAtEffect(chunks, wx, wy, NewPixel(m.burnsTo.UnwrapOr(M.AIR)));
      AddHeatKeepsPixels(written, cp, x, y, 20.0);
      Temperature.AddHeatAtPixelEffect(written[cp], x, y, 20.0);
    }
  }

  /** The heat step of `update_fire`: the fire's cell gains 50 degrees (capped) before the fire moves. */
  function FireHeat(chunks: ChunkMap, cp: IVec2, x: nat, y: nat): (r: ChunkMap)
    requires InChunk(x, y)
    ensures r.Keys == chunks.Keys
    ensures forall qx, qy :: GetPixel(r, qx, qy) == GetPixel(chunks, qx, qy)
    ensures cp in chunks ==>
              Temperature.TemperatureAtPixel(r[cp], x, y)
              == Temperature.MinReal(Temperature.TemperatureAtPixel(chunks[cp], x, y) + 50.0, Temperature.MAX_TEMPERATURE)
  {
    AddHeatKeepsPixels(chunks, cp, x, y, 50.0);
    if cp in chunks then
      Temperature.AddHeatAtPixelEffect(chunks[cp], x, y, 50.0);
      AddHeat(chunks, cp, x, y, 50.0)
    else AddHeat(chunks, cp, x, y, 50.0)
  }
}
