/**
 * The keyed reaction registry of the simulation crate. Reactions are stored
 * under the normalised material pair (lower id first); a lookup normalises
 * the pair the same way and returns the first reaction in that bucket whose
 * temperature, light, pressure and catalyst conditions all hold.
 */
module Reactions {
  import opened Wrappers
  import opened Ints
  import M = Materials
  import C = CoreIds

  datatype Reaction = Reaction(
    name: string,
    inputA: U16,
    inputB: U16,
    minTemp: Option<real>,
    maxTemp: Option<real>,
    requiresContact: bool,
    requiresLight: Option<U8>,
    minPressure: Option<real>,
    catalyst: Option<U16>,
    outputA: U16,
    outputB: U16,
    probability: real,
    energyReleased: real)

  /** What a lookup knows about the place where two materials touch. */
  datatype Site = Site(temp: real, light: U8, pressure: real, neighbours: seq<U16>)

  type Key = (U16, U16)
  type Table = map<Key, seq<Reaction>>

  /** The normalised pair: the same two ids, lower one first. */
  function PairKey(a: U16, b: U16): (k: Key)
    ensures k.0 <= k.1
    ensures {k.0, k.1} == {a, b}
  {
    if a <= b then (a, b) else (b, a)
  }

  function KeyOf(r: Reaction): Key
  {
    PairKey(r.inputA, r.inputB)
  }

  /** The reaction's inputs are the pair {a, b}, in either order. */
  predicate MaterialsMatch(r: Reaction, a: U16, b: U16)
  {
    (r.inputA == a && r.inputB == b) || (r.inputA == b && r.inputB == a)
  }

  /** Two pairs have the same normalised key exactly when they are the same pair in some order. */
  lemma KeyOfMatches(r: Reaction, a: U16, b: U16)
    ensures KeyOf(r) == PairKey(a, b) <==> MaterialsMatch(r, a, b)
  {
  }

  /**
   * Every condition of a reaction holds at the site: both temperature bounds
   * inclusive, at least the required light and pressure, and the catalyst
   * among the neighbouring materials. A missing condition does not constrain.
   */
  predicate ConditionsHold(r: Reaction, s: Site)
  {
    (r.minTemp.None? || s.temp >= r.minTemp.value)
    && (r.maxTemp.None? || s.temp <= r.maxTemp.value)
    && (r.requiresLight.None? || s.light >= r.requiresLight.value)
    && (r.minPressure.None? || s.pressure >= r.minPressure.value)
    && (r.catalyst.None? || r.catalyst.value in s.neighbours)
  }

  /** Every stored key is normalised and holds only reactions between its two materials. */
  ghost predicate WellKeyed(t: Table)
  {
    forall k | k in t :: k.0 <= k.1 && forall r | r in t[k] :: KeyOf(r) == k
  }

  /** The reactions stored under a key; a missing key holds none. */
  function Bucket(t: Table, k: Key): seq<Reaction>
  {
    if k in t then t[k] else []
  }

  /**
   * `register`: appends the reaction to the bucket of its normalised pair,
   * creating the bucket if needed, and leaves every other bucket alone.
   */
  function Registered(t: Table, r: Reaction): (t': Table)
    ensures WellKeyed(t) ==> WellKeyed(t')
    ensures Bucket(t', KeyOf(r)) == Bucket(t, KeyOf(r)) + [r]
    ensures forall k | k != KeyOf(r) :: Bucket(t', k) == Bucket(t, k)
    ensures t'.Keys == t.Keys + {KeyOf(r)}
  {
    t[KeyOf(r) := Bucket(t, KeyOf(r)) + [r]]
  }

  /** Registering a list of reactions in order. */
  function RegisterAll(t: Table, rs: seq<Reaction>): (t': Table)
    ensures WellKeyed(t) ==> WellKeyed(t')
    decreases |rs|
  {
    if rs == [] then t else Registered(RegisterAll(t, rs[..|rs| - 1]), rs[|rs| - 1])
  }

  /** Registering one more reaction of a list extends the registry of the shorter prefix. */
  lemma RegisterAllPrefix(rs: seq<Reaction>, i: nat)
    requires i < |rs|
    ensures RegisterAll(map[], rs[..i + 1]) == Registered(RegisterAll(map[], rs[..i]), rs[i])
  {
    assert rs[..i + 1][..i] == rs[..i];
  }

  /** The reactions of `rs` stored under key `k`, in order. */
  function Filter(rs: seq<Reaction>, k: Key): seq<Reaction>
    decreases |rs|
  {
    if rs == [] then []
    else (if KeyOf(rs[0]) == k then [rs[0]] else []) + Filter(rs[1..], k)
  }

  lemma {:induction false} FilterAppend(xs: seq<Reaction>, ys: seq<Reaction>, k: Key)
    ensures Filter(xs + ys, k) == Filter(xs, k) + Filter(ys, k)
    decreases |xs|
  {
    if xs != [] {
      assert (xs + ys)[0] == xs[0];
      assert (xs + ys)[1..] == xs[1..] + ys;
      FilterAppend(xs[1..], ys, k);
      var head := if KeyOf(xs[0]) == k then [xs[0]] else [];
      assert Filter(xs + ys, k) == head + (Filter(xs[1..], k) + Filter(ys, k));
      assert head + (Filter(xs[1..], k) + Filter(ys, k)) == (head + Filter(xs[1..], k)) + Filter(ys, k);
    } else {
      assert xs + ys == ys;
    }
  }

  /**
   * Registration keeps insertion order: after registering `rs` into an
   * empty registry, each bucket lists exactly the reactions of `rs` with
   * that key, in the order they were registered.
   */
  lemma {:induction false} RegisterAllBuckets(rs: seq<Reaction>, k: Key)
    ensures Bucket(RegisterAll(map[], rs), k) == Filter(rs, k)
    decreases |rs|
  {
    if rs != [] {
      var init, last := rs[..|rs| - 1], rs[|rs| - 1];
      RegisterAllBuckets(init, k);
      assert rs == init + [last];
      FilterAppend(init, [last], k);
      assert Filter([last], k) == (if KeyOf(last) == k then [last] else []) + Filter([], k);
    }
  }

  /** The first reaction of a bucket whose conditions hold at the site. */
  function FirstHolding(rs: seq<Reaction>, s: Site): (res: Option<Reaction>)
    ensures res.None? <==> forall i | 0 <= i < |rs| :: !ConditionsHold(rs[i], s)
    ensures res.Some? ==> exists i | 0 <= i < |rs| :: rs[i] == res.value && ConditionsHold(rs[i], s)
                                                     && forall j | 0 <= j < i :: !ConditionsHold(rs[j], s)
    decreases |rs|
  {
    if rs == [] then None
    else if ConditionsHold(rs[0], s) then Some(rs[0])
    else
      var rest := FirstHolding(rs[1..], s);
      assert forall i | 1 <= i < |rs| :: rs[i] == rs[1..][i - 1];
      if rest.Some? then
        var k :| 0 <= k < |rs[1..]| && rs[1..][k] == rest.value && ConditionsHold(rs[1..][k], s)
                 && forall j | 0 <= j < k :: !ConditionsHold(rs[1..][j], s);
        assert rs[k + 1] == rest.value;
        rest
      else rest
  }

  /**
   * `find_reaction`: normalise the pair, look up its bucket (none: no
   * reaction), and return the first reaction whose conditions hold there.
   */
  function Find(t: Table, a: U16, b: U16, s: Site): (res: Option<Reaction>)
    ensures PairKey(a, b) !in t ==> res.None?
    ensures WellKeyed(t) && res.Some? ==> MaterialsMatch(res.value, a, b) && ConditionsHold(res.value, s)
  {
    var res := FirstHolding(Bucket(t, PairKey(a, b)), s);
    assert res.Some? ==> res.value in Bucket(t, PairKey(a, b));
    res
  }

  /** Lookup does not depend on the order of the two materials. */
  lemma FindSymmetric(t: Table, a: U16, b: U16, s: Site)
    ensures Find(t, a, b, s) == Find(t, b, a, s)
  {
    assert PairKey(a, b) == PairKey(b, a);
  }

  /**
   * A reference definition: scan every registered reaction in registration
   * order for the first one between `a` and `b` (in either order) whose
   * conditions hold.
   */
  function LinearFind(rs: seq<Reaction>, a: U16, b: U16, s: Site): Option<Reaction>
    decreases |rs|
  {
    if rs == [] then None
    else if MaterialsMatch(rs[0], a, b) && ConditionsHold(rs[0], s) then Some(rs[0])
    else LinearFind(rs[1..], a, b, s)
  }

  lemma {:induction false} FirstHoldingOfFilter(rs: seq<Reaction>, a: U16, b: U16, s: Site)
    ensures FirstHolding(Filter(rs, PairKey(a, b)), s) == LinearFind(rs, a, b, s)
    decreases |rs|
  {
    if rs != [] {
      FirstHoldingOfFilter(rs[1..], a, b, s);
      KeyOfMatches(rs[0], a, b);
      var rest := Filter(rs[1..], PairKey(a, b));
      if KeyOf(rs[0]) == PairKey(a, b) {
        assert Filter(rs, PairKey(a, b)) == [rs[0]] + rest;
        assert ([rs[0]] + rest)[1..] == rest;
      } else {
        assert Filter(rs, PairKey(a, b)) == rest;
      }
    }
  }

  /**
   * The keyed lookup of a registry built by registering `rs` answers
   * exactly as a linear scan of `rs` would.
   */
  lemma FindIsLinearScan(rs: seq<Reaction>, a: U16, b: U16, s: Site)
    ensures Find(RegisterAll(map[], rs), a, b, s) == LinearFind(rs, a, b, s)
  {
    RegisterAllBuckets(rs, PairKey(a, b));
    FirstHoldingOfFilter(rs, a, b, s);
  }

  /**
   * `get_outputs`: the outputs in the caller's argument order, swapped
   * unless the call order is exactly (input_a, input_b).
   */
  function GetOutputs(r: Reaction, a: U16, b: U16): (U16, U16)
  {
    if r.inputA == a && r.inputB == b then (r.outputA, r.outputB) else (r.outputB, r.outputA)
  }

  /** Each input is mapped to its own output, whichever order the caller gives the pair in. */
  lemma GetOutputsFollowInputs(r: Reaction, a: U16, b: U16)
    requires MaterialsMatch(r, a, b) && a != b
    ensures a == r.inputA ==> GetOutputs(r, a, b) == (r.outputA, r.outputB)
    ensures a == r.inputB ==> GetOutputs(r, a, b) == (r.outputB, r.outputA)
    ensures GetOutputs(r, b, a) == (GetOutputs(r, a, b).1, GetOutputs(r, a, b).0)
  {
  }

  /** The spark rule exists for flammable materials other than fire, spark, C-4 and bomb. */
  predicate SparkIgnites(d: M.MaterialDef)
  {
    d.flammable && d.id != M.FIRE && d.id != C.SPARK && d.id != C.C_4 && d.id != C.BOMB
  }

  /** Spark and a flammable material: the spark is used up and the material catches fire. */
  function SparkRule(d: M.MaterialDef): Reaction
  {
    Reaction("spark_ignite_" + d.name, C.SPARK, d.id, None, None, true, None, None, None,
             M.AIR, M.FIRE, 0.8, 50.0)
  }

  /** The generated spark-ignition rules, one per qualifying material, in table order. */
  function SparkRules(defs: seq<M.MaterialDef>): (rs: seq<Reaction>)
    ensures forall d | d in defs && SparkIgnites(d) :: SparkRule(d) in rs
    ensures forall r | r in rs :: exists d | d in defs && SparkIgnites(d) :: r == SparkRule(d)
    decreases |defs|
  {
    if defs == [] then []
    else
      var rest := SparkRules(defs[1..]);
      assert forall d | d in defs[1..] :: d in defs;
      (if SparkIgnites(defs[0]) then [SparkRule(defs[0])] else []) + rest
  }

  /** The thunder rule exists for non-conductors other than air, thunder and laser. */
  predicate ThunderDestroys(d: M.MaterialDef)
  {
    !d.conductsElectricity && d.id != M.AIR && d.id != C.THUNDER && d.id != C.LASER
  }

  /** Thunder and a non-conductor: both become air. */
  function ThunderRule(d: M.MaterialDef): Reaction
  {
    Reaction("thunder_destroy_" + d.name, C.THUNDER, d.id, None, None, true, None, None, None,
             M.AIR, M.AIR, 0.95, 200.0)
  }

  /** The generated thunder rules, one per qualifying material, in table order. */
  function ThunderRules(defs: seq<M.MaterialDef>): (rs: seq<Reaction>)
    ensures forall d | d in defs && ThunderDestroys(d) :: ThunderRule(d) in rs
    ensures forall r | r in rs :: exists d | d in defs && ThunderDestroys(d) :: r == ThunderRule(d)
    decreases |defs|
  {
    if defs == [] then []
    else
      var rest := ThunderRules(defs[1..]);
      assert forall d | d in defs[1..] :: d in defs;
      (if ThunderDestroys(defs[0]) then [ThunderRule(defs[0])] else []) + rest
  }

  // The explicitly listed default reactions, in registration order.
  const WaterLavaSteam := Reaction("water_lava_steam", M.WATER, M.LAVA, None, None, true, None, None, None, M.STEAM, M.STONE, 0.3, -100.0)
  const AcidMetalCorrode := Reaction("acid_metal_corrode", M.ACID, M.METAL, None, None, true, None, None, None, M.AIR, M.AIR, 0.05, 0.0)
  const AcidStoneCorrode := Reaction("acid_stone_corrode", M.ACID, M.STONE, None, None, true, None, None, None, M.ACID, M.AIR, 0.01, 0.0)
  const AcidWoodCorrode := Reaction("acid_wood_corrode", M.ACID, M.WOOD, None, None, true, None, None, None, M.ACID, M.AIR, 0.03, 0.0)
  const IceLavaCool := Reaction("ice_lava_cool", M.ICE, M.LAVA, None, None, true, None, None, None, M.WATER, M.STONE, 0.4, -80.0)
  const SmeltIron := Reaction("smelt_iron", C.IRON_ORE, M.FIRE, Some(1200.0), None, true, None, None, None, C.IRON_INGOT, M.SMOKE, 0.05, 10.0)
  const SmeltCopper := Reaction("smelt_copper", C.COPPER_ORE, M.FIRE, Some(1000.0), None, true, None, None, None, C.COPPER_INGOT, M.SMOKE, 0.06, 8.0)
  const SmeltGold := Reaction("smelt_gold", C.GOLD_ORE, M.FIRE, Some(1064.0), None, true, None, None, None, C.GOLD_INGOT, M.SMOKE, 0.05, 5.0)
  const MeltSandGlass := Reaction("melt_sand_glass", M.SAND, M.FIRE, Some(1700.0), None, true, None, None, None, M.GLASS, M.SMOKE, 0.02, 15.0)
  const CookFlesh := Reaction("cook_flesh", C.FLESH, M.FIRE, Some(200.0), None, true, None, None, None, C.ASH, M.SMOKE, 0.08, 20.0)
  const BurnPlant := Reaction("burn_plant", C.PLANT_MATTER, M.FIRE, Some(250.0), None, true, None, None, None, C.ASH, M.SMOKE, 0.07, 12.0)
  const BurnFruit := Reaction("burn_fruit", C.FRUIT, M.FIRE, Some(150.0), None, true, None, None, None, C.ASH, M.STEAM, 0.06, 8.0)
  const ExplodeGunpowder := Reaction("explode_gunpowder", C.GUNPOWDER, M.FIRE, Some(150.0), None, true, None, None, None, M.SMOKE, M.SMOKE, 0.9, 100.0)
  const DecayFlesh := Reaction("decay_flesh", C.FLESH, M.WATER, Some(15.0), None, true, None, None, None, C.POISON_GAS, C.POISON_GAS, 0.001, -5.0)
  const GrowPlant := Reaction("grow_plant", C.PLANT_MATTER, M.WATER, Some(10.0), Some(40.0), true, Some(8), None, None, C.PLANT_MATTER, C.PLANT_MATTER, 0.0005, -3.0)
  const FertilizePlant := Reaction("fertilize_plant", C.PLANT_MATTER, C.FERTILIZER, None, None, true, None, None, None, C.PLANT_MATTER, C.DIRT, 0.01, 0.0)
  const CompostAsh := Reaction("compost_ash", C.ASH, M.WATER, None, None, true, None, None, None, C.FERTILIZER, M.AIR, 0.005, 0.0)
  const ExtractSulfur := Reaction("extract_sulfur", C.COAL_ORE, M.ACID, None, None, true, None, None, None, C.GUNPOWDER, C.POISON_GAS, 0.02, -10.0)
  const DissolveBone := Reaction("dissolve_bone", M.ACID, C.BONE, None, None, true, None, None, None, M.AIR, M.AIR, 0.02, 5.0)
  const AbsorbPoison := Reaction("absorb_poison", C.POISON_GAS, M.WATER, None, None, true, None, None, None, M.ACID, M.AIR, 0.03, 0.0)
  const CondenseSteam := Reaction("condense_steam", M.STEAM, M.STONE, None, Some(80.0), true, None, None, None, M.WATER, M.STONE, 0.05, 15.0)
  const CorrodeCopper := Reaction("corrode_copper", M.ACID, C.COPPER_INGOT, None, None, true, None, None, None, M.AIR, C.POISON_GAS, 0.04, 0.0)
  const CorrodeIron := Reaction("corrode_iron", M.ACID, C.IRON_ORE, None, None, true, None, None, None, M.AIR, C.POISON_GAS, 0.03, 0.0)
  const ErodeDirt := Reaction("erode_dirt", C.DIRT, M.WATER, None, None, true, None, None, None, M.SAND, M.WATER, 0.001, 0.0)
  const SparkWaterSteam := Reaction("spark_water_steam", C.SPARK, M.WATER, None, None, true, None, None, None, M.AIR, M.STEAM, 0.5, -20.0)
  const NitroExplosion := Reaction("nitro_explosion", C.NITRO, M.AIR, None, None, true, None, Some(20.0), None, M.SMOKE, M.AIR, 1.0, 500.0)
  const C4SparkDetonate := Reaction("c4_spark_detonate", C.C_4, C.SPARK, None, None, true, None, None, None, M.SMOKE, M.FIRE, 0.95, 800.0)
  const C4FireDetonate := Reaction("c4_fire_detonate", C.C_4, M.FIRE, Some(400.0), None, true, None, None, None, M.SMOKE, M.FIRE, 0.8, 800.0)
  const BombFireDetonate := Reaction("bomb_fire_detonate", C.BOMB, M.FIRE, None, None, true, None, None, None, M.SMOKE, M.FIRE, 0.9, 400.0)
  const BombSandImpact := Reaction("bomb_sand_impact", C.BOMB, M.SAND, None, None, true, None, Some(5.0), None, M.SMOKE, M.FIRE, 0.7, 400.0)
  const BombStoneImpact := Reaction("bomb_stone_impact", C.BOMB, M.STONE, None, None, true, None, Some(3.0), None, M.SMOKE, M.AIR, 0.6, 400.0)
  const MagmaWaterCool := Reaction("magma_water_cool", C.MAGMA, M.WATER, None, None, true, None, None, None, M.LAVA, M.STEAM, 0.5, -200.0)
  const MagmaIceMelt := Reaction("magma_ice_melt", C.MAGMA, M.ICE, None, None, true, None, None, None, M.LAVA, M.WATER, 0.6, -150.0)
  const MagmaWoodIgnite := Reaction("magma_wood_ignite", C.MAGMA, M.WOOD, None, None, true, None, None, None, M.FIRE, M.FIRE, 0.95, 100.0)
  const MagmaOilIgnite := Reaction("magma_oil_ignite", C.MAGMA, M.OIL, None, None, true, None, None, None, M.FIRE, M.FIRE, 0.98, 150.0)
  const SaltDissolve := Reaction("salt_dissolve", C.SALT, M.WATER, None, None, true, None, None, None, C.SEAWATER, M.AIR, 0.1, -5.0)
  const SeawaterEvaporate := Reaction("seawater_evaporate", C.SEAWATER, M.FIRE, Some(100.0), None, true, None, None, None, M.STEAM, C.SALT, 0.08, 30.0)
  const SeawaterLavaEvaporate := Reaction("seawater_lava_evaporate", C.SEAWATER, M.LAVA, None, None, true, None, None, None, M.STEAM, M.STONE, 0.25, -80.0)
  const SoapyBubbleCreate := Reaction("soapy_bubble_create", C.SOAPY_WATER, M.AIR, None, None, true, None, None, None, C.SOAPY_WATER, C.BUBBLE, 0.01, 0.0)
  const SoapyPressureBubble := Reaction("soapy_pressure_bubble", C.SOAPY_WATER, M.AIR, None, None, true, None, Some(10.0), None, C.SOAPY_WATER, C.BUBBLE, 0.2, 0.0)
  const BubbleFirePop := Reaction("bubble_fire_pop", C.BUBBLE, M.FIRE, None, None, true, None, None, None, M.AIR, M.AIR, 0.99, 0.0)
  const BubbleStonePop := Reaction("bubble_stone_pop", C.BUBBLE, M.STONE, None, None, true, None, None, None, M.AIR, M.STONE, 0.5, 0.0)
  const BubbleMetalPop := Reaction("bubble_metal_pop", C.BUBBLE, M.METAL, None, None, true, None, None, None, M.AIR, M.METAL, 0.6, 0.0)
  const BubbleGlassPop := Reaction("bubble_glass_pop", C.BUBBLE, M.GLASS, None, None, true, None, None, None, M.AIR, M.GLASS, 0.8, 0.0)
  const MercuryVaporize := Reaction("mercury_vaporize", C.MERCURY, M.FIRE, Some(357.0), None, true, None, None, None, C.POISON_GAS, M.FIRE, 0.1, 20.0)

  function OriginalReactions(): seq<Reaction>
  {
    [WaterLavaSteam, AcidMetalCorrode, AcidStoneCorrode, AcidWoodCorrode, IceLavaCool]
  }

  /** The phase-five rules: first those with fire, then the rest. */
  function PhaseFiveReactions(): seq<Reaction>
  {
    PhaseFiveFireReactions() + PhaseFiveOtherReactions()
  }

  /** Smelting, cooking and explosive rules, all between some material and fire. */
  function PhaseFiveFireReactions(): seq<Reaction>
  {
    [SmeltIron, SmeltCopper, SmeltGold, MeltSandGlass, CookFlesh, BurnPlant, BurnFruit, ExplodeGunpowder]
  }

  /** Decay, growth, composting, chemistry, gas, corrosion and soil rules. */
  function PhaseFiveOtherReactions(): seq<Reaction>
  {
    [DecayFlesh, GrowPlant, FertilizePlant, CompostAsh, ExtractSulfur,
     DissolveBone, AbsorbPoison, CondenseSteam, CorrodeCopper, CorrodeIron, ErodeDirt]
  }

  /** The spark and thunder rules generated from the material table, around spark + water. */
  function ElectricalReactions(defs: seq<M.MaterialDef>): seq<Reaction>
  {
    SparkRules(defs) + [SparkWaterSteam] + ThunderRules(defs)
  }

  function PressureReactions(): seq<Reaction> { [NitroExplosion] }
  function C4Reactions(): seq<Reaction> { [C4SparkDetonate, C4FireDetonate] }
  function BombReactions(): seq<Reaction> { [BombFireDetonate, BombSandImpact, BombStoneImpact] }
  function MagmaReactions(): seq<Reaction> { [MagmaWaterCool, MagmaIceMelt, MagmaWoodIgnite, MagmaOilIgnite] }
  function SaltReactions(): seq<Reaction> { [SaltDissolve] }
  function SeawaterReactions(): seq<Reaction> { [SeawaterEvaporate, SeawaterLavaEvaporate] }
  function SoapyReactions(): seq<Reaction> { [SoapyBubbleCreate, SoapyPressureBubble] }
  function BubbleReactions(): seq<Reaction> { [BubbleFirePop, BubbleStonePop, BubbleMetalPop, BubbleGlassPop] }
  function MercuryReactions(): seq<Reaction> { [MercuryVaporize] }

  /** The soapy-water rules with the pressure variant first, so that it is reachable. */
  function CorrectedSoapyReactions(): seq<Reaction> { [SoapyPressureBubble, SoapyBubbleCreate] }

  /**
   * Pressure, C-4, bomb, magma, salt, seawater, soapy water, bubble and
   * mercury rules, with the given soapy-water section.
   */
  function LaterReactions(soapy: seq<Reaction>): seq<Reaction>
  {
    SectionsBeforeSoapy() + soapy + SectionsAfterSoapy()
  }

  /** The later sections registered before the soapy-water rules. */
  function SectionsBeforeSoapy(): seq<Reaction>
  {
    PressureReactions() + C4Reactions() + BombReactions() + MagmaReactions() + SaltReactions()
    + SeawaterReactions()
  }

  /** The later sections registered after the soapy-water rules. */
  function SectionsAfterSoapy(): seq<Reaction>
  {
    BubbleReactions() + MercuryReactions()
  }

  /** The registration list with the given soapy-water section. */
  function DefaultReactionsWith(defs: seq<M.MaterialDef>, soapy: seq<Reaction>): seq<Reaction>
  {
    OriginalReactions() + PhaseFiveReactions() + ElectricalReactions(defs) + LaterReactions(soapy)
  }

  /** `register_default_reactions` as written, in registration order, for a given material table. */
  function DefaultReactions(defs: seq<M.MaterialDef>): seq<Reaction>
  {
    DefaultReactionsWith(defs, SoapyReactions())
  }

  /** The default list with the pressure-driven soapy rule registered ahead of the plain one. */
  function CorrectedDefaultReactions(defs: seq<M.MaterialDef>): seq<Reaction>
  {
    DefaultReactionsWith(defs, CorrectedSoapyReactions())
  }

  /** The registry `ReactionRegistry::new` builds as written. */
  function DefaultTable(defs: seq<M.MaterialDef>): Table
  {
    RegisterAll(map[], DefaultReactions(defs))
  }

  /** The registry with the soapy-water rules in the order that makes both reachable. */
  function CorrectedDefaultTable(defs: seq<M.MaterialDef>): Table
  {
    RegisterAll(map[], CorrectedDefaultReactions(defs))
  }

  lemma {:induction false} LinearFindAppend(xs: seq<Reaction>, ys: seq<Reaction>, a: U16, b: U16, s: Site)
    ensures LinearFind(xs + ys, a, b, s)
            == if LinearFind(xs, a, b, s).Some? then LinearFind(xs, a, b, s) else LinearFind(ys, a, b, s)
    decreases |xs|
  {
    if xs == [] {
      assert xs + ys == ys;
    } else {
      assert (xs + ys)[0] == xs[0];
      assert (xs + ys)[1..] == xs[1..] + ys;
      LinearFindAppend(xs[1..], ys, a, b, s);
    }
  }

  /** No reaction of the list is between `a` and `b`. */
  predicate Misses(rs: seq<Reaction>, a: U16, b: U16)
  {
    forall r | r in rs :: !MaterialsMatch(r, a, b)
  }

  /** `x` is the only reaction of the list between `a` and `b`, and it is in the list. */
  predicate OnlyMatch(rs: seq<Reaction>, x: Reaction, a: U16, b: U16)
  {
    x in rs && MaterialsMatch(x, a, b) && forall r | r in rs :: MaterialsMatch(r, a, b) ==> r == x
  }

  lemma {:induction false} LinearFindNone(rs: seq<Reaction>, a: U16, b: U16, s: Site)
    requires Misses(rs, a, b)
    ensures LinearFind(rs, a, b, s) == None
    decreases |rs|
  {
    if rs != [] {
      assert rs[0] in rs;
      assert forall r | r in rs[1..] :: r in rs;
      LinearFindNone(rs[1..], a, b, s);
    }
  }

  /** When `x` is the only reaction of the list between `a` and `b`, the scan finds `x` exactly when its conditions hold. */
  lemma {:induction false} LinearFindUnique(rs: seq<Reaction>, x: Reaction, a: U16, b: U16, s: Site)
    requires forall r | r in rs :: MaterialsMatch(r, a, b) ==> r == x
    ensures LinearFind(rs, a, b, s)
            == if x in rs && MaterialsMatch(x, a, b) && ConditionsHold(x, s) then Some(x) else None
    decreases |rs|
  {
    if rs != [] {
      assert rs[0] in rs;
      assert forall r | r in rs[1..] :: r in rs;
      LinearFindUnique(rs[1..], x, a, b, s);
      assert x in rs <==> rs[0] == x || x in rs[1..];
    }
  }

  lemma {:induction false} LinearFindSome(rs: seq<Reaction>, x: Reaction, a: U16, b: U16, s: Site)
    requires x in rs && MaterialsMatch(x, a, b) && ConditionsHold(x, s)
    ensures LinearFind(rs, a, b, s).Some?
    decreases |rs|
  {
    if rs[0] != x && !(MaterialsMatch(rs[0], a, b) && ConditionsHold(rs[0], s)) {
      assert x in rs[1..] by {
        var i :| 0 <= i < |rs| && rs[i] == x;
        assert rs[1..][i - 1] == x;
      }
      LinearFindSome(rs[1..], x, a, b, s);
    }
  }

  /** The generated electrical rules all involve spark or thunder. */
  lemma ElectricalNoMatch(defs: seq<M.MaterialDef>, a: U16, b: U16, s: Site)
    requires a != C.SPARK && b != C.SPARK && a != C.THUNDER && b != C.THUNDER
    ensures LinearFind(ElectricalReactions(defs), a, b, s) == None
  {
    var e := ElectricalReactions(defs);
    forall r | r in e
      ensures !MaterialsMatch(r, a, b)
    {
      if r in SparkRules(defs) {
        var d :| d in defs && SparkIgnites(d) && r == SparkRule(d);
      } else if r in ThunderRules(defs) {
        var d :| d in defs && ThunderDestroys(d) && r == ThunderRule(d);
      }
    }
    LinearFindNone(e, a, b, s);
  }

  /** A soapy-water section: rules between soapy water and air only. */
  predicate SoapySection(soapy: seq<Reaction>)
  {
    forall r | r in soapy :: KeyOf(r) == PairKey(C.SOAPY_WATER, M.AIR)
  }

  /**
   * For a pair without spark or thunder that no original or phase-five rule
   * mentions, lookup in a default registry comes down to the later sections.
   */
  lemma DefaultFindLater(defs: seq<M.MaterialDef>, soapy: seq<Reaction>, a: U16, b: U16, s: Site)
    requires a != C.SPARK && b != C.SPARK && a != C.THUNDER && b != C.THUNDER
    requires Misses(OriginalReactions() + PhaseFiveReactions(), a, b)
    ensures Find(RegisterAll(map[], DefaultReactionsWith(defs, soapy)), a, b, s)
            == LinearFind(LaterReactions(soapy), a, b, s)
  {
    FindIsLinearScan(DefaultReactionsWith(defs, soapy), a, b, s);
    var early := OriginalReactions() + PhaseFiveReactions();
    LinearFindNone(early, a, b, s);
    ElectricalNoMatch(defs, a, b, s);
    LinearFindAppend(early, ElectricalReactions(defs), a, b, s);
    LinearFindAppend(early + ElectricalReactions(defs), LaterReactions(soapy), a, b, s);
  }

  /** The original and phase-five sections have no rule for these pairs. */
  lemma EarlyMisses(a: U16, b: U16)
    requires (a == M.SAND && b == M.WATER) || a == C.C_4 || a == C.MERCURY || a == C.SOAPY_WATER
    ensures Misses(OriginalReactions() + PhaseFiveReactions(), a, b)
  {
    OriginalMisses(a, b);
    PhaseFiveMisses(a, b);
    MissesAppend(OriginalReactions(), PhaseFiveReactions(), a, b);
  }

  lemma OriginalMisses(a: U16, b: U16)
    requires (a == M.SAND && b == M.WATER) || a == C.C_4 || a == C.MERCURY || a == C.SOAPY_WATER
    ensures Misses(OriginalReactions(), a, b)
  {
  }

  lemma PhaseFiveMisses(a: U16, b: U16)
    requires (a == M.SAND && b == M.WATER) || a == C.C_4 || a == C.MERCURY || a == C.SOAPY_WATER
    ensures Misses(PhaseFiveReactions(), a, b)
  {
    PhaseFiveFireMisses(a, b);
    PhaseFiveOtherMisses(a, b);
    MissesAppend(PhaseFiveFireReactions(), PhaseFiveOtherReactions(), a, b);
  }

  lemma PhaseFiveFireMisses(a: U16, b: U16)
    requires (a == M.SAND && b == M.WATER) || a == C.C_4 || a == C.MERCURY || a == C.SOAPY_WATER
    ensures Misses(PhaseFiveFireReactions(), a, b)
  {
  }

  lemma PhaseFiveOtherMisses(a: U16, b: U16)
    requires (a == M.SAND && b == M.WATER) || a == C.C_4 || a == C.MERCURY || a == C.SOAPY_WATER
    ensures Misses(PhaseFiveOtherReactions(), a, b)
  {
  }

  lemma MissesAppend(xs: seq<Reaction>, ys: seq<Reaction>, a: U16, b: U16)
    requires Misses(xs, a, b) && Misses(ys, a, b)
    ensures Misses(xs + ys, a, b)
  {
  }

  /** A soapy-water section has no rule for any other pair. */
  lemma SoapySectionMisses(soapy: seq<Reaction>, a: U16, b: U16)
    requires SoapySection(soapy) && PairKey(a, b) != PairKey(C.SOAPY_WATER, M.AIR)
    ensures Misses(soapy, a, b)
  {
    forall r | r in soapy
      ensures !MaterialsMatch(r, a, b)
    {
      KeyOfMatches(r, a, b);
    }
  }

  /** The later sections miss a pair other than soapy water and air that the sections around the soapy rules miss. */
  lemma LaterMisses(soapy: seq<Reaction>, a: U16, b: U16)
    requires SoapySection(soapy) && PairKey(a, b) != PairKey(C.SOAPY_WATER, M.AIR)
    requires Misses(SectionsBeforeSoapy(), a, b) && Misses(SectionsAfterSoapy(), a, b)
    ensures Misses(LaterReactions(soapy), a, b)
  {
    SoapySectionMisses(soapy, a, b);
    MissesAppend(SectionsBeforeSoapy(), soapy, a, b);
    MissesAppend(SectionsBeforeSoapy() + soapy, SectionsAfterSoapy(), a, b);
  }

  /** The only match of one side stays the only match when the other side misses the pair. */
  lemma OnlyMatchAppend(xs: seq<Reaction>, ys: seq<Reaction>, x: Reaction, a: U16, b: U16)
    requires (OnlyMatch(xs, x, a, b) && Misses(ys, a, b)) || (Misses(xs, a, b) && OnlyMatch(ys, x, a, b))
    ensures OnlyMatch(xs + ys, x, a, b)
  {
  }

  lemma SandWaterLaterFacts(soapy: seq<Reaction>)
    requires SoapySection(soapy)
    ensures Misses(LaterReactions(soapy), M.SAND, M.WATER)
  {
    assert Misses(SectionsBeforeSoapy(), M.SAND, M.WATER);
    assert Misses(SectionsAfterSoapy(), M.SAND, M.WATER);
    LaterMisses(soapy, M.SAND, M.WATER);
  }

  /** Water and lava react in either order; sand and water do not; the outputs follow the inputs. */
  lemma WaterLavaLookups(defs: seq<M.MaterialDef>, soapy: seq<Reaction>, s: Site)
    requires SoapySection(soapy)
    ensures Find(RegisterAll(map[], DefaultReactionsWith(defs, soapy)), M.WATER, M.LAVA, s) == Some(WaterLavaSteam)
    ensures Find(RegisterAll(map[], DefaultReactionsWith(defs, soapy)), M.LAVA, M.WATER, s) == Some(WaterLavaSteam)
    ensures Find(RegisterAll(map[], DefaultReactionsWith(defs, soapy)), M.SAND, M.WATER, s) == None
    ensures GetOutputs(WaterLavaSteam, M.WATER, M.LAVA) == (M.STEAM, M.STONE)
    ensures GetOutputs(WaterLavaSteam, M.LAVA, M.WATER) == (M.STONE, M.STEAM)
  {
    EarlyMisses(M.SAND, M.WATER);
    var rs := DefaultReactionsWith(defs, soapy);
    var t := RegisterAll(map[], rs);
    FindSymmetric(t, M.WATER, M.LAVA, s);
    FindIsLinearScan(rs, M.WATER, M.LAVA, s);
    var o, p, e := OriginalReactions(), PhaseFiveReactions(), ElectricalReactions(defs);
    assert o[0] == WaterLavaSteam && ConditionsHold(WaterLavaSteam, s);
    assert LinearFind(o, M.WATER, M.LAVA, s) == Some(WaterLavaSteam);
    LinearFindAppend(o, p, M.WATER, M.LAVA, s);
    LinearFindAppend(o + p, e, M.WATER, M.LAVA, s);
    LinearFindAppend(o + p + e, LaterReactions(soapy), M.WATER, M.LAVA, s);
    DefaultFindLater(defs, soapy, M.SAND, M.WATER, s);
    SandWaterLaterFacts(soapy);
    LinearFindNone(LaterReactions(soapy), M.SAND, M.WATER, s);
  }

  lemma C4FireFacts(soapy: seq<Reaction>)
    requires SoapySection(soapy)
    ensures OnlyMatch(LaterReactions(soapy), C4FireDetonate, C.C_4, M.FIRE)
  {
    var before, after := SectionsBeforeSoapy(), SectionsAfterSoapy();
    C4FireBeforeSoapy();
    SoapySectionMisses(soapy, C.C_4, M.FIRE);
    OnlyMatchAppend(before, soapy, C4FireDetonate, C.C_4, M.FIRE);
    C4FireAfterSoapy();
    OnlyMatchAppend(before + soapy, after, C4FireDetonate, C.C_4, M.FIRE);
  }

  lemma C4FireBeforeSoapy()
    ensures OnlyMatch(SectionsBeforeSoapy(), C4FireDetonate, C.C_4, M.FIRE)
  {
  }

  lemma C4FireAfterSoapy()
    ensures Misses(SectionsAfterSoapy(), C.C_4, M.FIRE)
  {
  }

  /** C-4 and fire react only at 400 degrees or more, and then by the C-4 detonation rule. */
  lemma C4FireNeedsHeat(defs: seq<M.MaterialDef>, soapy: seq<Reaction>, s: Site)
    requires SoapySection(soapy)
    ensures s.temp < 400.0 ==> Find(RegisterAll(map[], DefaultReactionsWith(defs, soapy)), C.C_4, M.FIRE, s) == None
    ensures s.temp >= 400.0 ==> Find(RegisterAll(map[], DefaultReactionsWith(defs, soapy)), C.C_4, M.FIRE, s) == Some(C4FireDetonate)
  {
    EarlyMisses(C.C_4, M.FIRE);
    C4FireFacts(soapy);
    DefaultFindLater(defs, soapy, C.C_4, M.FIRE, s);
    LinearFindUnique(LaterReactions(soapy), C4FireDetonate, C.C_4, M.FIRE, s);
  }

  lemma MercuryFireFacts(soapy: seq<Reaction>)
    requires SoapySection(soapy)
    ensures OnlyMatch(LaterReactions(soapy), MercuryVaporize, C.MERCURY, M.FIRE)
  {
    var before, after := SectionsBeforeSoapy(), SectionsAfterSoapy();
    assert Misses(before, C.MERCURY, M.FIRE);
    SoapySectionMisses(soapy, C.MERCURY, M.FIRE);
    MissesAppend(before, soapy, C.MERCURY, M.FIRE);
    assert OnlyMatch(after, MercuryVaporize, C.MERCURY, M.FIRE);
    OnlyMatchAppend(before + soapy, after, MercuryVaporize, C.MERCURY, M.FIRE);
  }

  /** Mercury and fire react only at 357 degrees or more, turning the mercury into poison gas. */
  lemma MercuryNeedsHeat(defs: seq<M.MaterialDef>, soapy: seq<Reaction>, s: Site)
    requires SoapySection(soapy)
    ensures s.temp < 357.0 ==> Find(RegisterAll(map[], DefaultReactionsWith(defs, soapy)), C.MERCURY, M.FIRE, s) == None
    ensures s.temp >= 357.0 ==> Find(RegisterAll(map[], DefaultReactionsWith(defs, soapy)), C.MERCURY, M.FIRE, s) == Some(MercuryVaporize)
    ensures GetOutputs(MercuryVaporize, C.MERCURY, M.FIRE).0 == C.POISON_GAS
  {
    EarlyMisses(C.MERCURY, M.FIRE);
    MercuryFireFacts(soapy);
    DefaultFindLater(defs, soapy, C.MERCURY, M.FIRE, s);
    LinearFindUnique(LaterReactions(soapy), MercuryVaporize, C.MERCURY, M.FIRE, s);
  }

  /** A spark next to any material that qualifies for a spark rule always finds a reaction. */
  lemma SparkIgnitesFlammable(defs: seq<M.MaterialDef>, soapy: seq<Reaction>, d: M.MaterialDef, s: Site)
    requires d in defs && SparkIgnites(d)
    ensures Find(RegisterAll(map[], DefaultReactionsWith(defs, soapy)), C.SPARK, d.id, s).Some?
  {
    var rs := DefaultReactionsWith(defs, soapy);
    assert SparkRule(d) in rs;
    LinearFindSome(rs, SparkRule(d), C.SPARK, d.id, s);
    FindIsLinearScan(rs, C.SPARK, d.id, s);
  }

  /** Thunder next to any material that qualifies for a thunder rule always finds a reaction. */
  lemma ThunderDestroysNonConductor(defs: seq<M.MaterialDef>, soapy: seq<Reaction>, d: M.MaterialDef, s: Site)
    requires d in defs && ThunderDestroys(d)
    ensures Find(RegisterAll(map[], DefaultReactionsWith(defs, soapy)), C.THUNDER, d.id, s).Some?
  {
    var rs := DefaultReactionsWith(defs, soapy);
    assert ThunderRule(d) in rs;
    LinearFindSome(rs, ThunderRule(d), C.THUNDER, d.id, s);
    FindIsLinearScan(rs, C.THUNDER, d.id, s);
  }

  /** Before and after the soapy-water section, no rule joins soapy water and air. */
  lemma SoapyFacts()
    ensures Misses(SectionsBeforeSoapy(), C.SOAPY_WATER, M.AIR)
    ensures Misses(SectionsAfterSoapy(), C.SOAPY_WATER, M.AIR)
  {
  }

  /**
   * As written, the plain soapy-water rule is registered first and has no
   * condition, so it is returned at every site: the pressure rule under the
   * same pair is never found.
   */
  lemma SoapyPressureBubbleUnreachable(defs: seq<M.MaterialDef>, s: Site)
    ensures Find(DefaultTable(defs), C.SOAPY_WATER, M.AIR, s) == Some(SoapyBubbleCreate)
  {
    var soapy := SoapyReactions();
    EarlyMisses(C.SOAPY_WATER, M.AIR);
    SoapyFacts();
    DefaultFindLater(defs, soapy, C.SOAPY_WATER, M.AIR, s);
    var before, after := SectionsBeforeSoapy(), SectionsAfterSoapy();
    LinearFindNone(before, C.SOAPY_WATER, M.AIR, s);
    LinearFindAppend(before, soapy, C.SOAPY_WATER, M.AIR, s);
    LinearFindAppend(before + soapy, after, C.SOAPY_WATER, M.AIR, s);
  }

  /**
   * With the pressure rule registered first, soapy water and air give the
   * pressure rule at a pressure of 10 or more and the plain rule below it.
   */
  lemma CorrectedSoapyBubbles(defs: seq<M.MaterialDef>, s: Site)
    ensures s.pressure >= 10.0 ==> Find(CorrectedDefaultTable(defs), C.SOAPY_WATER, M.AIR, s) == Some(SoapyPressureBubble)
    ensures s.pressure < 10.0 ==> Find(CorrectedDefaultTable(defs), C.SOAPY_WATER, M.AIR, s) == Some(SoapyBubbleCreate)
  {
    var soapy := CorrectedSoapyReactions();
    EarlyMisses(C.SOAPY_WATER, M.AIR);
    SoapyFacts();
    DefaultFindLater(defs, soapy, C.SOAPY_WATER, M.AIR, s);
    var before, after := SectionsBeforeSoapy(), SectionsAfterSoapy();
    LinearFindNone(before, C.SOAPY_WATER, M.AIR, s);
    LinearFindAppend(before, soapy, C.SOAPY_WATER, M.AIR, s);
    LinearFindAppend(before + soapy, after, C.SOAPY_WATER, M.AIR, s);
  }

  /** A reaction whose conditions hold, preceded only by ones whose conditions do not, is the first holding one. */
  lemma {:induction false} FirstHoldingAt(rs: seq<Reaction>, i: nat, s: Site)
    requires i < |rs| && ConditionsHold(rs[i], s)
    requires forall j | 0 <= j < i :: !ConditionsHold(rs[j], s)
    ensures FirstHolding(rs, s) == Some(rs[i])
    decreases i
  {
    if i > 0 {
      FirstHoldingAt(rs[1..], i - 1, s);
    }
  }

  /** `ReactionRegistry`: reactions keyed by their normalised material pair. */
  class ReactionRegistry {
    var reactions: Table

    /**
     * `ReactionRegistry::new`: registers the default reactions one by one,
     * in the order the source lists them.
     */
    constructor (defs: seq<M.MaterialDef>)
      ensures reactions == DefaultTable(defs)
      ensures WellKeyed(reactions)
    {
      reactions := map[];
      new;
      RegisterList(DefaultReactions(defs));
    }

    /** Registers each reaction of the list in turn. */
    method RegisterList(rs: seq<Reaction>)
      modifies this`reactions
      requires reactions == map[]
      ensures reactions == RegisterAll(map[], rs)
    {
      var i := 0;
      while i < |rs|
        invariant 0 <= i <= |rs|
        invariant reactions == RegisterAll(map[], rs[..i])
      {
        RegisterAllPrefix(rs, i);
        Register(rs[i]);
        i := i + 1;
      }
      assert rs[..|rs|] == rs;
    }

    /** `register`: appends to the bucket of the normalised pair. */
    method Register(r: Reaction)
      modifies this`reactions
      ensures reactions == Registered(old(reactions), r)
    {
      var key := if r.inputA <= r.inputB then (r.inputA, r.inputB) else (r.inputB, r.inputA);
      var bucket := if key in reactions then reactions[key] else [];
      reactions := reactions[key := bucket + [r]];
    }

    /** `find_reaction`: looks up the bucket, then scans it, skipping reactions with an unmet condition. */
    method FindReaction(a: U16, b: U16, temp: real, light: U8, pressure: real, neighbours: seq<U16>)
      returns (res: Option<Reaction>)
      ensures res == Find(reactions, a, b, Site(temp, light, pressure, neighbours))
      ensures WellKeyed(reactions) && res.Some? ==> MaterialsMatch(res.value, a, b)
    {
      var s := Site(temp, light, pressure, neighbours);
      var key := if a <= b then (a, b) else (b, a);
      if key !in reactions {
        return None;
      }
      var bucket := reactions[key];
      var i := 0;
      while i < |bucket|
        invariant 0 <= i <= |bucket|
        invariant forall j | 0 <= j < i :: !ConditionsHold(bucket[j], s)
      {
        var r := bucket[i];
        if r.minTemp.Some? && temp < r.minTemp.value {
          i := i + 1;
          continue;
        }
        if r.maxTemp.Some? && temp > r.maxTemp.value {
          i := i + 1;
          continue;
        }
        if r.requiresLight.Some? && light < r.requiresLight.value {
          i := i + 1;
          continue;
        }
        if r.minPressure.Some? && pressure < r.minPressure.value {
          i := i + 1;
          continue;
        }
        if r.catalyst.Some? && r.catalyst.value !in neighbours {
          i := i + 1;
          continue;
        }
        FirstHoldingAt(bucket, i, s);
        return Some(r);
      }
      return None;
    }
  }
}
