/**
 * Underground biome zones: five depth bands, each with its own stone, wall
 * and feature materials, lighting and multipliers; a registry that finds the
 * zone at a height (with fallbacks when there is none or the system is off);
 * and the blend weights across the boundary between two zones. The `f32`
 * fields and results are reals.
 */
module BiomeZones {
  import opened Wrappers
  import opened Ints
  import M = Materials
  import CoreIds

  datatype UndergroundZone = ShallowCaves | MushroomGrotto | CrystalCaves | LavaCaverns | Abyss

  /** `UndergroundZone::all`: every zone type, by increasing depth. */
  function AllZoneTypes(): (zs: seq<UndergroundZone>)
    ensures |zs| == 5 && zs[0] == ShallowCaves && zs[4] == Abyss
    ensures forall i, j | 0 <= i < j < |zs| :: zs[i] != zs[j]
  {
    [ShallowCaves, MushroomGrotto, CrystalCaves, LavaCaverns, Abyss]
  }

  /** Every zone type is listed. */
  lemma AllZoneTypesComplete(z: UndergroundZone)
    ensures z in AllZoneTypes()
  {
    var zs := AllZoneTypes();
    match z
    case ShallowCaves => assert zs[0] == z;
    case MushroomGrotto => assert zs[1] == z;
    case CrystalCaves => assert zs[2] == z;
    case LavaCaverns => assert zs[3] == z;
    case Abyss => assert zs[4] == z;
  }

  function ZoneName(z: UndergroundZone): string
  {
    match z
    case ShallowCaves => "Shallow Caves"
    case MushroomGrotto => "Mushroom Grotto"
    case CrystalCaves => "Crystal Caves"
    case LavaCaverns => "Lava Caverns"
    case Abyss => "Abyss"
  }

  /** Zone names tell the zone types apart. */
  lemma ZoneNamesDistinct(a: UndergroundZone, b: UndergroundZone)
    ensures ZoneName(a) == ZoneName(b) <==> a == b
  {
  }

  /** A zone spans heights maxY < y <= minY (y grows upward; maxY is the deeper bound). */
  datatype ZoneDefinition = ZoneDefinition(
    name: string,
    zoneType: UndergroundZone,
    minY: int,
    maxY: int,
    primaryStone: U16,
    caveWallMaterial: U16,
    featureMaterial: Option<U16>,
    featureDensity: real,
    ambientLight: U8,
    caveSizeMultiplier: real,
    oreMultiplier: real)

  const ShallowCavesZone: ZoneDefinition := ZoneDefinition(
    "Shallow Caves", ShallowCaves, 0, -500, M.STONE, M.STONE, None, 0.0, 0, 1.0, 1.0)
  const MushroomGrottoZone: ZoneDefinition := ZoneDefinition(
    "Mushroom Grotto", MushroomGrotto, -500, -1200, CoreIds.MOSSY_STONE, CoreIds.MOSSY_STONE,
    Some(CoreIds.GLOWING_MUSHROOM), 0.15, 30, 1.2, 0.8)
  const CrystalCavesZone: ZoneDefinition := ZoneDefinition(
    "Crystal Caves", CrystalCaves, -1200, -2000, M.STONE, M.STONE, Some(CoreIds.CRYSTAL), 0.10, 20, 1.0, 1.3)
  const LavaCavernsZone: ZoneDefinition := ZoneDefinition(
    "Lava Caverns", LavaCaverns, -2000, -2800, CoreIds.BASALT, CoreIds.BASALT, Some(CoreIds.OBSIDIAN),
    0.08, 40, 1.4, 1.5)
  const AbyssZone: ZoneDefinition := ZoneDefinition(
    "Abyss", Abyss, -2800, -4000, CoreIds.BASALT, CoreIds.BASALT, None, 0.0, 0, 0.6, 2.0)

  /** The zones a new registry holds, from the surface down. */
  const DefaultZones: seq<ZoneDefinition> :=
    [ShallowCavesZone, MushroomGrottoZone, CrystalCavesZone, LavaCavernsZone, AbyssZone]

  /** `contains_y`: the top bound is inclusive, the bottom bound exclusive. */
  predicate ContainsY(z: ZoneDefinition, y: int)
  {
    y <= z.minY && y > z.maxY
  }

  /** The mushroom grotto's bounds, as the source's examples probe them. */
  lemma GrottoBounds()
    ensures !ContainsY(MushroomGrottoZone, 0) && ContainsY(MushroomGrottoZone, -500)
    ensures ContainsY(MushroomGrottoZone, -800)
    ensures !ContainsY(MushroomGrottoZone, -1200) && !ContainsY(MushroomGrottoZone, -1500)
  {
  }

  /**
   * `depth_factor`: 0 outside the zone, otherwise the distance below the top
   * as a fraction of the zone's height. The `range == 0` branch returns 0.5,
   * but a zone of height 0 contains no y, so that branch is never taken.
   */
  function DepthFactor(z: ZoneDefinition, y: int): (f: real)
    ensures !ContainsY(z, y) ==> f == 0.0
    ensures y == z.minY ==> f == 0.0
    ensures ContainsY(z, y) ==> 0.0 <= f < 1.0
  {
    if !ContainsY(z, y) then 0.0
    else
      var range := (z.minY - z.maxY) as real;
      if range == 0.0 then 0.5
      else
        FractionBelowOne(z.minY - y, z.minY - z.maxY);
        (z.minY - y) as real / range
  }

  lemma FractionBelowOne(a: int, b: int)
    requires 0 <= a < b
    ensures 0.0 <= a as real / b as real < 1.0
  {
  }

  /** Deeper in the zone, the factor is larger. */
  lemma DepthFactorMonotone(z: ZoneDefinition, y1: int, y2: int)
    requires ContainsY(z, y1) && ContainsY(z, y2) && y2 <= y1
    ensures DepthFactor(z, y1) <= DepthFactor(z, y2)
  {
    var r := (z.minY - z.maxY) as real;
    assert (z.minY - y1) as real <= (z.minY - y2) as real;
    DivideMonotone((z.minY - y1) as real, (z.minY - y2) as real, r);
  }

  lemma DivideMonotone(a: real, b: real, r: real)
    requires a <= b && r > 0.0
    ensures a / r <= b / r
  {
  }

  /** The grotto's factor is 0 at its top and 0.5 half-way down. */
  lemma GrottoDepthFactor()
    ensures DepthFactor(MushroomGrottoZone, -500) == 0.0
    ensures DepthFactor(MushroomGrottoZone, -850) == 0.5
  {
  }

  // ---------------------------------------------------------------------
  // Lookups

  /** The first zone satisfying p, as an index, the way `iter().find` scans. */
  function FirstIndex(zones: seq<ZoneDefinition>, p: ZoneDefinition -> bool): (r: Option<nat>)
    ensures r.Some? ==> r.value < |zones| && p(zones[r.value]) && forall j | 0 <= j < r.value :: !p(zones[j])
    ensures r.None? ==> forall j | 0 <= j < |zones| :: !p(zones[j])
  {
    if zones == [] then None
    else if p(zones[0]) then Some(0)
    else
      match FirstIndex(zones[1..], p)
      case None => None
      case Some(i) => Some(i + 1)
  }

  /** `get_zone_at`: None when the system is off; otherwise the first zone containing y. */
  function ZoneAt(zones: seq<ZoneDefinition>, enabled: bool, y: int): (r: Option<ZoneDefinition>)
    ensures !enabled ==> r.None?
    ensures enabled && r.None? ==> forall j | 0 <= j < |zones| :: !ContainsY(zones[j], y)
    ensures r.Some? ==> exists i | 0 <= i < |zones| :: zones[i] == r.value
                                                       && forall j | 0 <= j < i :: !ContainsY(zones[j], y)
    ensures r.Some? ==> ContainsY(r.value, y)
  {
    if !enabled then None
    else
      match FirstIndex(zones, (z: ZoneDefinition) => ContainsY(z, y))
      case None => None
      case Some(i) => Some(zones[i])
  }

  /** `get_zone`: the first zone of a type. */
  function ZoneOfType(zones: seq<ZoneDefinition>, t: UndergroundZone): (r: Option<ZoneDefinition>)
    ensures r.None? <==> forall j | 0 <= j < |zones| :: zones[j].zoneType != t
    ensures r.Some? ==> r.value in zones && r.value.zoneType == t
  {
    match FirstIndex(zones, (z: ZoneDefinition) => z.zoneType == t)
    case None => None
    case Some(i) => Some(zones[i])
  }

  /** `get_stone_material`: the zone's primary stone, or STONE. */
  function StoneMaterial(zones: seq<ZoneDefinition>, enabled: bool, y: int): U16
  {
    match ZoneAt(zones, enabled, y)
    case Some(z) => z.primaryStone
    case None => M.STONE
  }

  /** `get_cave_wall_material`: the zone's wall material, or STONE. */
  function CaveWallMaterial(zones: seq<ZoneDefinition>, enabled: bool, y: int): U16
  {
    match ZoneAt(zones, enabled, y)
    case Some(z) => z.caveWallMaterial
    case None => M.STONE
  }

  /** `get_feature_info`: the zone's feature material with its density, if the zone has one. */
  function FeatureInfo(zones: seq<ZoneDefinition>, enabled: bool, y: int): Option<(U16, real)>
  {
    match ZoneAt(zones, enabled, y)
    case Some(z) => if z.featureMaterial.Some? then Some((z.featureMaterial.value, z.featureDensity)) else None
    case None => None
  }

  /** `get_ore_multiplier`: the zone's, or 1. */
  function OreMultiplier(zones: seq<ZoneDefinition>, enabled: bool, y: int): real
  {
    match ZoneAt(zones, enabled, y)
    case Some(z) => z.oreMultiplier
    case None => 1.0
  }

  /** `get_cave_size_multiplier`: the zone's, or 1. */
  function CaveSizeMultiplier(zones: seq<ZoneDefinition>, enabled: bool, y: int): real
  {
    match ZoneAt(zones, enabled, y)
    case Some(z) => z.caveSizeMultiplier
    case None => 1.0
  }

  /** `get_ambient_light`: the zone's, or 0 (dark). */
  function AmbientLight(zones: seq<ZoneDefinition>, enabled: bool, y: int): U8
  {
    match ZoneAt(zones, enabled, y)
    case Some(z) => z.ambientLight
    case None => 0
  }

  /** With the system off, or at a height no zone contains, every query falls back to its default. */
  lemma Fallbacks(zones: seq<ZoneDefinition>, enabled: bool, y: int)
    requires !enabled || forall j | 0 <= j < |zones| :: !ContainsY(zones[j], y)
    ensures StoneMaterial(zones, enabled, y) == M.STONE && CaveWallMaterial(zones, enabled, y) == M.STONE
    ensures FeatureInfo(zones, enabled, y).None?
    ensures OreMultiplier(zones, enabled, y) == 1.0 && CaveSizeMultiplier(zones, enabled, y) == 1.0
    ensures AmbientLight(zones, enabled, y) == 0
  {
    if enabled {
      assert FirstIndex(zones, (z: ZoneDefinition) => ContainsY(z, y)).None?;
    }
  }

  /** Inside a zone, every query answers from that zone. */
  lemma AnswersFromZone(zones: seq<ZoneDefinition>, enabled: bool, y: int, z: ZoneDefinition)
    requires ZoneAt(zones, enabled, y) == Some(z)
    ensures StoneMaterial(zones, enabled, y) == z.primaryStone
    ensures CaveWallMaterial(zones, enabled, y) == z.caveWallMaterial
    ensures FeatureInfo(zones, enabled, y).Some? <==> z.featureMaterial.Some?
    ensures OreMultiplier(zones, enabled, y) == z.oreMultiplier
    ensures AmbientLight(zones, enabled, y) == z.ambientLight
  {
  }

  /** The default zone of a depth band, by the bands' bounds. */
  function DefaultZoneIndex(y: int): nat
    requires -4000 < y <= 0
  {
    if y > -500 then 0 else if y > -1200 then 1 else if y > -2000 then 2 else if y > -2800 then 3 else 4
  }

  /**
   * The default zones tile (-4000, 0]: each such y lies in exactly one of
   * them; y above 0 and y at or below -4000 lie in none.
   */
  lemma DefaultZonesPartition(y: int)
    ensures -4000 < y <= 0 ==> forall j | 0 <= j < 5 :: ContainsY(DefaultZones[j], y) <==> j == DefaultZoneIndex(y)
    ensures !(-4000 < y <= 0) ==> forall j | 0 <= j < 5 :: !ContainsY(DefaultZones[j], y)
  {
  }

  /** With the default zones enabled, the zone at y in (-4000, 0] is the zone of y's band. */
  lemma DefaultZoneAt(y: int)
    requires -4000 < y <= 0
    ensures ZoneAt(DefaultZones, true, y) == Some(DefaultZones[DefaultZoneIndex(y)])
  {
    DefaultZonesPartition(y);
  }

  /** The source's sample heights: stone at -100, mossy stone at -800, basalt at -2500, no zone at 100. */
  lemma DefaultSamples()
    ensures StoneMaterial(DefaultZones, true, -100) == M.STONE
    ensures StoneMaterial(DefaultZones, true, -800) == CoreIds.MOSSY_STONE
    ensures StoneMaterial(DefaultZones, true, -2500) == CoreIds.BASALT
    ensures ZoneAt(DefaultZones, true, 100).None?
    ensures FeatureInfo(DefaultZones, true, -100).None?
    ensures FeatureInfo(DefaultZones, true, -800) == Some((CoreIds.GLOWING_MUSHROOM, 0.15))
    ensures OreMultiplier(DefaultZones, true, -3000) == 2.0
    ensures StoneMaterial(DefaultZones, false, -800) == M.STONE
  {
    DefaultZoneAt(-100);
    DefaultZoneAt(-800);
    DefaultZoneAt(-2500);
    DefaultZoneAt(-3000);
    DefaultZonesPartition(100);
    Fallbacks(DefaultZones, true, 100);
  }

  /** The zone list with its first zone of type t replaced by config; unchanged if there is none. */
  function ReplaceFirst(zones: seq<ZoneDefinition>, t: UndergroundZone, config: ZoneDefinition): seq<ZoneDefinition>
  {
    match FirstIndex(zones, (z: ZoneDefinition) => z.zoneType == t)
    case None => zones
    case Some(i) => zones[i := config]
  }

  /** `update_zone` replaces only the first zone of the type, and nothing when there is none. */
  lemma ReplaceFirstOnly(zones: seq<ZoneDefinition>, t: UndergroundZone, config: ZoneDefinition)
    ensures |ReplaceFirst(zones, t, config)| == |zones|
    ensures (forall j | 0 <= j < |zones| :: zones[j].zoneType != t) ==> ReplaceFirst(zones, t, config) == zones
    ensures forall i | 0 <= i < |zones| && zones[i].zoneType == t && (forall j | 0 <= j < i :: zones[j].zoneType != t) ::
              ReplaceFirst(zones, t, config) == zones[i := config]
  {
    var f := FirstIndex(zones, (z: ZoneDefinition) => z.zoneType == t);
    forall i | 0 <= i < |zones| && zones[i].zoneType == t && (forall j | 0 <= j < i :: zones[j].zoneType != t)
      ensures ReplaceFirst(zones, t, config) == zones[i := config]
    {
      assert f.Some?;
    }
  }

  // ---------------------------------------------------------------------
  // The registry, updated in place

  class BiomeZoneRegistry {
    var zones: seq<ZoneDefinition>
    var enabled: bool
    var surfaceInfluence: bool

    /** `new`: the five default zones, enabled, without surface influence. */
    constructor ()
      ensures zones == DefaultZones && enabled && !surfaceInfluence
    {
      zones := DefaultZones;
      enabled := true;
      surfaceInfluence := false;
    }

    function GetZoneAt(y: int): Option<ZoneDefinition>
      reads this
    {
      ZoneAt(zones, enabled, y)
    }

    method SetEnabled(on: bool)
      modifies this
      ensures enabled == on && zones == old(zones) && surfaceInfluence == old(surfaceInfluence)
    {
      enabled := on;
    }

    method SetSurfaceInfluence(on: bool)
      modifies this
      ensures surfaceInfluence == on && zones == old(zones) && enabled == old(enabled)
    {
      surfaceInfluence := on;
    }

    /** `update_zone`: scan for the first zone of the type and overwrite it with config. */
    method UpdateZone(t: UndergroundZone, config: ZoneDefinition)
      modifies this
      ensures zones == ReplaceFirst(old(zones), t, config)
      ensures enabled == old(enabled) && surfaceInfluence == old(surfaceInfluence)
    {
      var i := 0;
      while i < |zones|
        invariant i <= |zones|
        invariant forall j | 0 <= j < i :: zones[j].zoneType != t
      {
        if zones[i].zoneType == t {
          ReplaceFirstOnly(zones, t, config);
          zones := zones[i := config];
          return;
        }
        i := i + 1;
      }
      ReplaceFirstOnly(zones, t, config);
    }
  }

  /** Turning the system off silences every lookup, whatever the zones. */
  lemma DisabledRegistryIsSilent(zones: seq<ZoneDefinition>, y: int)
    ensures ZoneAt(zones, false, y).None? && StoneMaterial(zones, false, y) == M.STONE
  {
  }

  // ---------------------------------------------------------------------
  // Blending across a boundary

  /** The transition band around zone1's bottom boundary: from boundary + h/2 down to boundary - h/2. */
  function TransitionStart(height: int, z1: ZoneDefinition): int { z1.maxY + TruncDiv(height, 2) }
  function TransitionEnd(height: int, z1: ZoneDefinition): int { z1.maxY - TruncDiv(height, 2) }

  /**
   * `calculate_blend`: (1, 0) at or above the band's start, (0, 1) at or
   * below its end, and in between the share of the band already passed.
   */
  function CalculateBlend(height: int, y: int, z1: ZoneDefinition): (w: (real, real))
    ensures w.0 >= 0.0 && w.1 >= 0.0 && w.0 + w.1 == 1.0
    ensures y >= TransitionStart(height, z1) ==> w == (1.0, 0.0)
    ensures y <= TransitionEnd(height, z1) && y < TransitionStart(height, z1) ==> w == (0.0, 1.0)
    ensures TransitionEnd(height, z1) < y < TransitionStart(height, z1) ==> 0.0 < w.1 < 1.0
  {
    var start := TransitionStart(height, z1);
    var end := TransitionEnd(height, z1);
    if y >= start then (1.0, 0.0)
    else if y <= end then (0.0, 1.0)
    else
      BandShare(height, start - y);
      var t := (start - y) as real / height as real;
      (1.0 - t, t)
  }

  /** Inside a non-empty band the distance from its start is less than the band's height. */
  lemma BandShare(height: int, d: int)
    requires 1 <= d && d < 2 * TruncDiv(height, 2)
    ensures height > 0 && 0.0 < d as real / height as real < 1.0
  {
    assert height >= 2;
    assert 2 * TruncDiv(height, 2) <= height;
  }

  /** The weights move toward zone 2 as y goes down. */
  lemma BlendMonotone(height: int, y1: int, y2: int, z1: ZoneDefinition)
    requires y2 <= y1
    ensures CalculateBlend(height, y1, z1).1 <= CalculateBlend(height, y2, z1).1
  {
    var start := TransitionStart(height, z1);
    var end := TransitionEnd(height, z1);
    if end < y2 && y1 < start {
      DivideMonotone((start - y1) as real, (start - y2) as real, height as real);
    }
  }

  /** The source's example: with a 32-pixel band, the boundary between the two top zones is an even blend. */
  lemma EvenBlendAtBoundary()
    ensures CalculateBlend(32, -500, ShallowCavesZone) == (0.5, 0.5)
    ensures CalculateBlend(32, -400, ShallowCavesZone) == (1.0, 0.0)
    ensures CalculateBlend(32, -600, ShallowCavesZone) == (0.0, 1.0)
  {
  }

  /** `blend_materials`: zone 2's stone once zone 2's weight plus a fifth of the noise exceeds one half. */
  function BlendMaterials(height: int, y: int, z1: ZoneDefinition, z2: ZoneDefinition, noise: real): U16
  {
    var w := CalculateBlend(height, y, z1);
    if w.1 + noise * 0.2 > 0.5 then z2.primaryStone else z1.primaryStone
  }

  /** With noise in [-1, 1], the noise never crosses a cell fully inside one zone over to the other. */
  lemma BlendKeepsFullZones(height: int, y: int, z1: ZoneDefinition, z2: ZoneDefinition, noise: real)
    requires -1.0 <= noise <= 1.0
    ensures y >= TransitionStart(height, z1) ==> BlendMaterials(height, y, z1, z2, noise) == z1.primaryStone
    ensures y <= TransitionEnd(height, z1) && y < TransitionStart(height, z1)
            ==> BlendMaterials(height, y, z1, z2, noise) == z2.primaryStone
  {
  }
}
