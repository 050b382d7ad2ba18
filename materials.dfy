/**
 * The material registry of the engine: material ids, material definitions,
 * the default table and a table indexed by id that falls back to entry 0.
 */
module Materials {
  import opened Wrappers
  import opened Ints

  const AIR: U16 := 0
  const STONE: U16 := 1
  const SAND: U16 := 2
  const WATER: U16 := 3
  const WOOD: U16 := 4
  const FIRE: U16 := 5
  const SMOKE: U16 := 6
  const STEAM: U16 := 7
  const LAVA: U16 := 8
  const OIL: U16 := 9
  const ACID: U16 := 10
  const ICE: U16 := 11
  const GLASS: U16 := 12
  const METAL: U16 := 13
  const BEDROCK: U16 := 14

  datatype MaterialType = Solid | Powder | Liquid | Gas

  datatype Rgba = Rgba(r: U8, g: U8, b: U8, a: U8)

  datatype MaterialDef = MaterialDef(
    id: U16,
    name: string,
    materialType: MaterialType,
    color: Rgba,
    density: real,
    hardness: Option<U8>,
    friction: real,
    viscosity: real,
    meltingPoint: Option<real>,
    boilingPoint: Option<real>,
    freezingPoint: Option<real>,
    ignitionTemp: Option<real>,
    heatConductivity: real,
    meltsTo: Option<U16>,
    boilsTo: Option<U16>,
    freezesTo: Option<U16>,
    burnsTo: Option<U16>,
    burnRate: real,
    flammable: bool,
    structural: bool,
    conductsElectricity: bool)

  /** The definition used for ids nobody registered (magenta, solid). */
  const Unknown: MaterialDef := MaterialDef(
    0, "unknown", Solid, Rgba(255, 0, 255, 255), 1.0, Some(1), 0.5, 0.5,
    None, None, None, None, 0.5, None, None, None, None, 0.0, false, false, false)

  /** The fifteen built-in materials, in registration order. */
  const AirDef: MaterialDef := Unknown.(id := AIR, name := "air", materialType := Gas,
    color := Rgba(0, 0, 0, 0), density := 0.001, hardness := None)
  const StoneDef: MaterialDef := Unknown.(id := STONE, name := "stone", materialType := Solid,
    color := Rgba(128, 128, 128, 255), density := 2.5, hardness := Some(5), structural := true,
    meltingPoint := Some(1200.0), meltsTo := Some(LAVA))
  const SandDef: MaterialDef := Unknown.(id := SAND, name := "sand", materialType := Powder,
    color := Rgba(194, 178, 128, 255), density := 1.5, hardness := Some(1), friction := 0.3,
    meltingPoint := Some(1700.0), meltsTo := Some(GLASS))
  const WaterDef: MaterialDef := Unknown.(id := WATER, name := "water", materialType := Liquid,
    color := Rgba(64, 164, 223, 200), density := 1.0, hardness := None, viscosity := 0.1,
    boilingPoint := Some(100.0), boilsTo := Some(STEAM),
    freezingPoint := Some(0.0), freezesTo := Some(ICE), heatConductivity := 0.6)
  const WoodDef: MaterialDef := Unknown.(id := WOOD, name := "wood", materialType := Solid,
    color := Rgba(139, 90, 43, 255), density := 0.6, hardness := Some(2), structural := true,
    flammable := true, ignitionTemp := Some(300.0), burnsTo := Some(AIR), burnRate := 0.02)
  const FireDef: MaterialDef := Unknown.(id := FIRE, name := "fire", materialType := Gas,
    color := Rgba(255, 100, 0, 255), density := 0.0001, hardness := None)
  const SmokeDef: MaterialDef := Unknown.(id := SMOKE, name := "smoke", materialType := Gas,
    color := Rgba(60, 60, 60, 150), density := 0.001, hardness := None)
  const SteamDef: MaterialDef := Unknown.(id := STEAM, name := "steam", materialType := Gas,
    color := Rgba(200, 200, 200, 100), density := 0.0006, hardness := None,
    freezingPoint := Some(100.0), freezesTo := Some(WATER))
  const LavaDef: MaterialDef := Unknown.(id := LAVA, name := "lava", materialType := Liquid,
    color := Rgba(255, 80, 0, 255), density := 3.0, hardness := None, viscosity := 0.8,
    freezingPoint := Some(700.0), freezesTo := Some(STONE), heatConductivity := 0.8)
  const OilDef: MaterialDef := Unknown.(id := OIL, name := "oil", materialType := Liquid,
    color := Rgba(50, 40, 30, 255), density := 0.8, hardness := None, viscosity := 0.3,
    flammable := true, ignitionTemp := Some(200.0), burnsTo := Some(SMOKE), burnRate := 0.05)
  const AcidDef: MaterialDef := Unknown.(id := ACID, name := "acid", materialType := Liquid,
    color := Rgba(0, 255, 0, 200), density := 1.1, hardness := None, viscosity := 0.2)
  const IceDef: MaterialDef := Unknown.(id := ICE, name := "ice", materialType := Solid,
    color := Rgba(200, 230, 255, 200), density := 0.9, hardness := Some(2), structural := true,
    meltingPoint := Some(0.0), meltsTo := Some(WATER))
  const GlassDef: MaterialDef := Unknown.(id := GLASS, name := "glass", materialType := Solid,
    color := Rgba(200, 220, 255, 150), density := 2.5, hardness := Some(3), structural := true,
    meltingPoint := Some(1400.0), meltsTo := Some(LAVA))
  const MetalDef: MaterialDef := Unknown.(id := METAL, name := "metal", materialType := Solid,
    color := Rgba(180, 180, 190, 255), density := 7.8, hardness := Some(7), structural := true,
    meltingPoint := Some(1500.0), meltsTo := Some(LAVA), heatConductivity := 0.9,
    conductsElectricity := true)
  const BedrockDef: MaterialDef := Unknown.(id := BEDROCK, name := "bedrock", materialType := Solid,
    color := Rgba(40, 40, 50, 255), density := 100.0, hardness := None, structural := true,
    heatConductivity := 0.1)

  function DefaultDefs(): seq<MaterialDef>
  {
    [ AirDef, StoneDef, SandDef, WaterDef, WoodDef, FireDef, SmokeDef, SteamDef, LavaDef, OilDef, AcidDef, IceDef, GlassDef, MetalDef, BedrockDef ]
  }

  /** The table after registering `m`: grown with `Unknown` entries up to `m.id`, then entry `m.id` replaced. */
  function Registered(table: seq<MaterialDef>, m: MaterialDef): (r: seq<MaterialDef>)
    ensures |r| == Max(|table|, m.id + 1)
    ensures r[m.id] == m
    ensures forall i :: 0 <= i < |table| && i != m.id ==> r[i] == table[i]
    ensures forall i :: |table| <= i < |r| && i != m.id ==> r[i] == Unknown
  {
    var grown := if |table| <= m.id then table + seq(m.id + 1 - |table|, _ => Unknown) else table;
    grown[m.id := m]
  }

  /** Registering every definition of `defs` in order, starting from `table`. */
  function RegisterAll(table: seq<MaterialDef>, defs: seq<MaterialDef>): seq<MaterialDef>
    decreases |defs|
  {
    if defs == [] then table else RegisterAll(Registered(table, defs[0]), defs[1..])
  }

  /** The lookup of `Materials::get`: entry `id`, or entry 0 when `id` is beyond the table. */
  function Lookup(table: seq<MaterialDef>, id: U16): MaterialDef
    requires |table| > 0
  {
    if id < |table| then table[id] else table[0]
  }

  /** Registering definitions whose ids equal their positions rebuilds exactly that sequence. */
  lemma {:induction false} RegisterInOrder(defs: seq<MaterialDef>, k: nat)
    requires k <= |defs|
    requires forall i :: 0 <= i < |defs| ==> defs[i].id == i
    ensures RegisterAll(defs[..k], defs[k..]) == defs
    decreases |defs| - k
  {
    if k == |defs| {
      assert defs[..k] == defs;
    } else {
      assert Registered(defs[..k], defs[k]) == defs[..k + 1];
      assert defs[k..][1..] == defs[k + 1..];
      RegisterInOrder(defs, k + 1);
    }
  }

  lemma DefaultIdsArePositions()
    ensures |DefaultDefs()| == 15
    ensures forall i :: 0 <= i < 15 ==> DefaultDefs()[i].id == i
  {
  }

  /** Registering the defaults into an empty table yields them in id order: entry `i` is the material with id `i`. */
  lemma DefaultRegistration()
    ensures RegisterAll([], DefaultDefs()) == DefaultDefs()
    ensures |DefaultDefs()| == 15
    ensures forall i :: 0 <= i < 15 ==> Lookup(DefaultDefs(), i).id == i
  {
    DefaultIdsArePositions();
    RegisterInOrder(DefaultDefs(), 0);
    assert DefaultDefs()[..0] == [] && DefaultDefs()[0..] == DefaultDefs();
  }

  /** An id beyond the default table reads as AIR, a transparent gas. */
  lemma UnknownIdIsAir(id: U16)
    requires id >= 15
    ensures Lookup(DefaultDefs(), id).id == AIR
    ensures Lookup(DefaultDefs(), id).materialType == Gas
    ensures Lookup(DefaultDefs(), id).color == Rgba(0, 0, 0, 0)
  {
  }

  /** BEDROCK is an unbreakable structural solid; AIR is an unbreakable gas. */
  lemma BedrockAndAir()
    ensures Lookup(DefaultDefs(), BEDROCK).materialType == Solid
    ensures Lookup(DefaultDefs(), BEDROCK).structural && Lookup(DefaultDefs(), BEDROCK).hardness == None
    ensures Lookup(DefaultDefs(), AIR).materialType == Gas && Lookup(DefaultDefs(), AIR).hardness == None
  {
  }

  lemma {:induction false} RegisterAllNonEmpty(table: seq<MaterialDef>, defs: seq<MaterialDef>)
    requires defs != []
    ensures |RegisterAll(table, defs)| > 0
    decreases |defs|
  {
    var next := Registered(table, defs[0]);
    if |defs| > 1 {
      RegisterAllNonEmpty(next, defs[1..]);
    }
  }

  /** Registering the rest of a list from position `i` registers its entry `i`, then the rest after it. */
  lemma RegisterAllStep(table: seq<MaterialDef>, defs: seq<MaterialDef>, i: nat)
    requires i < |defs|
    ensures RegisterAll(table, defs[i..]) == RegisterAll(Registered(table, defs[i]), defs[i + 1..])
  {
    assert defs[i..][1..] == defs[i + 1..];
  }

  /** The registry `Materials`, whose table is a growable vector written in place. */
  class Registry {
    var table: seq<MaterialDef>

    ghost predicate Valid() reads this { |table| > 0 }

    constructor ()
      ensures Valid() && table == DefaultDefs()
    {
      table := [];
      new;
      RegisterDefaults();
      DefaultRegistration();
    }

    method RegisterDefaults()
      modifies this`table
      ensures table == RegisterAll(old(table), DefaultDefs())
      ensures |table| > 0
    {
      RegisterEach(DefaultDefs());
      RegisterAllNonEmpty(old(table), DefaultDefs());
    }

    /** Registers each definition of the list in turn. */
    method RegisterEach(defs: seq<MaterialDef>)
      modifies this`table
      ensures table == RegisterAll(old(table), defs)
    {
      ghost var t0 := table;
      var i := 0;
      while i < |defs|
        invariant 0 <= i <= |defs|
        invariant RegisterAll(t0, defs) == RegisterAll(table, defs[i..])
      {
        RegisterAllStep(table, defs, i);
        Register(defs[i]);
        i := i + 1;
      }
    }

    method Register(m: MaterialDef)
      modifies this`table
      ensures table == Registered(old(table), m)
    {
      if |table| <= m.id {
        table := table + seq(m.id + 1 - |table|, _ => Unknown);
      }
      table := table[m.id := m];
    }

    method Get(id: U16) returns (d: MaterialDef)
      requires Valid()
      ensures d == Lookup(table, id)
      ensures id < |table| ==> d == table[id]
      ensures id >= |table| ==> d == table[0]
    {
      if id < |table| { d := table[id]; } else { d := table[0]; }
    }

    method GetColor(id: U16) returns (c: Rgba)
      requires Valid()
      ensures c == Lookup(table, id).color
    {
      var d := Get(id);
      c := d.color;
    }
  }
}
