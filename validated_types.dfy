/**
 * Range-checked values for scenario files: material ids, inventory slots,
 * radii, health and hunger, and the key and creature names a scenario may
 * use. Each constructor either wraps the value or reports why it is refused.
 * An `f32` is finite (a real), NaN, or an infinity.
 */
module ValidatedTypes {
  import opened Wrappers
  import opened Ints

  /** Why a value was refused. */
  datatype Refusal =
    | OutOfRange
    | TooSmall
    | TooLarge
    | NotFinite
    | Negative
    | TooHigh
    | UnknownName(name: string)
    | EvolvedNotSpawnable

  datatype F32 = Finite(v: real) | NaN | PosInf | NegInf

  const MATERIAL_MAX: nat := 37
  const SLOT_MAX: nat := 49
  const RADIUS_MIN: nat := 1
  const RADIUS_MAX: nat := 1000
  const VITAL_MAX: real := 100.0

  type MaterialIdValue = id: U16 | id <= 37
  type SlotValue = s: nat | s <= 49
  type RadiusValue = r: U32 | 1 <= r <= 1000 witness 1
  type VitalValue = v: real | 0.0 <= v <= 100.0

  /** `ValidatedMaterialId::new`: ids 0..=37. */
  function NewMaterialId(id: U16): (r: Result<MaterialIdValue, Refusal>)
    ensures r.Ok? <==> id <= MATERIAL_MAX
    ensures r.Ok? ==> r.value == id
    ensures r.Err? ==> r.error == OutOfRange
  {
    if id > MATERIAL_MAX then Err(OutOfRange) else Ok(id)
  }

  /** `ValidatedSlotIndex::new`: slots 0..=49. */
  function NewSlotIndex(slot: nat): (r: Result<SlotValue, Refusal>)
    ensures r.Ok? <==> slot <= SLOT_MAX
    ensures r.Ok? ==> r.value == slot
  {
    if slot > SLOT_MAX then Err(OutOfRange) else Ok(slot)
  }

  /** `ValidatedRadius::new`: radii 1..=1000, the lower bound checked first. */
  function NewRadius(radius: U32): (r: Result<RadiusValue, Refusal>)
    ensures r.Ok? <==> RADIUS_MIN <= radius <= RADIUS_MAX
    ensures r.Ok? ==> r.value == radius
    ensures radius < RADIUS_MIN ==> r == Err(TooSmall)
    ensures radius > RADIUS_MAX ==> r == Err(TooLarge)
  {
    if radius < RADIUS_MIN then Err(TooSmall)
    else if radius > RADIUS_MAX then Err(TooLarge)
    else Ok(radius)
  }

  /** `ValidatedHealth::new` and `ValidatedHunger::new`: finite values in [0, 100], checked in that order. */
  function NewVital(x: F32): (r: Result<VitalValue, Refusal>)
    ensures r.Ok? <==> x.Finite? && 0.0 <= x.v <= VITAL_MAX
    ensures r.Ok? ==> r.value == x.v
    ensures !x.Finite? ==> r == Err(NotFinite)
    ensures x.Finite? && x.v < 0.0 ==> r == Err(Negative)
    ensures x.Finite? && x.v > VITAL_MAX ==> r == Err(TooHigh)
  {
    match x
    case Finite(v) => if v < 0.0 then Err(Negative) else if v > VITAL_MAX then Err(TooHigh) else Ok(v)
    case _ => Err(NotFinite)
  }

  /** The source's examples for the range checks. */
  lemma RangeExamples()
    ensures NewMaterialId(0).Ok? && NewMaterialId(37).Ok? && NewMaterialId(38).Err? && NewMaterialId(999).Err?
    ensures NewSlotIndex(49).Ok? && NewSlotIndex(50).Err?
    ensures NewRadius(0).Err? && NewRadius(1).Ok? && NewRadius(1000).Ok? && NewRadius(1001).Err?
    ensures NewVital(Finite(-1.0)).Err? && NewVital(Finite(100.0)).Ok? && NewVital(Finite(101.0)).Err?
    ensures NewVital(NaN).Err? && NewVital(PosInf).Err?
  {
  }

  // ---------------------------------------------------------------------
  // Names

  /**
   * Lower-casing of one character, as far as it matters for parsing: the
   * ASCII capitals, and the Kelvin sign, whose lower case is an ASCII 'k'.
   * Every other character is kept; none of them lower-cases to ASCII, so
   * no name can match through it either way.
   */
  function LowerChar(c: char): char
  {
    if 'A' <= c <= 'Z' then (c as int + 32) as char
    else if c == '\U{212A}' then 'k'
    else c
  }

  function Lower(s: string): (r: string)
    ensures |r| == |s| && forall i | 0 <= i < |s| :: r[i] == LowerChar(s[i])
  {
    seq(|s|, i requires 0 <= i < |s| => LowerChar(s[i]))
  }

  lemma LowerIdempotent(s: string)
    ensures Lower(Lower(s)) == Lower(s)
  {
  }

  datatype SimulatedKey = W | A | S | D | Space

  /** `SimulatedKey::try_from`: the lower-cased name of one of the five keys. */
  function ParseKey(s: string): (r: Result<SimulatedKey, Refusal>)
    ensures r.Err? ==> r.error == UnknownName(s)
  {
    match Lower(s)
    case "w" => Ok(W)
    case "a" => Ok(A)
    case "s" => Ok(S)
    case "d" => Ok(D)
    case "space" => Ok(Space)
    case _ => Err(UnknownName(s))
  }

  /** `SimulatedKey::as_str`. */
  function KeyName(k: SimulatedKey): string
  {
    match k
    case W => "w"
    case A => "a"
    case S => "s"
    case D => "d"
    case Space => "space"
  }

  /** Parsing a key's name gives the key back. */
  lemma KeyRoundTrip(k: SimulatedKey)
    ensures ParseKey(KeyName(k)) == Ok(k)
  {
    match k
    case W => assert Lower("w") == "w";
    case A => assert Lower("a") == "a";
    case S => assert Lower("s") == "s";
    case D => assert Lower("d") == "d";
    case Space => assert Lower("space") == "space";
  }

  /** Parsing ignores case: a string parses as its lower-cased form does (errors keep the original text). */
  lemma KeyCaseInsensitive(s: string)
    ensures ParseKey(s).Ok? <==> ParseKey(Lower(s)).Ok?
    ensures ParseKey(s).Ok? ==> ParseKey(s) == ParseKey(Lower(s))
  {
    LowerIdempotent(s);
  }

  /** Exactly the five key names, in any case, are accepted. */
  lemma KeyAccepted(s: string)
    ensures ParseKey(s).Ok? <==> Lower(s) in {"w", "a", "s", "d", "space"}
  {
  }

  lemma KeyExamples()
    ensures ParseKey("W") == Ok(W) && ParseKey("space") == Ok(Space) && ParseKey("x").Err?
  {
    assert Lower("W") == "w";
    assert Lower("space") == "space";
    assert Lower("x") == "x";
  }

  datatype CreatureArchetype = Spider | Snake | Worm | Flyer

  /** `CreatureArchetype::try_from`: the four archetypes; "evolved" has its own refusal. */
  function ParseArchetype(s: string): (r: Result<CreatureArchetype, Refusal>)
    ensures Lower(s) == "evolved" ==> r == Err(EvolvedNotSpawnable)
  {
    match Lower(s)
    case "spider" => Ok(Spider)
    case "snake" => Ok(Snake)
    case "worm" => Ok(Worm)
    case "flyer" => Ok(Flyer)
    case "evolved" => Err(EvolvedNotSpawnable)
    case _ => Err(UnknownName(s))
  }

  /** The Kelvin sign lower-cases to 'k', so "sna" + Kelvin sign + "e" names the snake. */
  lemma KelvinSignSnake()
    ensures ParseArchetype("sna\U{212A}e") == Ok(Snake)
  {
    assert Lower("sna\U{212A}e") == "snake";
  }

  /** `CreatureArchetype::as_str`. */
  function ArchetypeName(a: CreatureArchetype): string
  {
    match a
    case Spider => "spider"
    case Snake => "snake"
    case Worm => "worm"
    case Flyer => "flyer"
  }

  /** Parsing an archetype's name gives the archetype back. */
  lemma ArchetypeRoundTrip(a: CreatureArchetype)
    ensures ParseArchetype(ArchetypeName(a)) == Ok(a)
  {
    match a
    case Spider => assert Lower("spider") == "spider";
    case Snake => assert Lower("snake") == "snake";
    case Worm => assert Lower("worm") == "worm";
    case Flyer => assert Lower("flyer") == "flyer";
  }

  /** Exactly the four names, in any case, are accepted; "evolved" in any case is refused as such. */
  lemma ArchetypeAccepted(s: string)
    ensures ParseArchetype(s).Ok? <==> Lower(s) in {"spider", "snake", "worm", "flyer"}
    ensures ParseArchetype("Evolved") == Err(EvolvedNotSpawnable)
  {
    assert Lower("Evolved") == "evolved";
  }
}
