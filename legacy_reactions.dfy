/**
 * The contact-reaction registry used by the world simulation: an ordered
 * list of reactions searched front to back, matching the two materials in
 * either order and checking optional inclusive temperature bounds.
 */
module LegacyReactions {
  import opened Wrappers
  import opened Ints
  import M = Materials

  datatype Reaction = Reaction(
    name: string,
    inputA: U16,
    inputB: U16,
    minTemp: Option<real>,
    maxTemp: Option<real>,
    requiresContact: bool,
    outputA: U16,
    outputB: U16,
    probability: real)

  /** The reaction's inputs are the pair {a, b}, in either order. */
  predicate MaterialsMatch(r: Reaction, a: U16, b: U16)
  {
    (r.inputA == a && r.inputB == b) || (r.inputA == b && r.inputB == a)
  }

  /** Both temperature bounds are inclusive; a missing bound does not constrain. */
  predicate TemperatureOk(r: Reaction, temp: real)
  {
    (r.minTemp.None? || temp >= r.minTemp.value) && (r.maxTemp.None? || temp <= r.maxTemp.value)
  }

  predicate Applies(r: Reaction, a: U16, b: U16, temp: real)
  {
    MaterialsMatch(r, a, b) && TemperatureOk(r, temp)
  }

  /** `find_reaction`: the first reaction in registration order that applies. */
  function Find(rs: seq<Reaction>, a: U16, b: U16, temp: real): (res: Option<Reaction>)
    ensures res.None? <==> forall i | 0 <= i < |rs| :: !Applies(rs[i], a, b, temp)
    ensures res.Some? ==> exists i | 0 <= i < |rs| :: rs[i] == res.value && Applies(rs[i], a, b, temp)
                                                     && forall j | 0 <= j < i :: !Applies(rs[j], a, b, temp)
    decreases |rs|
  {
    if rs == [] then None
    else if Applies(rs[0], a, b, temp) then Some(rs[0])
    else
      var rest := Find(rs[1..], a, b, temp);
      assert forall i | 1 <= i < |rs| :: rs[i] == rs[1..][i - 1];
      if rest.Some? then
        var k :| 0 <= k < |rs[1..]| && rs[1..][k] == rest.value && Applies(rs[1..][k], a, b, temp)
                 && forall j | 0 <= j < k :: !Applies(rs[1..][j], a, b, temp);
        assert rs[k + 1] == rest.value;
        rest
      else rest
  }

  /** `get_outputs`: the outputs in the caller's argument order. */
  function GetOutputs(r: Reaction, a: U16, b: U16): (U16, U16)
  {
    if r.inputA == a && r.inputB == b then (r.outputA, r.outputB) else (r.outputB, r.outputA)
  }

  /** Lookup does not depend on the order of the two materials. */
  lemma FindSymmetric(rs: seq<Reaction>, a: U16, b: U16, temp: real)
    ensures Find(rs, a, b, temp) == Find(rs, b, a, temp)
  {
    assert forall r :: Applies(r, a, b, temp) == Applies(r, b, a, temp);
    FindSymmetricFrom(rs, a, b, temp);
  }

  lemma {:induction false} FindSymmetricFrom(rs: seq<Reaction>, a: U16, b: U16, temp: real)
    ensures Find(rs, a, b, temp) == Find(rs, b, a, temp)
    decreases |rs|
  {
    if rs != [] {
      FindSymmetricFrom(rs[1..], a, b, temp);
    }
  }

  /** Each input is mapped to its own output, whichever order the caller gives the pair in. */
  lemma GetOutputsFollowInputs(r: Reaction, a: U16, b: U16)
    requires MaterialsMatch(r, a, b)
    ensures a == r.inputA && b == r.inputB ==> GetOutputs(r, a, b) == (r.outputA, r.outputB)
    ensures a == r.inputB && b == r.inputA && a != b ==> GetOutputs(r, a, b) == (r.outputB, r.outputA)
    ensures a != b ==> GetOutputs(r, b, a) == (GetOutputs(r, a, b).1, GetOutputs(r, a, b).0)
  {
  }

  /** `register` appends, so a reaction registered earlier wins over one registered later. */
  lemma {:induction false} RegisterKeepsPriority(rs: seq<Reaction>, r: Reaction, a: U16, b: U16, temp: real)
    ensures Find(rs + [r], a, b, temp)
            == if Find(rs, a, b, temp).Some? then Find(rs, a, b, temp)
               else if Applies(r, a, b, temp) then Some(r) else None
    decreases |rs|
  {
    if rs != [] {
      assert (rs + [r])[1..] == rs[1..] + [r];
      RegisterKeepsPriority(rs[1..], r, a, b, temp);
    }
  }

  const WaterLava := Reaction("water_lava_steam", M.WATER, M.LAVA, None, None, true, M.STEAM, M.STONE, 0.3)
  const AcidMetal := Reaction("acid_metal_corrode", M.ACID, M.METAL, None, None, true, M.AIR, M.AIR, 0.05)
  const AcidStone := Reaction("acid_stone_corrode", M.ACID, M.STONE, None, None, true, M.ACID, M.AIR, 0.01)
  const AcidWood := Reaction("acid_wood_corrode", M.ACID, M.WOOD, None, None, true, M.ACID, M.AIR, 0.03)
  const IceLava := Reaction("ice_lava_cool", M.ICE, M.LAVA, None, None, true, M.WATER, M.STONE, 0.4)

  /** `register_default_reactions`, in registration order. */
  function DefaultReactions(): seq<Reaction>
  {
    [WaterLava, AcidMetal, AcidStone, AcidWood, IceLava]
  }

  /** Water and lava react in either order; sand and water do not react; the outputs follow the inputs. */
  lemma DefaultLookups(temp: real)
    ensures Find(DefaultReactions(), M.WATER, M.LAVA, temp) == Some(WaterLava)
    ensures Find(DefaultReactions(), M.LAVA, M.WATER, temp) == Some(WaterLava)
    ensures Find(DefaultReactions(), M.SAND, M.WATER, temp) == None
    ensures GetOutputs(WaterLava, M.WATER, M.LAVA) == (M.STEAM, M.STONE)
    ensures GetOutputs(WaterLava, M.LAVA, M.WATER) == (M.STONE, M.STEAM)
  {
    assert Applies(DefaultReactions()[0], M.WATER, M.LAVA, temp);
    assert Applies(DefaultReactions()[0], M.LAVA, M.WATER, temp);
  }

  /** `ReactionRegistry`: the registered reactions in registration order. */
  class ReactionRegistry {
    var reactions: seq<Reaction>

    /** `ReactionRegistry::new` registers the five default reactions. */
    constructor ()
      ensures reactions == DefaultReactions()
    {
      reactions := [];
      new;
      Register(WaterLava);
      Register(AcidMetal);
      Register(AcidStone);
      Register(AcidWood);
      Register(IceLava);
    }

    method Register(r: Reaction)
      modifies this
      ensures reactions == old(reactions) + [r]
    {
      reactions := reactions + [r];
    }

    /** `find_reaction`: a front-to-back scan returning the first reaction that applies. */
    method FindReaction(a: U16, b: U16, temp: real) returns (res: Option<Reaction>)
      ensures res == Find(reactions, a, b, temp)
      ensures res.Some? ==> Applies(res.value, a, b, temp) && res.value in reactions
    {
      var i := 0;
      while i < |reactions|
        invariant 0 <= i <= |reactions|
        invariant forall j | 0 <= j < i :: !Applies(reactions[j], a, b, temp)
      {
        var r := reactions[i];
        if !MaterialsMatch(r, a, b) {
          i := i + 1;
          continue;
        }
        if r.minTemp.Some? && temp < r.minTemp.value {
          i := i + 1;
          continue;
        }
        if r.maxTemp.Some? && temp > r.maxTemp.value {
          i := i + 1;
          continue;
        }
        FirstApplying(reactions, i, a, b, temp);
        return Some(r);
      }
      return None;
    }
  }

  /** A reaction that applies, preceded only by ones that do not, is the one `Find` returns. */
  lemma {:induction false} FirstApplying(rs: seq<Reaction>, i: nat, a: U16, b: U16, temp: real)
    requires i < |rs| && Applies(rs[i], a, b, temp)
    requires forall j | 0 <= j < i :: !Applies(rs[j], a, b, temp)
    ensures Find(rs, a, b, temp) == Some(rs[i])
    decreases i
  {
    if i > 0 {
      FirstApplying(rs[1..], i - 1, a, b, temp);
    }
  }
}
