/**
 * Crafting: a registry of recipes, each consuming counts of input materials
 * from an inventory and producing a material stack or a tool. The registry is
 * filled once when it is created and only read afterwards, so it is a value.
 */
module Crafting {
  import opened Wrappers
  import opened Ints
  import opened Inventories
  import M = Materials
  import CoreIds

  datatype RecipeOutput =
    | MaterialOutput(id: U16, count: U32)
    | ToolOutput(toolId: U16, durability: U32)

  datatype WorkstationType = Furnace | Anvil | Alchemy

  datatype Recipe = Recipe(
    id: U16,
    name: string,
    inputs: seq<(U16, U32)>,
    output: RecipeOutput,
    workstation: Option<WorkstationType>)

  /** The recipes `new` registers, in registration order. */
  const DefaultRecipes: seq<Recipe> := [
    Recipe(0, "Wood Pickaxe", [(M.WOOD, 5)], ToolOutput(1000, 50), None),
    Recipe(1, "Stone Pickaxe", [(M.STONE, 3), (M.WOOD, 2)], ToolOutput(1001, 100), None),
    Recipe(2, "Iron Pickaxe", [(CoreIds.IRON_INGOT, 3), (M.WOOD, 2)], ToolOutput(1002, 400), None),
    Recipe(100, "Fertilizer", [(CoreIds.ASH, 3), (CoreIds.PLANT_MATTER, 2)], MaterialOutput(CoreIds.FERTILIZER, 5), None),
    Recipe(101, "Gunpowder", [(CoreIds.COAL_ORE, 1), (CoreIds.FERTILIZER, 1)], MaterialOutput(CoreIds.GUNPOWDER, 2), None)
  ]

  /** The inventory holds at least the count of every input. */
  ghost predicate HasInputs(inputs: seq<(U16, U32)>, slots: seq<Slot>)
  {
    forall k | 0 <= k < |inputs| :: CountItem(slots, inputs[k].0) >= inputs[k].1
  }

  /** `can_craft`: `has_item` for each input in turn, stopping at the first that fails. */
  function CanCraft(inputs: seq<(U16, U32)>, slots: seq<Slot>): (b: bool)
    ensures b <==> HasInputs(inputs, slots)
  {
    if inputs == [] then true
    else if CountItem(slots, inputs[0].0) >= inputs[0].1 then
      var rest := CanCraft(inputs[1..], slots);
      assert HasInputs(inputs, slots) <==> HasInputs(inputs[1..], slots) by {
        assert forall k | 1 <= k < |inputs| :: inputs[k] == inputs[1..][k - 1];
      }
      rest
    else false
  }

  /** `get_craftable`: the recipes the inventory can craft, in registration order. */
  function Craftable(recipes: seq<Recipe>, slots: seq<Slot>): (r: seq<Recipe>)
    ensures |r| <= |recipes|
    ensures forall x | x in r :: x in recipes && CanCraft(x.inputs, slots)
    ensures forall i | 0 <= i < |recipes| && CanCraft(recipes[i].inputs, slots) :: recipes[i] in r
  {
    if recipes == [] then []
    else
      var tail := Craftable(recipes[1..], slots);
      assert forall i | 1 <= i < |recipes| :: recipes[i] == recipes[1..][i - 1];
      if CanCraft(recipes[0].inputs, slots) then [recipes[0]] + tail else tail
  }

  /**
   * The filter keeps registration order: the craftable recipes of two lists
   * placed end to end are those of the first list followed by those of the second.
   */
  lemma {:induction false} CraftableConcat(a: seq<Recipe>, b: seq<Recipe>, slots: seq<Slot>)
    ensures Craftable(a + b, slots) == Craftable(a, slots) + Craftable(b, slots)
    decreases |a|
  {
    if a == [] {
      assert a + b == b;
    } else {
      assert (a + b)[1..] == a[1..] + b;
      CraftableConcat(a[1..], b, slots);
    }
  }

  /** `get`: the first recipe with the id. */
  function GetRecipe(recipes: seq<Recipe>, id: U16): (r: Option<Recipe>)
    ensures r.Some? ==> exists i | 0 <= i < |recipes| :: recipes[i] == r.value && forall j | 0 <= j < i :: recipes[j].id != id
    ensures r.Some? ==> r.value.id == id
    ensures r.None? <==> forall j | 0 <= j < |recipes| :: recipes[j].id != id
  {
    if recipes == [] then None
    else if recipes[0].id == id then Some(recipes[0])
    else
      var r := GetRecipe(recipes[1..], id);
      assert forall j | 1 <= j < |recipes| :: recipes[j] == recipes[1..][j - 1];
      if r.Some? then
        ghost var i :| 0 <= i < |recipes[1..]| && recipes[1..][i] == r.value && forall j | 0 <= j < i :: recipes[1..][j].id != id;
        assert recipes[i + 1] == r.value;
        r
      else r
  }

  /** No input material appears twice. */
  predicate DistinctInputs(inputs: seq<(U16, U32)>)
  {
    forall i, j | 0 <= i < j < |inputs| :: inputs[i].0 != inputs[j].0
  }

  /**
   * `try_craft`: nothing happens unless the inventory holds every input;
   * otherwise each input's count is removed in turn, and the recipe's output
   * is returned unless a removal falls short. With distinct input materials
   * none falls short: each input drops by exactly its count and every other
   * material is unchanged.
   */
  method TryCraft(recipe: Recipe, inv: Inventory) returns (out: Option<RecipeOutput>)
    requires inv.Valid()
    modifies inv
    ensures inv.Valid() && inv.maxSlots == old(inv.maxSlots)
    ensures !HasInputs(recipe.inputs, old(inv.slots)) ==> out.None? && inv.slots == old(inv.slots)
    ensures out.Some? ==> out.value == recipe.output
    ensures HasInputs(recipe.inputs, old(inv.slots)) && DistinctInputs(recipe.inputs) ==>
              && out == Some(recipe.output)
              && (forall k | 0 <= k < |recipe.inputs| ::
                    CountItem(inv.slots, recipe.inputs[k].0) == CountItem(old(inv.slots), recipe.inputs[k].0) - recipe.inputs[k].1)
              && (forall m: U16 | (forall k | 0 <= k < |recipe.inputs| :: recipe.inputs[k].0 != m) ::
                    CountItem(inv.slots, m) == CountItem(old(inv.slots), m))
  {
    if !CanCraft(recipe.inputs, inv.slots) {
      return None;
    }
    ghost var s0 := inv.slots;
    ghost var distinct := DistinctInputs(recipe.inputs);
    var k := 0;
    while k < |recipe.inputs|
      invariant k <= |recipe.inputs| && inv.Valid() && inv.maxSlots == old(inv.maxSlots)
      invariant distinct ==> forall j | 0 <= j < k ::
                  CountItem(inv.slots, recipe.inputs[j].0) == CountItem(s0, recipe.inputs[j].0) - recipe.inputs[j].1
      invariant distinct ==> forall m: U16 | (forall j | 0 <= j < k :: recipe.inputs[j].0 != m) ::
                  CountItem(inv.slots, m) == CountItem(s0, m)
    {
      var (m, count) := recipe.inputs[k];
      ghost var before := inv.slots;
      var removed := inv.RemoveItem(m, count);
      forall other: U16 | other != m
        ensures CountItem(inv.slots, other) == CountItem(before, other)
      {
        OnlyTouchesKeepsOthers(before, inv.slots, m, other);
      }
      if removed != count {
        return None;
      }
      k := k + 1;
    }
    return Some(recipe.output);
  }

  /** The default registry: five recipes with ids 0, 1, 2, 100 and 101, each with distinct inputs. */
  lemma DefaultRegistry()
    ensures |DefaultRecipes| == 5
    ensures DefaultRecipes[0].id == 0 && DefaultRecipes[1].id == 1 && DefaultRecipes[2].id == 2
    ensures DefaultRecipes[3].id == 100 && DefaultRecipes[4].id == 101
    ensures forall i | 0 <= i < 5 :: DistinctInputs(DefaultRecipes[i].inputs)
    ensures GetRecipe(DefaultRecipes, 0) == Some(DefaultRecipes[0])
    ensures GetRecipe(DefaultRecipes, 100) == Some(DefaultRecipes[3])
    ensures GetRecipe(DefaultRecipes, 3).None?
  {
  }

  /** The source's examples: five wood are enough for the wood pickaxe, four are not, and an empty inventory crafts nothing. */
  lemma WoodPickaxeExamples()
    ensures CanCraft(DefaultRecipes[0].inputs, [Some(Material(M.WOOD, 5)), None])
    ensures !CanCraft(DefaultRecipes[0].inputs, [Some(Material(M.WOOD, 4)), None])
    ensures !CanCraft(DefaultRecipes[0].inputs, [None, None])
  {
    CountOfTwo(Some(Material(M.WOOD, 5)), None, M.WOOD);
    CountOfTwo(Some(Material(M.WOOD, 4)), None, M.WOOD);
    CountOfTwo(None, None, M.WOOD);
  }

  /** The count of a material over two slots. */
  lemma CountOfTwo(a: Slot, b: Slot, m: U16)
    ensures CountItem([a, b], m) == Held(a, m) + Held(b, m)
  {
    var f := (s: Slot) => Held(s, m);
    assert [a, b][..1] == [a];
    assert [a][..0] == [];
    assert Total([a], f) == f(a);
    assert Total([a, b], f) == Total([a], f) + f(b);
  }
}
