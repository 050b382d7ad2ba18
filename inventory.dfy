/**
 * The player inventory: a fixed number of slots, each empty or holding a
 * stack. A material stack holds up to 999 items of one material; a tool is
 * never stacked and wears down by durability. Counts are `u32`.
 */
module Inventories {
  import opened Wrappers
  import opened Ints

  const MAX_STACK: nat := 999
  const U32_LIMIT: nat := 0x1_0000_0000

  datatype ItemStack =
    | Material(materialId: U16, count: U32)
    | Tool(toolId: U16, durability: U32)

  /** `count`: a material's count; a tool counts as one. */
  function StackCount(s: ItemStack): U32
  {
    if s.Material? then s.count else 1
  }

  /** `is_empty`: no items left, or a broken tool. */
  predicate StackIsEmpty(s: ItemStack)
  {
    if s.Material? then s.count == 0 else s.durability == 0
  }

  /** `is_full`: 999 or more items; a tool is always full. */
  predicate StackIsFull(s: ItemStack)
  {
    if s.Material? then s.count >= MAX_STACK else true
  }

  /** `can_add` as written: `count + amount` is a `u32` sum, which wraps around in a release build. */
  predicate CanAddAsWritten(s: ItemStack, amount: U32)
  {
    s.Material? && (s.count + amount) % U32_LIMIT <= MAX_STACK
  }

  /** `can_add` as intended: the stack is a material stack with room for the whole amount. */
  predicate CanAdd(s: ItemStack, amount: U32)
  {
    s.Material? && s.count + amount <= MAX_STACK
  }

  /** A stack of one item and an amount of 2^32 - 1: the sum wraps to 0, so the check passes. */
  lemma CanAddWrapsAround()
    ensures CanAddAsWritten(Material(1, 1), 0xFFFF_FFFF)
    ensures !CanAdd(Material(1, 1), 0xFFFF_FFFF)
    ensures StackAdd(Material(1, 1), 0xFFFF_FFFF).1 > 0
  {
  }

  /** `add`: fill a material stack up to 999 and hand back what did not fit; a tool takes nothing. */
  function StackAdd(s: ItemStack, amount: U32): (r: (ItemStack, U32))
    ensures s.Tool? ==> r == (s, amount)
    ensures s.Material? && s.count <= MAX_STACK ==>
              r.0 == Material(s.materialId, Min(MAX_STACK, s.count + amount)) && r.0.count + r.1 == s.count + amount
    ensures s.Material? && s.count > MAX_STACK ==> r == (s, amount)
  {
    match s
    case Tool(_, _) => (s, amount)
    case Material(id, count) =>
      var space := if count >= MAX_STACK then 0 else MAX_STACK - count;
      var toAdd := Min(amount, space);
      (Material(id, count + toAdd), amount - toAdd)
  }

  /** The intended `can_add` holds exactly when `add` would take the whole amount. */
  lemma CanAddMeansNoOverflow(s: ItemStack, amount: U32)
    requires s.Material? ==> s.count <= MAX_STACK
    ensures CanAdd(s, amount) <==> s.Material? && StackAdd(s, amount).1 == 0
  {
  }

  /** `remove`: take min(amount, count) from a material stack; a tool reports 1 for any positive amount and stays. */
  function StackRemove(s: ItemStack, amount: U32): (r: (ItemStack, U32))
    ensures s.Material? ==> r.1 == Min(amount, s.count) && r.0 == Material(s.materialId, s.count - r.1)
    ensures s.Tool? ==> r.0 == s && (r.1 == 1 <==> amount > 0) && r.1 <= 1
  {
    match s
    case Material(id, count) =>
      var toRemove := Min(amount, count);
      (Material(id, count - toRemove), toRemove)
    case Tool(_, _) => (s, if amount > 0 then 1 else 0)
  }

  /** Removing what `add` took restores the stack. */
  lemma AddThenRemove(s: ItemStack, amount: U32)
    requires s.Material? && s.count <= MAX_STACK
    ensures var (t, over) := StackAdd(s, amount); StackRemove(t, amount - over) == (s, amount - over)
  {
  }

  /** `damage_tool` on a stack: durability minus damage, saturating at 0; true iff it reached 0. */
  function StackDamage(s: ItemStack, damage: U32): (r: (ItemStack, bool))
    ensures s.Material? ==> r == (s, false)
    ensures s.Tool? ==> r.0 == Tool(s.toolId, SatSub(s.durability, damage)) && (r.1 <==> StackIsEmpty(r.0))
  {
    match s
    case Material(_, _) => (s, false)
    case Tool(id, d) =>
      var nd := SatSub(d, damage);
      (Tool(id, nd), nd == 0)
  }

  function SatSub(a: U32, b: U32): U32 { if a >= b then a - b else 0 }

  /** The source's own examples for a single stack. */
  lemma StackExamples()
    ensures StackAdd(Material(1, 10), 5).0.count == 15
    ensures StackRemove(Material(1, 15), 7) == (Material(1, 8), 7)
    ensures StackAdd(Material(1, 990), 20) == (Material(1, 999), 11) && StackIsFull(Material(1, 999))
    ensures StackDamage(Tool(1000, 50), 30) == (Tool(1000, 20), false)
    ensures StackDamage(Tool(1000, 20), 20) == (Tool(1000, 0), true)
  {
  }

  // ---------------------------------------------------------------------
  // Slots

  type Slot = Option<ItemStack>

  /** The number of items of material m a slot holds. */
  function Held(slot: Slot, m: U16): nat
  {
    if slot.Some? && slot.value.Material? && slot.value.materialId == m then slot.value.count else 0
  }

  predicate HoldsMaterial(slot: Slot, m: U16)
  {
    slot.Some? && slot.value.Material? && slot.value.materialId == m
  }

  predicate HoldsTool(slot: Slot, t: U16)
  {
    slot.Some? && slot.value.Tool? && slot.value.toolId == t
  }

  /** The sum of f over the slots. */
  function Total(slots: seq<Slot>, f: Slot -> nat): nat
  {
    if slots == [] then 0 else Total(slots[..|slots| - 1], f) + f(slots[|slots| - 1])
  }

  /** Replacing one slot changes the total by the difference at that slot. */
  lemma {:induction false} TotalUpdate(slots: seq<Slot>, i: nat, x: Slot, f: Slot -> nat)
    requires i < |slots|
    ensures Total(slots[i := x], f) == Total(slots, f) - f(slots[i]) + f(x)
    decreases |slots|
  {
    var n := |slots| - 1;
    if i < n {
      assert slots[i := x][..n] == slots[..n][i := x];
      TotalUpdate(slots[..n], i, x, f);
    } else {
      assert slots[i := x][..n] == slots[..n];
    }
  }

  /** A total of zeros is zero, and a total is zero only if every term is. */
  lemma {:induction false} TotalZero(slots: seq<Slot>, f: Slot -> nat)
    ensures Total(slots, f) == 0 <==> forall j | 0 <= j < |slots| :: f(slots[j]) == 0
    decreases |slots|
  {
    if slots != [] {
      var n := |slots| - 1;
      TotalZero(slots[..n], f);
      assert forall j | 0 <= j < n :: slots[..n][j] == slots[j];
    }
  }

  /** Totals of two functions that agree on every slot are equal. */
  lemma {:induction false} TotalAgree(slots: seq<Slot>, f: Slot -> nat, g: Slot -> nat)
    requires forall j | 0 <= j < |slots| :: f(slots[j]) == g(slots[j])
    ensures Total(slots, f) == Total(slots, g)
    decreases |slots|
  {
    if slots != [] {
      var n := |slots| - 1;
      assert forall j | 0 <= j < n :: slots[..n][j] == slots[j];
      TotalAgree(slots[..n], f, g);
    }
  }

  /** Two slot lists that agree under f have the same total. */
  lemma {:induction false} TotalSame(a: seq<Slot>, b: seq<Slot>, f: Slot -> nat)
    requires |a| == |b| && forall j | 0 <= j < |a| :: f(a[j]) == f(b[j])
    ensures Total(a, f) == Total(b, f)
    decreases |a|
  {
    if a != [] {
      var n := |a| - 1;
      assert forall j | 0 <= j < n :: a[..n][j] == a[j] && b[..n][j] == b[j];
      TotalSame(a[..n], b[..n], f);
    }
  }

  /** `count_item`: the items of material m over all slots (a true sum; the source sums in `u32`). */
  function CountItem(slots: seq<Slot>, m: U16): nat
  {
    Total(slots, s => Held(s, m))
  }

  function EmptyMark(s: Slot): nat { if s.None? then 1 else 0 }
  function UsedMark(s: Slot): nat { if s.Some? then 1 else 0 }

  /** `empty_slot_count`. */
  function EmptySlots(slots: seq<Slot>): nat
  {
    Total(slots, EmptyMark)
  }

  lemma {:induction false} EmptySlotsBound(slots: seq<Slot>)
    ensures EmptySlots(slots) <= |slots|
    ensures EmptySlots(slots) == |slots| <==> forall j | 0 <= j < |slots| :: slots[j].None?
    decreases |slots|
  {
    if slots != [] {
      var n := |slots| - 1;
      EmptySlotsBound(slots[..n]);
      assert forall j | 0 <= j < n :: slots[..n][j] == slots[j];
    }
  }

  /** `find_empty_slot`: the first empty slot. */
  function FirstEmpty(slots: seq<Slot>): (r: Option<nat>)
    ensures r.Some? ==> r.value < |slots| && slots[r.value].None? && forall j | 0 <= j < r.value :: slots[j].Some?
    ensures r.None? ==> forall j | 0 <= j < |slots| :: slots[j].Some?
  {
    if slots == [] then None
    else if slots[0].None? then Some(0)
    else match FirstEmpty(slots[1..]) case None => None case Some(i) => Some(i + 1)
  }

  /** The first slot holding tool t. */
  function FirstTool(slots: seq<Slot>, t: U16): (r: Option<nat>)
    ensures r.Some? ==> r.value < |slots| && HoldsTool(slots[r.value], t) && forall j | 0 <= j < r.value :: !HoldsTool(slots[j], t)
    ensures r.None? ==> forall j | 0 <= j < |slots| :: !HoldsTool(slots[j], t)
  {
    if slots == [] then None
    else if HoldsTool(slots[0], t) then Some(0)
    else match FirstTool(slots[1..], t) case None => None case Some(i) => Some(i + 1)
  }

  /** `get_tool_durability`: the durability of the first tool t. */
  function ToolDurability(slots: seq<Slot>, t: U16): (r: Option<U32>)
    ensures r.None? <==> forall j | 0 <= j < |slots| :: !HoldsTool(slots[j], t)
  {
    match FirstTool(slots, t)
    case None => None
    case Some(i) => Some(slots[i].value.durability)
  }

  /** Every material stack holds 1 to 999 items. */
  predicate WellFormed(slot: Slot)
  {
    slot.Some? && slot.value.Material? ==> 1 <= slot.value.count <= MAX_STACK
  }

  /**
   * Slots b differ from slots a only where a slot held material m or was
   * empty, and every changed slot now holds m or is empty.
   */
  predicate OnlyTouches(a: seq<Slot>, b: seq<Slot>, m: U16)
  {
    |a| == |b|
    && forall j | 0 <= j < |a| && b[j] != a[j] ::
         (a[j].None? || HoldsMaterial(a[j], m)) && (b[j].None? || HoldsMaterial(b[j], m))
  }

  /** Changing only stacks of m leaves the count of every other material, and every tool, as it was. */
  lemma OnlyTouchesKeepsOthers(a: seq<Slot>, b: seq<Slot>, m: U16, other: U16)
    requires OnlyTouches(a, b, m) && other != m
    ensures CountItem(b, other) == CountItem(a, other)
    ensures forall j | 0 <= j < |a| && a[j].Some? && a[j].value.Tool? :: b[j] == a[j]
    ensures forall j | 0 <= j < |a| && b[j].Some? && b[j].value.Tool? :: b[j] == a[j]
  {
    TotalSame(a, b, s => Held(s, other));
  }

  /** One step of `add_item`'s first loop: topping up stack i of m. */
  lemma TopUpSlot(s0: seq<Slot>, slots: seq<Slot>, i: nat, m: U16, rest: U32)
    requires i < |slots| && OnlyTouches(s0, slots, m) && forall j | 0 <= j < |slots| :: WellFormed(slots[j])
    requires HoldsMaterial(slots[i], m) && !StackIsFull(slots[i].value)
    ensures var (stack, over) := StackAdd(slots[i].value, rest);
            var after := slots[i := Some(stack)];
            && OnlyTouches(s0, after, m) && (forall j | 0 <= j < |after| :: WellFormed(after[j]))
            && over <= rest && CountItem(after, m) + over == CountItem(slots, m) + rest
  {
    TotalUpdate(slots, i, Some(StackAdd(slots[i].value, rest).0), s => Held(s, m));
  }

  /** One step of `add_item`'s second loop: a new stack in empty slot e. */
  lemma OpenSlot(s0: seq<Slot>, slots: seq<Slot>, e: nat, m: U16, n: U32)
    requires e < |slots| && OnlyTouches(s0, slots, m) && forall j | 0 <= j < |slots| :: WellFormed(slots[j])
    requires slots[e].None? && 1 <= n <= MAX_STACK
    ensures var after := slots[e := Some(Material(m, n))];
            && OnlyTouches(s0, after, m) && (forall j | 0 <= j < |after| :: WellFormed(after[j]))
            && CountItem(after, m) == CountItem(slots, m) + n
  {
    TotalUpdate(slots, e, Some(Material(m, n)), s => Held(s, m));
  }

  /** One step of `remove_item`: taking from stack i of m, emptying its slot if it runs out. */
  lemma TakeFromSlot(s0: seq<Slot>, slots: seq<Slot>, i: nat, m: U16, rest: U32)
    requires i < |slots| && OnlyTouches(s0, slots, m) && forall j | 0 <= j < |slots| :: WellFormed(slots[j])
    requires HoldsMaterial(slots[i], m)
    ensures var (stack, taken) := StackRemove(slots[i].value, rest);
            var after := slots[i := if StackIsEmpty(stack) then None else Some(stack)];
            && OnlyTouches(s0, after, m) && (forall j | 0 <= j < |after| :: WellFormed(after[j]))
            && taken <= rest && CountItem(after, m) + taken == CountItem(slots, m)
            && (taken < rest ==> !HoldsMaterial(after[i], m))
  {
    var (stack, taken) := StackRemove(slots[i].value, rest);
    TotalUpdate(slots, i, if StackIsEmpty(stack) then None else Some(stack), s => Held(s, m));
  }

  // ---------------------------------------------------------------------
  // The inventory, updated in place

  class Inventory {
    var slots: seq<Slot>
    var maxSlots: nat

    ghost predicate Valid()
      reads this
    {
      |slots| == maxSlots && forall j | 0 <= j < |slots| :: WellFormed(slots[j])
    }

    /** `new`: maxSlots empty slots. */
    constructor (n: nat)
      ensures Valid() && maxSlots == n && EmptySlots(slots) == n
      ensures forall m: U16 :: CountItem(slots, m) == 0
    {
      slots := seq(n, _ => None);
      maxSlots := n;
      new;
      EmptySlotsBound(slots);
      forall m: U16 ensures CountItem(slots, m) == 0 {
        TotalZero(slots, s => Held(s, m));
      }
    }

    /**
     * `add_item`: top up the existing stacks of m in slot order, then open
     * new stacks of up to 999 in empty slots; return what did not fit.
     */
    method AddItem(m: U16, amount: U32) returns (leftover: U32)
      requires Valid()
      modifies this
      ensures Valid() && maxSlots == old(maxSlots)
      ensures leftover <= amount
      ensures CountItem(slots, m) == old(CountItem(slots, m)) + (amount - leftover)
      ensures OnlyTouches(old(slots), slots, m)
      ensures leftover > 0 ==> EmptySlots(slots) == 0
    {
      ghost var s0 := slots;
      var rest: U32 := amount;
      var i := 0;
      while i < |slots|
        invariant i <= |slots| && Valid() && maxSlots == old(maxSlots)
        invariant rest <= amount
        invariant CountItem(slots, m) == CountItem(s0, m) + (amount - rest)
        invariant OnlyTouches(s0, slots, m)
      {
        var slot := slots[i];
        if slot.Some? && slot.value.Material? && slot.value.materialId == m && !StackIsFull(slot.value) {
          var (stack, over) := StackAdd(slot.value, rest);
          TopUpSlot(s0, slots, i, m, rest);
          slots := slots[i := Some(stack)];
          rest := over;
          if rest == 0 {
            return 0;
          }
        }
        i := i + 1;
      }
      while rest > 0
        invariant Valid() && maxSlots == old(maxSlots)
        invariant rest <= amount
        invariant CountItem(slots, m) == CountItem(s0, m) + (amount - rest)
        invariant OnlyTouches(s0, slots, m)
      {
        var e := FirstEmpty(slots);
        if e.None? {
          EmptyNone(slots);
          break;
        }
        var toAdd := Min(rest, MAX_STACK);
        OpenSlot(s0, slots, e.value, m, toAdd);
        slots := slots[e.value := Some(Material(m, toAdd))];
        rest := rest - toAdd;
      }
      leftover := rest;
      if leftover > 0 {
        EmptyNone(slots);
      }
    }

    /**
     * `remove_item`: take from the stacks of m in slot order until the
     * amount is met, emptying the slots of exhausted stacks.
     */
    method RemoveItem(m: U16, amount: U32) returns (removed: U32)
      requires Valid()
      modifies this
      ensures Valid() && maxSlots == old(maxSlots)
      ensures removed == Min(amount, old(CountItem(slots, m)))
      ensures CountItem(slots, m) == old(CountItem(slots, m)) - removed
      ensures OnlyTouches(old(slots), slots, m)
    {
      ghost var s0 := slots;
      removed := 0;
      var rest: U32 := amount;
      var i := 0;
      while i < |slots|
        invariant i <= |slots| && Valid() && maxSlots == old(maxSlots)
        invariant removed + rest == amount
        invariant CountItem(slots, m) + removed == CountItem(s0, m)
        invariant OnlyTouches(s0, slots, m)
        invariant rest > 0 ==> forall j | 0 <= j < i :: !HoldsMaterial(slots[j], m)
      {
        var slot := slots[i];
        if slot.Some? && slot.value.Material? && slot.value.materialId == m {
          var (stack, taken) := StackRemove(slot.value, rest);
          var next := if StackIsEmpty(stack) then None else Some(stack);
          TakeFromSlot(s0, slots, i, m, rest);
          slots := slots[i := next];
          removed := removed + taken;
          rest := rest - taken;
          if rest == 0 {
            break;
          }
        }
        i := i + 1;
      }
      if rest > 0 {
        TotalZero(slots, s => Held(s, m));
      }
    }

    /** `add_tool`: put the tool in the first empty slot, if there is one. */
    method AddTool(t: U16, durability: U32) returns (added: bool)
      requires Valid()
      modifies this
      ensures Valid() && maxSlots == old(maxSlots)
      ensures added <==> FirstEmpty(old(slots)).Some?
      ensures added ==> slots == old(slots)[FirstEmpty(old(slots)).value := Some(Tool(t, durability))]
      ensures !added ==> slots == old(slots)
    {
      var e := FirstEmpty(slots);
      if e.Some? {
        slots := slots[e.value := Some(Tool(t, durability))];
        return true;
      }
      return false;
    }

    /** `remove_tool`: empty the first slot holding tool t. */
    method RemoveTool(t: U16) returns (found: bool)
      requires Valid()
      modifies this
      ensures Valid() && maxSlots == old(maxSlots)
      ensures found <==> FirstTool(old(slots), t).Some?
      ensures found ==> slots == old(slots)[FirstTool(old(slots), t).value := None]
      ensures !found ==> slots == old(slots)
    {
      var i := 0;
      while i < |slots|
        invariant i <= |slots| && forall j | 0 <= j < i :: !HoldsTool(slots[j], t)
      {
        if HoldsTool(slots[i], t) {
          slots := slots[i := None];
          return true;
        }
        i := i + 1;
      }
      return false;
    }

    /** `damage_tool`: wear the first tool t; a tool worn to 0 is removed and true returned. */
    method DamageTool(t: U16, damage: U32) returns (broke: bool)
      requires Valid()
      modifies this
      ensures Valid() && maxSlots == old(maxSlots)
      ensures FirstTool(old(slots), t).None? ==> !broke && slots == old(slots)
      ensures FirstTool(old(slots), t).Some? ==>
                var i := FirstTool(old(slots), t).value;
                var (worn, gone) := StackDamage(old(slots)[i].value, damage);
                broke == gone && slots == old(slots)[i := if gone then None else Some(worn)]
    {
      var i := 0;
      while i < |slots|
        invariant i <= |slots| && forall j | 0 <= j < i :: !HoldsTool(slots[j], t)
      {
        if HoldsTool(slots[i], t) {
          var (worn, gone) := StackDamage(slots[i].value, damage);
          slots := slots[i := if gone then None else Some(worn)];
          return gone;
        }
        i := i + 1;
      }
      return false;
    }

    /** `clear`: every slot empty. */
    method Clear()
      requires Valid()
      modifies this
      ensures Valid() && maxSlots == old(maxSlots) && |slots| == old(|slots|)
      ensures EmptySlots(slots) == maxSlots && forall m: U16 :: CountItem(slots, m) == 0
    {
      slots := seq(|slots|, _ => None);
      EmptySlotsBound(slots);
      forall m: U16 ensures CountItem(slots, m) == 0 {
        TotalZero(slots, s => Held(s, m));
      }
    }

    /** `has_item`. */
    function HasItem(m: U16, amount: U32): bool
      reads this
    {
      CountItem(slots, m) >= amount
    }

    /** `used_slot_count`. */
    function UsedSlots(): int
      reads this
    {
      maxSlots - EmptySlots(slots)
    }
  }

  /** With no empty slot found, no slot is empty. */
  lemma EmptyNone(slots: seq<Slot>)
    requires FirstEmpty(slots).None?
    ensures EmptySlots(slots) == 0
  {
    TotalZero(slots, EmptyMark);
  }

  /** In a valid inventory the used slots are the occupied ones, and never negative. */
  lemma UsedSlotsCountsOccupied(inv: Inventory)
    requires inv.Valid()
    ensures 0 <= inv.UsedSlots() <= inv.maxSlots
    ensures inv.UsedSlots() == Total(inv.slots, UsedMark)
  {
    EmptySlotsBound(inv.slots);
    SlotsSplit(inv.slots);
  }

  lemma {:induction false} SlotsSplit(slots: seq<Slot>)
    ensures EmptySlots(slots) + Total(slots, UsedMark) == |slots|
    decreases |slots|
  {
    if slots != [] {
      SlotsSplit(slots[..|slots| - 1]);
    }
  }
}
