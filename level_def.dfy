/**
 * The demo level list and the manager that steps through it. A level's
 * generator (a function that fills the world) is represented by the level's
 * position: switching levels reports which generator runs.
 */
module Levels {
  datatype LevelDef = LevelDef(id: nat, name: string, description: string)

  const LEVEL_NAMES: seq<string> := [
      "Basic Physics Playground",
      "Inferno",
      "Lava Meets Water",
      "Material Showcase",
      "Powder Paradise",
      "Liquid Lab",
      "Steam Engine",
      "Volcano",
      "Bridge Demolition",
      "Tower Collapse",
      "Floating Islands",
      "Crumbling Wall",
      "Castle Siege",
      "Domino Effect",
      "Quarry",
      "Stress Test" ]

  const LEVEL_DESCRIPTIONS: seq<string> := [
      "Sand and water demonstration",
      "Fire propagation through wood",
      "Chemical reactions demo",
      "All materials side-by-side",
      "Sand and powder physics",
      "Water and oil interactions",
      "Heat and steam generation",
      "Lava eruption demo",
      "Remove pillars to collapse the bridge (large debris demo)",
      "Watch towers crumble - small vs large debris",
      "Cut support columns to drop floating islands",
      "Strategic wall demolition - mixed debris sizes",
      "Destroy the castle foundation for cascading collapse",
      "Knock over the first domino and watch the chain reaction",
      "Mine support beams to collapse layered stone",
      "Remove the critical support - massive structure stress test" ]

  /** The sixteen demo levels, in order; each level's id is its position. */
  function DemoLevels(): (levels: seq<LevelDef>)
    ensures |levels| == 16
    ensures forall i | 0 <= i < |levels| :: levels[i] == LevelDef(i, LEVEL_NAMES[i], LEVEL_DESCRIPTIONS[i])
  {
    seq(16, i requires 0 <= i < 16 => LevelDef(i, LEVEL_NAMES[i], LEVEL_DESCRIPTIONS[i]))
  }

  /** The index after `i` in a list of `n` levels, wrapping to 0. */
  function NextIndex(i: nat, n: nat): (j: nat)
    requires i < n
    ensures j < n
    ensures j == 0 <==> i == n - 1
    ensures i < n - 1 ==> j == i + 1
  {
    (i + 1) % n
  }

  /** The index before `i`, wrapping to the last level. */
  function PrevIndex(i: nat, n: nat): (j: nat)
    requires i < n
    ensures j < n
  {
    if i == 0 then n - 1 else i - 1
  }

  /** Stepping back is stepping forward undone, both ways, and it is (i + n - 1) mod n. */
  lemma StepsInverse(i: nat, n: nat)
    requires i < n
    ensures PrevIndex(NextIndex(i, n), n) == i
    ensures NextIndex(PrevIndex(i, n), n) == i
    ensures PrevIndex(i, n) == (i + n - 1) % n
  {
  }

  /** `k` steps forward from `i`. */
  function Forward(i: nat, n: nat, k: nat): (j: nat)
    requires i < n
    ensures j < n
  {
    if k == 0 then i else NextIndex(Forward(i, n, k - 1), n)
  }

  /** `k` steps forward land on (i + k) mod n; in particular `n` steps come back to the start. */
  lemma {:induction false} ForwardIsModular(i: nat, n: nat, k: nat)
    requires i < n
    ensures Forward(i, n, k) == (i + k) % n
    decreases k
  {
    if k > 0 {
      ForwardIsModular(i, n, k - 1);
      ModSucc(i + k - 1, n);
    }
  }

  lemma MulAtLeast(k: int, n: int)
    requires k >= 1 && n > 0
    ensures k * n >= n
  {
  }

  lemma ModUnique(a: int, n: int, q: int, r: int)
    requires n > 0 && a == q * n + r && 0 <= r < n
    ensures a % n == r
  {
    var q0, r0 := a / n, a % n;
    assert q0 * n + r0 == q * n + r;
    if q0 > q {
      assert (q0 - q) * n == q0 * n - q * n;
      MulAtLeast(q0 - q, n);
    } else if q0 < q {
      assert (q - q0) * n == q * n - q0 * n;
      MulAtLeast(q - q0, n);
    }
  }

  lemma ModSucc(a: nat, n: nat)
    requires n > 0
    ensures (a + 1) % n == (a % n + 1) % n
  {
    var q, m := a / n, a % n;
    if m + 1 < n {
      ModUnique(a + 1, n, q, m + 1);
      ModUnique(m + 1, n, 0, m + 1);
    } else {
      ModUnique(a + 1, n, q + 1, 0);
      ModUnique(m + 1, n, 1, 0);
    }
  }

  /** `LevelManager`: the fixed level list and the index of the current level. */
  class LevelManager {
    const levels: seq<LevelDef>
    var current: nat

    ghost predicate Valid()
      reads this
    {
      levels == DemoLevels() && current < |levels|
    }

    /** `new`: the sixteen demo levels, starting at the first. */
    constructor ()
      ensures Valid()
      ensures levels == DemoLevels() && current == 0
    {
      levels := DemoLevels();
      current := 0;
    }

    /** `current_level_name`: the name in the demo table at the current position. */
    function CurrentLevelName(): (name: string)
      requires Valid()
      reads this
      ensures name == LEVEL_NAMES[current]
    {
      levels[current].name
    }

    /** `current_level_description`: the description in the demo table at the current position. */
    function CurrentLevelDescription(): (description: string)
      requires Valid()
      reads this
      ensures description == LEVEL_DESCRIPTIONS[current]
    {
      levels[current].description
    }

    /** `next_level`: move forward one level, wrapping, and report the level whose generator runs. */
    method NextLevel() returns (loaded: nat)
      requires Valid()
      modifies this`current
      ensures Valid()
      ensures current == NextIndex(old(current), |levels|)
      ensures loaded == current
    {
      current := (current + 1) % |levels|;
      loaded := current;
    }

    /** `prev_level`: move back one level, wrapping, and report the level whose generator runs. */
    method PrevLevel() returns (loaded: nat)
      requires Valid()
      modifies this`current
      ensures Valid()
      ensures current == PrevIndex(old(current), |levels|)
      ensures loaded == current
    {
      if current == 0 {
        current := |levels| - 1;
      } else {
        current := current - 1;
      }
      loaded := current;
    }
  }

  /** A new manager is on "Basic Physics Playground"; one step back from it is "Stress Test". */
  lemma DemoExamples()
    ensures DemoLevels()[0].name == "Basic Physics Playground"
    ensures PrevIndex(0, 16) == 15 && DemoLevels()[15].name == "Stress Test"
    ensures NextIndex(15, 16) == 0
  {
  }
}
