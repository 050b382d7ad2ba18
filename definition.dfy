/**
 * Scenario definitions: a name, a description and four action lists
 * (setup, main actions, verification conditions, cleanup), built by
 * value-to-value helpers that each append to one list. Loading from and
 * saving to RON files is not part of this model.
 */
module ScenarioDefinitions {
  import opened Ints
  import V = ValidatedTypes

  /** The actions the helpers build, with the remaining kinds folded into `OtherAction`. */
  datatype ScenarioAction =
    | FillRect(minX: int, maxX: int, minY: int, maxY: int, material: V.MaterialIdValue)
    | TeleportPlayer(x: V.F32, y: V.F32)
    | WaitFrames(frames: nat)
    | Log(message: string)
    | OtherAction(kind: string)

  datatype VerificationCondition =
    | PlayerPosition(x: V.F32, y: V.F32, tolerance: V.F32)
    | OtherCondition(kind: string)

  datatype ScenarioDefinition = ScenarioDefinition(
    name: string,
    description: string,
    setup: seq<ScenarioAction>,
    actions: seq<ScenarioAction>,
    verify: seq<VerificationCondition>,
    cleanup: seq<ScenarioAction>)

  /** `u32 as i32`: values from 2^31 up wrap to negative numbers. */
  function AsI32(w: U32): (r: int)
    ensures I32_MIN <= r <= I32_MAX
    ensures (r - w) % 0x1_0000_0000 == 0
  {
    if w <= I32_MAX then w else w - 0x1_0000_0000
  }

  /** `new`: the name, and everything else empty. */
  function New(name: string): (d: ScenarioDefinition)
    ensures d.name == name && d.description == ""
    ensures d.setup == [] && d.actions == [] && d.verify == [] && d.cleanup == []
  {
    ScenarioDefinition(name, "", [], [], [], [])
  }

  /** `with_description`: only the description changes. */
  function WithDescription(d: ScenarioDefinition, description: string): (r: ScenarioDefinition)
    ensures r.description == description
    ensures r == d.(description := description)
  {
    d.(description := description)
  }

  /** Half the platform width, computed in `i32` with truncating division. */
  function HalfWidth(width: U32): int
  {
    TruncDiv(AsI32(width), 2)
  }

  /** `with_platform`: one five-row FillRect centred on x = 0, appended to setup. */
  function WithPlatform(d: ScenarioDefinition, y: int, width: U32, material: V.MaterialIdValue): (r: ScenarioDefinition)
    ensures |r.setup| == |d.setup| + 1 && r.setup[..|d.setup|] == d.setup
    ensures r == d.(setup := r.setup)
  {
    var half := HalfWidth(width);
    d.(setup := d.setup + [FillRect(-half, half, y, y + 5, material)])
  }

  /** The platform is symmetric about x = 0, spans its width (rounded down to even) and is five rows high. */
  lemma PlatformShape(d: ScenarioDefinition, y: int, width: U32, material: V.MaterialIdValue)
    ensures var a := WithPlatform(d, y, width, material).setup[|d.setup|];
            a.FillRect? && a.minX == -a.maxX && a.minY == y && a.maxY - a.minY == 5 && a.material == material
    ensures width <= I32_MAX ==>
            var a := WithPlatform(d, y, width, material).setup[|d.setup|];
            a.maxX - a.minX == width - width % 2 && 0 <= a.maxX
  {
  }

  /** `with_spawn`: one TeleportPlayer appended to setup, nothing else changed. */
  function WithSpawn(d: ScenarioDefinition, x: V.F32, y: V.F32): (r: ScenarioDefinition)
    ensures r.setup == d.setup + [TeleportPlayer(x, y)]
    ensures r == d.(setup := r.setup)
  {
    d.(setup := d.setup + [TeleportPlayer(x, y)])
  }

  /** The four walls of `with_chamber`: floor, left wall, right wall, ceiling. */
  function ChamberWalls(xStart: int, xEnd: int, yStart: int, yEnd: int, thickness: U32, material: V.MaterialIdValue): (walls: seq<ScenarioAction>)
    ensures |walls| == 4
    ensures forall i | 0 <= i < 4 :: walls[i].FillRect? && walls[i].material == material
  {
    var w := AsI32(thickness);
    [ FillRect(xStart, xEnd, yStart, yStart + w, material),
      FillRect(xStart, xStart + w, yStart, yEnd, material),
      FillRect(xEnd - w, xEnd, yStart, yEnd, material),
      FillRect(xStart, xEnd, yEnd - w, yEnd, material) ]
  }

  /** `with_chamber`: the four walls appended to setup, nothing else changed. */
  function WithChamber(d: ScenarioDefinition, xStart: int, xEnd: int, yStart: int, yEnd: int, thickness: U32, material: V.MaterialIdValue): (r: ScenarioDefinition)
    ensures r.setup == d.setup + ChamberWalls(xStart, xEnd, yStart, yEnd, thickness, material)
    ensures r == d.(setup := r.setup)
  {
    d.(setup := d.setup + ChamberWalls(xStart, xEnd, yStart, yEnd, thickness, material))
  }

  /** A point inside a FillRect's inclusive bounds. */
  predicate Covers(a: ScenarioAction, x: int, y: int)
  {
    a.FillRect? && a.minX <= x <= a.maxX && a.minY <= y <= a.maxY
  }

  /**
   * For a thickness below 2^31 that fits in both extents, the walls stay inside
   * the chamber box, and every point of the box within `thickness` of one of
   * its sides is covered by a wall.
   */
  lemma ChamberFrame(xStart: int, xEnd: int, yStart: int, yEnd: int, thickness: U32, material: V.MaterialIdValue, x: int, y: int)
    requires thickness <= I32_MAX && xStart + thickness <= xEnd && yStart + thickness <= yEnd
    ensures var walls := ChamberWalls(xStart, xEnd, yStart, yEnd, thickness, material);
            (exists i | 0 <= i < 4 :: Covers(walls[i], x, y)) <==>
            (xStart <= x <= xEnd && yStart <= y <= yEnd &&
             (y <= yStart + thickness || x <= xStart + thickness || x >= xEnd - thickness || y >= yEnd - thickness))
  {
    var walls := ChamberWalls(xStart, xEnd, yStart, yEnd, thickness, material);
    if xStart <= x <= xEnd && yStart <= y <= yEnd {
      if y <= yStart + thickness {
        assert Covers(walls[0], x, y);
      } else if x <= xStart + thickness {
        assert Covers(walls[1], x, y);
      } else if x >= xEnd - thickness {
        assert Covers(walls[2], x, y);
      } else if y >= yEnd - thickness {
        assert Covers(walls[3], x, y);
      }
    }
  }

  /** `add_action`: appended to the main actions only. */
  function AddAction(d: ScenarioDefinition, a: ScenarioAction): (r: ScenarioDefinition)
    ensures r.actions == d.actions + [a]
    ensures r == d.(actions := r.actions)
  {
    d.(actions := d.actions + [a])
  }

  /** `add_verification`: appended to the verification conditions only. */
  function AddVerification(d: ScenarioDefinition, c: VerificationCondition): (r: ScenarioDefinition)
    ensures r.verify == d.verify + [c]
    ensures r == d.(verify := r.verify)
  {
    d.(verify := d.verify + [c])
  }

  /** `add_cleanup`: appended to the cleanup actions only. */
  function AddCleanup(d: ScenarioDefinition, a: ScenarioAction): (r: ScenarioDefinition)
    ensures r.cleanup == d.cleanup + [a]
    ensures r == d.(cleanup := r.cleanup)
  {
    d.(cleanup := d.cleanup + [a])
  }

  /** Helpers that append to different lists commute, and a later description replaces an earlier one. */
  lemma HelpersCommute(d: ScenarioDefinition, a: ScenarioAction, c: VerificationCondition, b: ScenarioAction, s: string, t: string)
    ensures AddVerification(AddAction(d, a), c) == AddAction(AddVerification(d, c), a)
    ensures AddCleanup(AddAction(d, a), b) == AddAction(AddCleanup(d, b), a)
    ensures AddCleanup(AddVerification(d, c), b) == AddVerification(AddCleanup(d, b), c)
    ensures WithDescription(WithDescription(d, s), t) == WithDescription(d, t)
  {
  }

  /** The source's composition examples. */
  lemma CompositionExamples()
    ensures var d := WithSpawn(WithPlatform(WithDescription(New("Platform Test"), "Test platform helper"), 20, 60, 1), V.Finite(0.0), V.Finite(100.0));
            d.name == "Platform Test" && |d.setup| == 2 &&
            d.setup[0] == FillRect(-30, 30, 20, 25, 1) && d.setup[1] == TeleportPlayer(V.Finite(0.0), V.Finite(100.0))
    ensures var d := WithChamber(New("Chamber Test"), -30, 30, 0, 50, 4, 1);
            |d.setup| == 4 && forall i | 0 <= i < 4 :: d.setup[i].FillRect? && d.setup[i].material == 1
    ensures var d := AddCleanup(AddVerification(AddAction(AddAction(WithSpawn(New("Builder Test"), V.Finite(0.0), V.Finite(100.0)),
                       WaitFrames(60)), Log("Test")), PlayerPosition(V.Finite(0.0), V.Finite(100.0), V.Finite(5.0))), Log("Cleanup"));
            |d.setup| == 1 && |d.actions| == 2 && |d.verify| == 1 && |d.cleanup| == 1
  {
  }
}
