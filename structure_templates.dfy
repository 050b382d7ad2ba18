/**
 * The template builder and the built-in structures. The builder is a value
 * threaded through its calls (each call consumes it and returns it with
 * pixels appended); the line and rectangle calls append in loops, and
 * `calculate_bounds` folds min/max over the pixels in a loop.
 */
module StructureTemplates {
  import opened Ints
  import opened Structures
  import M = Materials
  import CoreIds

  datatype TemplateBuilder = TemplateBuilder(name: string, pixels: seq<TemplatePixel>, anchor: AnchorType)

  /** `TemplateBuilder::new`: no pixels yet. */
  function NewBuilder(name: string, anchor: AnchorType): (b: TemplateBuilder)
    ensures b.pixels == [] && b.name == name && b.anchor == anchor
  {
    TemplateBuilder(name, [], anchor)
  }

  /** `pixel`: one triple appended, nothing else changed. */
  function AddPixel(b: TemplateBuilder, dx: I8, dy: I8, m: U16): (r: TemplateBuilder)
    ensures |r.pixels| == |b.pixels| + 1 && r.pixels[..|b.pixels|] == b.pixels && r.pixels[|b.pixels|] == (dx, dy, m)
    ensures r.name == b.name && r.anchor == b.anchor
  {
    b.(pixels := b.pixels + [(dx, dy, m)])
  }

  // ---------------------------------------------------------------------
  // Lines and rectangles

  /** The number of values in the inclusive range lo..=hi. */
  function Count(lo: int, hi: int): nat
  {
    if hi >= lo then hi - lo + 1 else 0
  }

  /** The pixels of row y from x = a to x = b inclusive, left to right. */
  function RowPixels(y: I8, a: I8, b: I8, m: U16): seq<TemplatePixel>
  {
    seq(Count(a, b), i requires 0 <= i < Count(a, b) => (a + i, y, m))
  }

  /** The pixels of column x from y = a to y = b inclusive, bottom to top. */
  function ColumnPixels(x: I8, a: I8, b: I8, m: U16): seq<TemplatePixel>
  {
    seq(Count(a, b), i requires 0 <= i < Count(a, b) => (x, a + i, m))
  }

  /** The first k rows of a rectangle, from y = ys up, each from x = xs to x = xe. */
  function RectRows(xs: I8, ys: I8, xe: I8, k: nat, m: U16): seq<TemplatePixel>
    requires ys + k <= 128
  {
    if k == 0 then [] else RectRows(xs, ys, xe, k - 1, m) + RowPixels(ys + k - 1, xs, xe, m)
  }

  /** The pixels of the rectangle [xs, xe] × [ys, ye], row by row from ys, each row left to right. */
  function RectPixels(xs: I8, ys: I8, xe: I8, ye: I8, m: U16): seq<TemplatePixel>
  {
    RectRows(xs, ys, xe, Count(ys, ye), m)
  }

  /** A row holds b - a + 1 pixels, all in row y with material m, with x running from a up to b. */
  lemma RowShape(y: I8, a: I8, b: I8, m: U16)
    ensures |RowPixels(y, a, b, m)| == Count(a, b)
    ensures forall i | 0 <= i < |RowPixels(y, a, b, m)| :: RowPixels(y, a, b, m)[i] == (a + i, y, m)
    ensures forall p :: p in RowPixels(y, a, b, m) <==> (a <= p.0 <= b && p.1 == y && p.2 == m)
  {
    var r := RowPixels(y, a, b, m);
    forall p: TemplatePixel | a <= p.0 <= b && p.1 == y && p.2 == m
      ensures p in r
    {
      assert r[p.0 - a] == p;
    }
  }

  /** A column holds b - a + 1 pixels, all in column x with material m, with y running from a up to b. */
  lemma ColumnShape(x: I8, a: I8, b: I8, m: U16)
    ensures |ColumnPixels(x, a, b, m)| == Count(a, b)
    ensures forall i | 0 <= i < |ColumnPixels(x, a, b, m)| :: ColumnPixels(x, a, b, m)[i] == (x, a + i, m)
    ensures forall p :: p in ColumnPixels(x, a, b, m) <==> (p.0 == x && a <= p.1 <= b && p.2 == m)
  {
    var r := ColumnPixels(x, a, b, m);
    forall p: TemplatePixel | p.0 == x && a <= p.1 <= b && p.2 == m
      ensures p in r
    {
      assert r[p.1 - a] == p;
    }
  }

  lemma {:induction false} RectRowsShape(xs: I8, ys: I8, xe: I8, k: nat, m: U16)
    requires ys + k <= 128
    ensures |RectRows(xs, ys, xe, k, m)| == Count(xs, xe) * k
    ensures forall p :: p in RectRows(xs, ys, xe, k, m) <==> (xs <= p.0 <= xe && ys <= p.1 < ys + k && p.2 == m)
    decreases k
  {
    if k > 0 {
      RectRowsShape(xs, ys, xe, k - 1, m);
      RowShape(ys + k - 1, xs, xe, m);
    }
  }

  /** A rectangle holds (xe - xs + 1) · (ye - ys + 1) pixels: exactly the cells of the box, in material m. */
  lemma RectShape(xs: I8, ys: I8, xe: I8, ye: I8, m: U16)
    ensures |RectPixels(xs, ys, xe, ye, m)| == Count(xs, xe) * Count(ys, ye)
    ensures forall p :: p in RectPixels(xs, ys, xe, ye, m) <==> (xs <= p.0 <= xe && ys <= p.1 <= ye && p.2 == m)
  {
    RectRowsShape(xs, ys, xe, Count(ys, ye), m);
  }

  /** `h_line(y, x_start, x_end, m)`: for x in x_start..=x_end, push (x, y, m). */
  method HLine(b: TemplateBuilder, y: I8, xStart: I8, xEnd: I8, m: U16) returns (r: TemplateBuilder)
    ensures r == b.(pixels := b.pixels + RowPixels(y, xStart, xEnd, m))
  {
    r := b;
    var i := 0;
    while i < Count(xStart, xEnd)
      invariant i <= Count(xStart, xEnd)
      invariant r == b.(pixels := b.pixels + RowPixels(y, xStart, xEnd, m)[..i])
    {
      r := r.(pixels := r.pixels + [(xStart + i, y, m)]);
      i := i + 1;
      assert RowPixels(y, xStart, xEnd, m)[..i] == RowPixels(y, xStart, xEnd, m)[..i - 1] + [(xStart + i - 1, y, m)];
    }
    assert RowPixels(y, xStart, xEnd, m)[..i] == RowPixels(y, xStart, xEnd, m);
  }

  /** `v_line(x, y_start, y_end, m)`: for y in y_start..=y_end, push (x, y, m). */
  method VLine(b: TemplateBuilder, x: I8, yStart: I8, yEnd: I8, m: U16) returns (r: TemplateBuilder)
    ensures r == b.(pixels := b.pixels + ColumnPixels(x, yStart, yEnd, m))
  {
    r := b;
    var i := 0;
    while i < Count(yStart, yEnd)
      invariant i <= Count(yStart, yEnd)
      invariant r == b.(pixels := b.pixels + ColumnPixels(x, yStart, yEnd, m)[..i])
    {
      r := r.(pixels := r.pixels + [(x, yStart + i, m)]);
      i := i + 1;
      assert ColumnPixels(x, yStart, yEnd, m)[..i] == ColumnPixels(x, yStart, yEnd, m)[..i - 1] + [(x, yStart + i - 1, m)];
    }
    assert ColumnPixels(x, yStart, yEnd, m)[..i] == ColumnPixels(x, yStart, yEnd, m);
  }

  /** `rect(x_start, y_start, x_end, y_end, m)`: for y in y_start..=y_end, for x in x_start..=x_end, push (x, y, m). */
  method Rect(b: TemplateBuilder, xStart: I8, yStart: I8, xEnd: I8, yEnd: I8, m: U16) returns (r: TemplateBuilder)
    ensures r == b.(pixels := b.pixels + RectPixels(xStart, yStart, xEnd, yEnd, m))
  {
    r := b;
    var k := 0;
    while k < Count(yStart, yEnd)
      invariant k <= Count(yStart, yEnd)
      invariant r == b.(pixels := b.pixels + RectRows(xStart, yStart, xEnd, k, m))
    {
      r := HLine(r, yStart + k, xStart, xEnd, m);
      k := k + 1;
    }
  }

  // ---------------------------------------------------------------------
  // Bounds

  /** Component-wise minimum and maximum of the pixels, starting from (i8::MAX, i8::MAX, i8::MIN, i8::MIN). */
  function Extent(pixels: seq<TemplatePixel>): Bounds
  {
    if |pixels| == 0 then (127, 127, -128, -128)
    else
      var e := Extent(pixels[..|pixels| - 1]);
      var p := pixels[|pixels| - 1];
      (Min(e.0, p.0), Min(e.1, p.1), Max(e.2, p.0), Max(e.3, p.1))
  }

  /** The bounding box `calculate_bounds` returns: (0, 0, 0, 0) for no pixels. */
  function BoundsOf(pixels: seq<TemplatePixel>): Bounds
  {
    if |pixels| == 0 then (0, 0, 0, 0) else Extent(pixels)
  }

  /** Every pixel lies inside the extent. */
  lemma {:induction false} ExtentContains(pixels: seq<TemplatePixel>)
    ensures forall p | p in pixels ::
              Extent(pixels).0 <= p.0 <= Extent(pixels).2 && Extent(pixels).1 <= p.1 <= Extent(pixels).3
    decreases |pixels|
  {
    if |pixels| > 0 {
      var init := pixels[..|pixels| - 1];
      ExtentContains(init);
      assert pixels == init + [pixels[|pixels| - 1]];
    }
  }

  /** Each side of the extent of a non-empty list is the coordinate of some pixel, whose index is returned. */
  lemma {:induction false} ExtentAttained(pixels: seq<TemplatePixel>) returns (i0: nat, i1: nat, i2: nat, i3: nat)
    requires |pixels| > 0
    ensures i0 < |pixels| && pixels[i0].0 == Extent(pixels).0
    ensures i1 < |pixels| && pixels[i1].1 == Extent(pixels).1
    ensures i2 < |pixels| && pixels[i2].0 == Extent(pixels).2
    ensures i3 < |pixels| && pixels[i3].1 == Extent(pixels).3
    decreases |pixels|
  {
    var n := |pixels| - 1;
    var init := pixels[..n];
    var last := pixels[n];
    if n == 0 {
      return 0, 0, 0, 0;
    }
    var j0, j1, j2, j3 := ExtentAttained(init);
    var e := Extent(init);
    i0 := if last.0 <= e.0 then n else j0;
    i1 := if last.1 <= e.1 then n else j1;
    i2 := if last.0 >= e.2 then n else j2;
    i3 := if last.1 >= e.3 then n else j3;
  }

  /** `calculate_bounds` holds every pixel, and each side of the box touches a pixel. */
  lemma BoundsTight(pixels: seq<TemplatePixel>)
    requires |pixels| > 0
    ensures forall p | p in pixels ::
              BoundsOf(pixels).0 <= p.0 <= BoundsOf(pixels).2 && BoundsOf(pixels).1 <= p.1 <= BoundsOf(pixels).3
    ensures exists p | p in pixels :: p.0 == BoundsOf(pixels).0
    ensures exists p | p in pixels :: p.1 == BoundsOf(pixels).1
    ensures exists p | p in pixels :: p.0 == BoundsOf(pixels).2
    ensures exists p | p in pixels :: p.1 == BoundsOf(pixels).3
  {
    ExtentContains(pixels);
    var i0, i1, i2, i3 := ExtentAttained(pixels);
    assert pixels[i0] in pixels && pixels[i1] in pixels && pixels[i2] in pixels && pixels[i3] in pixels;
  }

  /** `calculate_bounds`: an early return for no pixels, otherwise a min/max fold over them. */
  method CalculateBounds(pixels: seq<TemplatePixel>) returns (r: Bounds)
    ensures r == BoundsOf(pixels)
    ensures |pixels| == 0 ==> r == (0, 0, 0, 0)
  {
    if |pixels| == 0 {
      return (0, 0, 0, 0);
    }
    var minX: I8, minY: I8, maxX: I8, maxY: I8 := 127, 127, -128, -128;
    var i := 0;
    while i < |pixels|
      invariant i <= |pixels|
      invariant (minX, minY, maxX, maxY) == Extent(pixels[..i])
    {
      var p := pixels[i];
      assert pixels[..i + 1][..i] == pixels[..i];
      minX := Min(minX, p.0);
      minY := Min(minY, p.1);
      maxX := Max(maxX, p.0);
      maxY := Max(maxY, p.1);
      i := i + 1;
    }
    assert pixels[..i] == pixels;
    r := (minX, minY, maxX, maxY);
  }

  // ---------------------------------------------------------------------
  // Building

  /** The template a builder builds. */
  function Built(b: TemplateBuilder): StructureTemplate
  {
    StructureTemplate(b.name, b.pixels, b.anchor, BoundsOf(b.pixels), [])
  }

  /** `build`: name, pixels and anchor kept, bounds computed, no support columns. */
  method Build(b: TemplateBuilder) returns (t: StructureTemplate)
    ensures t.name == b.name && t.pixels == b.pixels && t.anchor == b.anchor
    ensures t.bounds == BoundsOf(b.pixels) && t.supportColumns == []
  {
    var bounds := CalculateBounds(b.pixels);
    t := StructureTemplate(b.name, b.pixels, b.anchor, bounds, []);
  }

  /** `build_with_supports`: `build`, then the support columns replaced by the given ones. */
  method BuildWithSupports(b: TemplateBuilder, supports: seq<I8>) returns (t: StructureTemplate)
    ensures t == Built(b).(supportColumns := supports)
  {
    t := Build(b);
    t := t.(supportColumns := supports);
  }

  /** Every pixel of a built template lies inside its bounds. */
  lemma BuiltContainsPixels(b: TemplateBuilder)
    ensures forall p | p in Built(b).pixels ::
              Built(b).bounds.0 <= p.0 <= Built(b).bounds.2 && Built(b).bounds.1 <= p.1 <= Built(b).bounds.3
  {
    if |b.pixels| > 0 {
      BoundsTight(b.pixels);
    }
  }

  // ---------------------------------------------------------------------
  // Built-in templates

  /** The builder after an `h_line`, as a value. */
  function WithRow(b: TemplateBuilder, y: I8, a: I8, c: I8, m: U16): TemplateBuilder
  {
    b.(pixels := b.pixels + RowPixels(y, a, c, m))
  }

  /** The builder after a `v_line`, as a value. */
  function WithColumn(b: TemplateBuilder, x: I8, a: I8, c: I8, m: U16): TemplateBuilder
  {
    b.(pixels := b.pixels + ColumnPixels(x, a, c, m))
  }

  /** The builder after a `rect`, as a value. */
  function WithRect(b: TemplateBuilder, xs: I8, ys: I8, xe: I8, ye: I8, m: U16): TemplateBuilder
  {
    b.(pixels := b.pixels + RectPixels(xs, ys, xe, ye, m))
  }

  function BridgeVariants(): StructureVariants
  {
    StructureVariants("wooden_bridge", [
      Built(WithRow(NewBuilder("bridge_simple_16", BottomCenter), 0, -8, 7, M.WOOD)).(supportColumns := [-8, 7]),
      Built(WithRow(WithRow(NewBuilder("bridge_medium_24", BottomCenter), 0, -12, 11, M.WOOD), 1, -12, 11, M.WOOD))
        .(supportColumns := [-12, 11]),
      Built(WithColumn(WithColumn(WithRow(NewBuilder("bridge_railed_32", BottomCenter), 0, -16, 15, M.WOOD),
                                  -16, 1, 3, M.WOOD), 15, 1, 3, M.WOOD))
        .(supportColumns := [-16, 15])])
  }

  function TreeNormalVariants(): StructureVariants
  {
    StructureVariants("tree_normal", [
      Built(WithRow(WithRow(WithColumn(NewBuilder("tree_small", BottomCenter), 0, 1, 8, M.WOOD),
                            8, -2, 2, CoreIds.PLANT_MATTER), 9, -1, 1, CoreIds.PLANT_MATTER)),
      Built(WithRow(WithRow(WithRow(WithColumn(NewBuilder("tree_medium", BottomCenter), 0, 1, 12, M.WOOD),
                                    12, -3, 3, CoreIds.PLANT_MATTER), 13, -2, 2, CoreIds.PLANT_MATTER),
                    14, -1, 1, CoreIds.PLANT_MATTER))])
  }

  /** The tall marker tree: a trunk from y = 1 to 20 and three canopy rows. */
  function MarkerTreeBuilder(): TemplateBuilder
  {
    WithRow(WithRow(WithRow(WithColumn(NewBuilder("tree_marker_tall", BottomCenter), 0, 1, 20, M.WOOD),
                            18, -4, 4, CoreIds.PLANT_MATTER), 19, -3, 3, CoreIds.PLANT_MATTER),
            20, -2, 2, CoreIds.PLANT_MATTER)
  }

  function TreeMarkerVariants(): StructureVariants
  {
    StructureVariants("tree_marker", [Built(MarkerTreeBuilder())])
  }

  function RuinWallVariants(): StructureVariants
  {
    StructureVariants("ruin_wall", [
      Built(AddPixel(WithRect(WithRect(NewBuilder("ruin_wall_partial", BottomCenter), -4, 0, -3, 5, M.STONE),
                              2, 0, 3, 4, M.STONE), 0, 0, M.STONE))])
  }

  function RuinPillarVariants(): StructureVariants
  {
    StructureVariants("ruin_pillar", [
      Built(WithColumn(WithColumn(NewBuilder("ruin_pillar", BottomCenter), -1, 0, 7, M.STONE), 0, 0, 6, M.STONE))])
  }

  /** `create_builtin_templates`. */
  function BuiltinTemplates(): map<string, StructureVariants>
  {
    map["wooden_bridge" := BridgeVariants(),
        "tree_normal" := TreeNormalVariants(),
        "tree_marker" := TreeMarkerVariants(),
        "ruin_wall" := RuinWallVariants(),
        "ruin_pillar" := RuinPillarVariants()]
  }

  /** The built-in set has exactly the five structure kinds. */
  lemma BuiltinKeys()
    ensures BuiltinTemplates().Keys == {"wooden_bridge", "tree_normal", "tree_marker", "ruin_wall", "ruin_pillar"}
    ensures |BuiltinTemplates()| == 5
  {
    var k := BuiltinTemplates().Keys;
    assert k == {"wooden_bridge", "tree_normal", "tree_marker", "ruin_wall", "ruin_pillar"};
    assert "wooden_bridge" != "tree_normal" && "tree_marker" != "ruin_wall" && "ruin_pillar" != "ruin_wall";
  }

  /** The bridges: three variants, the first the 16-wide plank bridge with supports at -8 and 7. */
  lemma BridgeFacts()
    ensures BuiltinTemplates()["wooden_bridge"].Len() == 3
    ensures !BuiltinTemplates()["wooden_bridge"].IsEmpty()
    ensures BuiltinTemplates()["wooden_bridge"].variants[0].name == "bridge_simple_16"
    ensures BuiltinTemplates()["wooden_bridge"].variants[0].supportColumns == [-8, 7]
  {
  }

  /** Two normal trees, one marker tree, one ruin wall, one ruin pillar; the small tree has pixels. */
  lemma VariantCounts()
    ensures BuiltinTemplates()["tree_normal"].Len() == 2
    ensures BuiltinTemplates()["tree_marker"].Len() == 1
    ensures BuiltinTemplates()["ruin_wall"].Len() == 1
    ensures BuiltinTemplates()["ruin_pillar"].Len() == 1
    ensures BuiltinTemplates()["tree_normal"].variants[0].name == "tree_small"
    ensures BuiltinTemplates()["tree_normal"].variants[0].pixels != []
  {
  }

  /** The marker tree's trunk runs from height 1 to height 20. */
  lemma MarkerTreeTrunk()
    ensures (0, 1, M.WOOD) in MarkerTreeBuilder().pixels && (0, 20, M.WOOD) in MarkerTreeBuilder().pixels
  {
    var trunk := ColumnPixels(0, 1, 20, M.WOOD);
    ColumnShape(0, 1, 20, M.WOOD);
    assert MarkerTreeBuilder().pixels[..20] == trunk;
  }

  /** A template with pixels at heights lo and hi is at least hi - lo + 1 tall. */
  lemma SpansRows(b: TemplateBuilder, bottom: TemplatePixel, top: TemplatePixel)
    requires bottom in b.pixels && top in b.pixels
    ensures Height(Built(b)) >= top.1 - bottom.1 + 1
  {
    BoundsTight(b.pixels);
  }

  /** The marker tree is taller than 15. */
  lemma MarkerTreeIsTall()
    ensures Height(TreeMarkerVariants().variants[0]) > 15
    ensures HeightI8(TreeMarkerVariants().variants[0]).Some? && HeightI8(TreeMarkerVariants().variants[0]).value > 15
  {
    MarkerTreeTrunk();
    SpansRows(MarkerTreeBuilder(), (0, 1, M.WOOD), (0, 20, M.WOOD));
    var ps := MarkerTreeBuilder().pixels;
    ColumnShape(0, 1, 20, M.WOOD);
    RowShape(18, -4, 4, CoreIds.PLANT_MATTER);
    RowShape(19, -3, 3, CoreIds.PLANT_MATTER);
    RowShape(20, -2, 2, CoreIds.PLANT_MATTER);
    assert ps == ColumnPixels(0, 1, 20, M.WOOD) + RowPixels(18, -4, 4, CoreIds.PLANT_MATTER)
                 + RowPixels(19, -3, 3, CoreIds.PLANT_MATTER) + RowPixels(20, -2, 2, CoreIds.PLANT_MATTER);
    assert forall p | p in ps :: 1 <= p.1 <= 20;
    BoundsTight(ps);
    I8SizesAgree(TreeMarkerVariants().variants[0]);
  }

  /** The source's examples: a 3 × 3 rectangle gives 9 pixels, and a line from -2 to 2 gives 5. */
  lemma BuilderExamples()
    ensures |RectPixels(0, 0, 2, 2, M.STONE)| == 9
    ensures |RowPixels(0, -2, 2, M.WOOD)| == 5
    ensures |ColumnPixels(0, 1, 5, M.WOOD)| == 5
  {
    RectShape(0, 0, 2, 2, M.STONE);
  }
}
