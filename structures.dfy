/**
 * Structure templates: pixel offsets from an anchor, with a bounding box,
 * and variant lists from which placement picks one template by a noise value.
 * Noise is an `f64`, modelled as a `real` (no NaN, no rounding).
 */
module Structures {
  import opened Wrappers
  import opened Ints

  type I8 = x: int | -128 <= x < 128

  /** A template pixel: x offset, y offset, material id. */
  type TemplatePixel = (I8, I8, U16)

  /** (min_x, min_y, max_x, max_y). */
  type Bounds = (I8, I8, I8, I8)

  datatype AnchorType =
    | BottomCenter
    | TopCenter
    | Center
    | BridgeEnds(leftOffset: I8, rightOffset: I8)

  datatype StructureTemplate = StructureTemplate(
    name: string,
    pixels: seq<TemplatePixel>,
    anchor: AnchorType,
    bounds: Bounds,
    supportColumns: seq<I8>)

  datatype StructureVariants = StructureVariants(name: string, variants: seq<StructureTemplate>)
  {
    /** `len`. */
    function Len(): (n: nat)
      ensures n == 0 <==> variants == []
    {
      |variants|
    }

    /** `is_empty`. */
    function IsEmpty(): (b: bool)
      ensures b <==> Len() == 0
    {
      variants == []
    }
  }

  // ---------------------------------------------------------------------
  // Width and height

  /** Checked `i8` arithmetic: None where a debug build panics on overflow. */
  function CheckedI8(v: int): (r: Option<I8>)
    ensures r.Some? <==> -128 <= v < 128
    ensures r.Some? ==> r.value == v
  {
    if -128 <= v < 128 then Some(v) else None
  }

  /** `width` as written: the subtraction and the `+ 1` are done in `i8`, the cast to `i32` comes last. */
  function WidthI8(t: StructureTemplate): Option<int>
  {
    match CheckedI8(t.bounds.2 - t.bounds.0)
    case None => None
    case Some(d) => CheckedI8(d + 1)
  }

  /** `height` as written, in `i8` like `width`. */
  function HeightI8(t: StructureTemplate): Option<int>
  {
    match CheckedI8(t.bounds.3 - t.bounds.1)
    case None => None
    case Some(d) => CheckedI8(d + 1)
  }

  /** The number of columns from min_x to max_x inclusive, computed without overflow. */
  function Width(t: StructureTemplate): int
  {
    t.bounds.2 - t.bounds.0 + 1
  }

  /** The number of rows from min_y to max_y inclusive, computed without overflow. */
  function Height(t: StructureTemplate): int
  {
    t.bounds.3 - t.bounds.1 + 1
  }

  /** The width counts the columns of the box: min_x + w - 1 is max_x, so every column of the box is below min_x + w. */
  lemma WidthCountsColumns(t: StructureTemplate, x: int)
    requires t.bounds.0 <= t.bounds.2
    ensures Width(t) >= 1
    ensures t.bounds.0 <= x <= t.bounds.2 <==> t.bounds.0 <= x < t.bounds.0 + Width(t)
  {
  }

  /** The height counts the rows of the box. */
  lemma HeightCountsRows(t: StructureTemplate, y: int)
    requires t.bounds.1 <= t.bounds.3
    ensures Height(t) >= 1
    ensures t.bounds.1 <= y <= t.bounds.3 <==> t.bounds.1 <= y < t.bounds.1 + Height(t)
  {
  }

  /** Where the `i8` arithmetic does not overflow, the source's width and height are the true ones. */
  lemma I8SizesAgree(t: StructureTemplate)
    ensures WidthI8(t).Some? ==> WidthI8(t).value == Width(t)
    ensures HeightI8(t).Some? ==> HeightI8(t).value == Height(t)
    ensures WidthI8(t).None? <==> !(-127 <= Width(t) <= 127)
    ensures HeightI8(t).None? <==> !(-127 <= Height(t) <= 127)
  {
  }

  /** A box from x = -64 to x = 64 is 129 columns wide; the `i8` subtraction 64 - (-64) already overflows. */
  lemma WideTemplateOverflows()
    ensures var t := StructureTemplate("wide", [(-64, 0, 1), (64, 0, 1)], Center, (-64, 0, 64, 0), []);
            WidthI8(t).None? && Width(t) == 129
  {
  }

  /** The source's own example: bounds (-5, -3, 5, 7) give an 11 × 11 box. */
  lemma ElevenByEleven()
    ensures var t := StructureTemplate("test", [], BottomCenter, (-5, -3, 5, 7), []);
            Width(t) == 11 && Height(t) == 11 && WidthI8(t) == Some(11) && HeightI8(t) == Some(11)
  {
  }

  // ---------------------------------------------------------------------
  // Variant selection

  function Clamp(v: real, lo: real, hi: real): real
  {
    if v < lo then lo else if v > hi then hi else v
  }

  /** Noise in [-1, 1] mapped onto [0, 1], clamped. */
  function Normalized(noise: real): (t: real)
    ensures 0.0 <= t <= 1.0
  {
    Clamp((noise + 1.0) * 0.5, 0.0, 1.0)
  }

  /**
   * The index `select_variant` picks: the normalised noise scaled by the
   * number of variants, truncated (the value is never negative), then capped
   * at the last index.
   */
  function SelectIndex(noise: real, len: nat): (i: nat)
    requires len > 0
    ensures i < len
    ensures Normalized(noise) < 1.0 ==> i as real <= Normalized(noise) * len as real < i as real + 1.0
    ensures Normalized(noise) == 1.0 ==> i == len - 1
  {
    var t := Normalized(noise);
    ScaledBelow(t, len);
    var index := (t * len as real).Floor;
    Min(index, len - 1)
  }

  /** A fraction in [0, 1) of len, truncated, is an index below len. */
  lemma ScaledBelow(t: real, len: nat)
    requires 0.0 <= t <= 1.0 && len > 0
    ensures 0 <= (t * len as real).Floor <= len
    ensures t < 1.0 ==> (t * len as real).Floor < len
  {
    assert 0.0 <= t * len as real <= len as real;
    if t < 1.0 {
      assert t * len as real < 1.0 * len as real;
    }
  }

  /** `select_variant`: panics on an empty list, otherwise returns the variant at the selected index. */
  function SelectVariant(v: StructureVariants, noise: real): (t: StructureTemplate)
    requires !v.IsEmpty()
    ensures t in v.variants
    ensures t == v.variants[SelectIndex(noise, v.Len())]
  {
    v.variants[SelectIndex(noise, v.Len())]
  }

  lemma NormalizedMonotone(a: real, b: real)
    requires a <= b
    ensures Normalized(a) <= Normalized(b)
  {
  }

  lemma FloorMonotone(a: real, b: real)
    requires a <= b
    ensures a.Floor <= b.Floor
  {
  }

  /** More noise never selects an earlier variant. */
  lemma SelectIndexMonotone(a: real, b: real, len: nat)
    requires len > 0 && a <= b
    ensures SelectIndex(a, len) <= SelectIndex(b, len)
  {
    NormalizedMonotone(a, b);
    FloorMonotone(Normalized(a) * len as real, Normalized(b) * len as real);
  }

  /** Noise -1 (or less) selects the first variant, noise 1 (or more) the last. */
  lemma SelectIndexEnds(noise: real, len: nat)
    requires len > 0
    ensures noise <= -1.0 ==> SelectIndex(noise, len) == 0
    ensures noise >= 1.0 ==> SelectIndex(noise, len) == len - 1
  {
  }

  /** With three variants, noise 0 selects the middle one. */
  lemma SelectMiddleOfThree()
    ensures SelectIndex(0.0, 3) == 1
  {
  }
}
