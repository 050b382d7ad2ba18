/**
 * A chunk: a 64x64 grid of pixels stored row-major (index y*64+x), an 8x8
 * coarse temperature and pressure grid, a `dirty` flag and the bounding box of
 * the pixels written since the box was last cleared.
 *
 * `ChunkState` is a chunk as a value (the world's chunk map owns chunks by
 * value); the class `Chunk` is the same chunk with its arrays written in place,
 * and each of its methods is specified by the value function of the same name.
 */
module Chunks {
  import opened Wrappers
  import opened Ints
  import Materials

  const CHUNK_SIZE: nat := 64
  const CHUNK_AREA: nat := 4096
  /** Cells in the coarse temperature and pressure grids (8x8). */
  const COARSE_CELLS: nat := 64

  const UPDATED: bv16 := 1
  const BURNING: bv16 := 2
  const FALLING: bv16 := 4

  /** Integer 2-vectors: chunk positions and world pixel positions. */
  datatype IVec2 = IVec2(x: int, y: int)

  datatype Pixel = Pixel(material: U16, flags: bv16)

  const Air: Pixel := Pixel(Materials.AIR, 0)

  /** `Pixel::new`: the given material with no flags. */
  function NewPixel(m: U16): Pixel { Pixel(m, 0) }

  predicate IsEmpty(p: Pixel) { p.material == Materials.AIR }

  datatype DirtyRect = DirtyRect(minX: nat, minY: nat, maxX: nat, maxY: nat)
  {
    predicate Contains(x: nat, y: nat) { minX <= x <= maxX && minY <= y <= maxY }

    /** Every point of `inner` lies in this rectangle. */
    predicate Covers(inner: DirtyRect)
    {
      minX <= inner.minX && inner.maxX <= maxX && minY <= inner.minY && inner.maxY <= maxY
    }

    /** The rectangle is well formed and lies inside the chunk. */
    predicate InChunk() { minX <= maxX < CHUNK_SIZE && minY <= maxY < CHUNK_SIZE }
  }

  function NewRect(x: nat, y: nat): DirtyRect { DirtyRect(x, y, x, y) }

  function MinNat(a: nat, b: nat): nat { if a <= b then a else b }
  function MaxNat(a: nat, b: nat): nat { if a >= b then a else b }

  /** `DirtyRect::expand`: the smallest rectangle holding `r` and the point. */
  function Expand(r: DirtyRect, x: nat, y: nat): DirtyRect
  {
    DirtyRect(MinNat(r.minX, x), MinNat(r.minY, y), MaxNat(r.maxX, x), MaxNat(r.maxY, y))
  }

  datatype ChunkData = ChunkData(
    x: int,
    y: int,
    pixels: seq<Pixel>,
    temperature: seq<real>,
    pressure: seq<real>,
    dirty: bool,
    dirtyRect: Option<DirtyRect>,
    simulationActive: bool)

  /** A chunk whose grids have their fixed sizes. */
  type ChunkState = c: ChunkData
    | |c.pixels| == CHUNK_AREA && |c.temperature| == COARSE_CELLS && |c.pressure| == COARSE_CELLS
    witness ChunkData(0, 0, seq(4096, _ => Air), seq(64, _ => 20.0), seq(64, _ => 1.0), false, None, false)

  /** The loaded chunks of a world, keyed by chunk position. */
  type ChunkMap = map<IVec2, ChunkState>

  predicate InChunk(x: int, y: int) { 0 <= x < CHUNK_SIZE && 0 <= y < CHUNK_SIZE }

  function Index(x: nat, y: nat): (i: nat)
    requires InChunk(x, y)
    ensures i < CHUNK_AREA
  {
    y * CHUNK_SIZE + x
  }

  /** Row-major indexing gives distinct cells distinct indices. */
  lemma IndexInjective(x1: nat, y1: nat, x2: nat, y2: nat)
    requires InChunk(x1, y1) && InChunk(x2, y2)
    ensures Index(x1, y1) == Index(x2, y2) <==> x1 == x2 && y1 == y2
  {
    if y1 < y2 {
      assert Index(x1, y1) < (y1 + 1) * 64 <= Index(x2, y2);
    } else if y2 < y1 {
      assert Index(x2, y2) < (y2 + 1) * 64 <= Index(x1, y1);
    }
  }

  /** `Chunk::new`. */
  function NewChunk(cx: int, cy: int): (c: ChunkState)
    ensures forall x: nat, y: nat | InChunk(x, y) :: PixelAt(c, x, y) == Air
    ensures forall i | 0 <= i < COARSE_CELLS :: c.temperature[i] == 20.0 && c.pressure[i] == 1.0
    ensures !c.dirty && c.dirtyRect == None && c.x == cx && c.y == cy
  {
    ChunkData(cx, cy, seq(CHUNK_AREA, _ => Air), seq(COARSE_CELLS, _ => 20.0), seq(COARSE_CELLS, _ => 1.0),
              false, None, false)
  }

  /** `Chunk::get_pixel`. */
  function PixelAt(c: ChunkState, x: nat, y: nat): Pixel
    requires InChunk(x, y)
  {
    c.pixels[Index(x, y)]
  }

  /** `Chunk::mark_dirty`. */
  function MarkDirty(c: ChunkState, x: nat, y: nat): (r: ChunkState)
    ensures r.pixels == c.pixels && r.temperature == c.temperature && r.pressure == c.pressure
    ensures r.dirty && r.dirtyRect.Some? && r.dirtyRect.value.Contains(x, y)
    ensures c.dirtyRect.Some? ==> r.dirtyRect.value.Covers(c.dirtyRect.value)
  {
    var rect := match c.dirtyRect
      case Some(old_rect) => Expand(old_rect, x, y)
      case None => NewRect(x, y);
    c.(dirty := true, dirtyRect := Some(rect))
  }

  /** `Chunk::set_pixel`: write one cell, then mark it dirty. */
  function WithPixel(c: ChunkState, x: nat, y: nat, p: Pixel): (r: ChunkState)
    requires InChunk(x, y)
  {
    MarkDirty(c.(pixels := c.pixels[Index(x, y) := p]), x, y)
  }

  /** `Chunk::set_material`. */
  function WithMaterial(c: ChunkState, x: nat, y: nat, m: U16): ChunkState
    requires InChunk(x, y)
  {
    WithPixel(c, x, y, NewPixel(m))
  }

  /** `Chunk::swap_pixels`: exchange two cells, then mark both dirty. */
  function Swapped(c: ChunkState, x1: nat, y1: nat, x2: nat, y2: nat): ChunkState
    requires InChunk(x1, y1) && InChunk(x2, y2)
  {
    var i1, i2 := Index(x1, y1), Index(x2, y2);
    var moved := c.(pixels := c.pixels[i1 := c.pixels[i2]][i2 := c.pixels[i1]]);
    MarkDirty(MarkDirty(moved, x1, y1), x2, y2)
  }

  /** `Chunk::clear_dirty_rect`. */
  function ClearedRect(c: ChunkState): ChunkState
  {
    c.(dirtyRect := None)
  }

  /** The flag word with the UPDATED bit cleared. */
  function WithoutUpdated(p: Pixel): Pixel
  {
    p.(flags := p.flags & !UPDATED)
  }

  /** `Chunk::clear_update_flags`. */
  function ClearedFlags(c: ChunkState): ChunkState
  {
    c.(pixels := seq(CHUNK_AREA, i requires 0 <= i < CHUNK_AREA => WithoutUpdated(c.pixels[i])))
  }

  function CoarseIndex(cx: nat, cy: nat): (i: nat)
    requires cx < 8 && cy < 8
    ensures i < COARSE_CELLS
  {
    cy * 8 + cx
  }

  /** `Chunk::get_temperature`. */
  function TemperatureAt(c: ChunkState, cx: nat, cy: nat): real
    requires cx < 8 && cy < 8
  {
    c.temperature[CoarseIndex(cx, cy)]
  }

  /** `Chunk::set_temperature`. */
  function WithTemperature(c: ChunkState, cx: nat, cy: nat, t: real): ChunkState
    requires cx < 8 && cy < 8
  {
    c.(temperature := c.temperature[CoarseIndex(cx, cy) := t])
  }

  // ---------------------------------------------------------------------
  // Properties of single writes

  /** Reading back a written cell gives the written pixel; every other cell is unchanged. */
  lemma SetThenGet(c: ChunkState, x: nat, y: nat, p: Pixel)
    requires InChunk(x, y)
    ensures PixelAt(WithPixel(c, x, y, p), x, y) == p
    ensures forall x2: nat, y2: nat | InChunk(x2, y2) && (x2 != x || y2 != y) ::
              PixelAt(WithPixel(c, x, y, p), x2, y2) == PixelAt(c, x2, y2)
    ensures WithPixel(c, x, y, p).temperature == c.temperature && WithPixel(c, x, y, p).pressure == c.pressure
  {
    forall x2: nat, y2: nat | InChunk(x2, y2) && (x2 != x || y2 != y)
      ensures PixelAt(WithPixel(c, x, y, p), x2, y2) == PixelAt(c, x2, y2)
    {
      IndexInjective(x, y, x2, y2);
    }
  }

  /** `swap_pixels` exchanges exactly the two addressed cells. */
  lemma SwapExchanges(c: ChunkState, x1: nat, y1: nat, x2: nat, y2: nat)
    requires InChunk(x1, y1) && InChunk(x2, y2)
    ensures PixelAt(Swapped(c, x1, y1, x2, y2), x1, y1) == PixelAt(c, x2, y2)
    ensures PixelAt(Swapped(c, x1, y1, x2, y2), x2, y2) == PixelAt(c, x1, y1)
    ensures forall x: nat, y: nat | InChunk(x, y) && (x != x1 || y != y1) && (x != x2 || y != y2) ::
              PixelAt(Swapped(c, x1, y1, x2, y2), x, y) == PixelAt(c, x, y)
    ensures multiset(Swapped(c, x1, y1, x2, y2).pixels) == multiset(c.pixels)
  {
    var i1, i2 := Index(x1, y1), Index(x2, y2);
    IndexInjective(x1, y1, x2, y2);
    forall x: nat, y: nat | InChunk(x, y) && (x != x1 || y != y1) && (x != x2 || y != y2)
      ensures PixelAt(Swapped(c, x1, y1, x2, y2), x, y) == PixelAt(c, x, y)
    {
      IndexInjective(x, y, x1, y1);
      IndexInjective(x, y, x2, y2);
    }
    var s := c.pixels;
    if i1 != i2 {
      SwapMultiset(s, i1, i2);
    } else {
      assert s[i1 := s[i2]][i2 := s[i1]] == s;
    }
  }

  lemma UpdateMultiset<T>(s: seq<T>, i: nat, v: T)
    requires i < |s|
    ensures multiset(s[i := v]) == multiset(s) - multiset{s[i]} + multiset{v}
  {
    assert s == s[..i] + [s[i]] + s[i + 1..];
    assert s[i := v] == s[..i] + [v] + s[i + 1..];
  }

  lemma SwapMultiset<T>(s: seq<T>, i: nat, j: nat)
    requires i < |s| && j < |s|
    ensures multiset(s[i := s[j]][j := s[i]]) == multiset(s)
  {
    if i != j {
      UpdateMultiset(s, i, s[j]);
      UpdateMultiset(s[i := s[j]], j, s[i]);
    }
  }

  lemma WithoutUpdatedKeepsRest(p: Pixel)
    ensures WithoutUpdated(p).material == p.material
    ensures WithoutUpdated(p).flags & UPDATED == 0
    ensures WithoutUpdated(p).flags | UPDATED == p.flags | UPDATED
  {
  }

  /** `clear_update_flags` clears only the UPDATED bit: materials and the other flag bits are kept. */
  lemma ClearedFlagsKeepsRest(c: ChunkState)
    ensures forall i | 0 <= i < CHUNK_AREA ::
              ClearedFlags(c).pixels[i].material == c.pixels[i].material
              && ClearedFlags(c).pixels[i].flags & UPDATED == 0
              && ClearedFlags(c).pixels[i].flags | UPDATED == c.pixels[i].flags | UPDATED
    ensures ClearedFlags(c).dirty == c.dirty && ClearedFlags(c).dirtyRect == c.dirtyRect
    ensures ClearedFlags(c).temperature == c.temperature
  {
    forall i | 0 <= i < CHUNK_AREA
      ensures ClearedFlags(c).pixels[i].material == c.pixels[i].material
      ensures ClearedFlags(c).pixels[i].flags & UPDATED == 0
      ensures ClearedFlags(c).pixels[i].flags | UPDATED == c.pixels[i].flags | UPDATED
    {
      assert ClearedFlags(c).pixels[i] == WithoutUpdated(c.pixels[i]);
      WithoutUpdatedKeepsRest(c.pixels[i]);
    }
  }

  /** `clear_dirty_rect` drops the rectangle and nothing else. */
  lemma ClearedRectKeepsRest(c: ChunkState)
    ensures ClearedRect(c).dirtyRect == None
    ensures ClearedRect(c).dirty == c.dirty && ClearedRect(c).pixels == c.pixels
    ensures ClearedRect(c).temperature == c.temperature && ClearedRect(c).pressure == c.pressure
  {
  }

  // ---------------------------------------------------------------------
  // The dirty rectangle over a sequence of writes

  datatype Write = SetCell(x: nat, y: nat, p: Pixel) | SwapCells(x1: nat, y1: nat, x2: nat, y2: nat)
  {
    predicate InBounds()
    {
      match this
      case SetCell(x, y, _) => x < CHUNK_SIZE && y < CHUNK_SIZE
      case SwapCells(x1, y1, x2, y2) => x1 < CHUNK_SIZE && y1 < CHUNK_SIZE && x2 < CHUNK_SIZE && y2 < CHUNK_SIZE
    }
  }

  predicate AllInChunk(ws: seq<Write>) { forall i | 0 <= i < |ws| :: ws[i].InBounds() }

  function ApplyWrites(c: ChunkState, ws: seq<Write>): ChunkState
    requires AllInChunk(ws)
    decreases |ws|
  {
    if ws == [] then c
    else
      var c1 := match ws[0]
        case SetCell(x, y, p) => WithPixel(c, x, y, p)
        case SwapCells(x1, y1, x2, y2) => Swapped(c, x1, y1, x2, y2);
      ApplyWrites(c1, ws[1..])
  }

  /** The coordinates the writes mark dirty, in order. */
  function Coords(ws: seq<Write>): seq<(nat, nat)>
    decreases |ws|
  {
    if ws == [] then []
    else
      var head := match ws[0]
        case SetCell(x, y, _) => [(x, y)]
        case SwapCells(x1, y1, x2, y2) => [(x1, y1), (x2, y2)];
      head + Coords(ws[1..])
  }

  /** The rectangle after marking every point of `ps` in order. */
  function MarkAll(r: Option<DirtyRect>, ps: seq<(nat, nat)>): Option<DirtyRect>
    decreases |ps|
  {
    if ps == [] then r
    else
      var r1 := match r
        case Some(old_rect) => Expand(old_rect, ps[0].0, ps[0].1)
        case None => NewRect(ps[0].0, ps[0].1);
      MarkAll(Some(r1), ps[1..])
  }

  /** The min/max bounding box of a non-empty list of points. */
  function BoundingBox(ps: seq<(nat, nat)>): (r: DirtyRect)
    requires ps != []
    ensures forall i | 0 <= i < |ps| :: r.Contains(ps[i].0, ps[i].1)
    ensures exists i | 0 <= i < |ps| :: r.minX == ps[i].0
    ensures exists i | 0 <= i < |ps| :: r.maxX == ps[i].0
    ensures exists i | 0 <= i < |ps| :: r.minY == ps[i].1
    ensures exists i | 0 <= i < |ps| :: r.maxY == ps[i].1
    decreases |ps|
  {
    if |ps| == 1 then NewRect(ps[0].0, ps[0].1)
    else
      var rest := BoundingBox(ps[1..]);
      assert forall i | 1 <= i < |ps| :: ps[i] == ps[1..][i - 1];
      var r := Expand(rest, ps[0].0, ps[0].1);
      assert r.minX == ps[0].0 || r.minX == rest.minX;
      r
  }

  lemma {:induction false} ApplyWritesRect(c: ChunkState, ws: seq<Write>)
    requires AllInChunk(ws)
    ensures ApplyWrites(c, ws).dirtyRect == MarkAll(c.dirtyRect, Coords(ws))
    ensures ws != [] ==> ApplyWrites(c, ws).dirty
    ensures ws == [] ==> ApplyWrites(c, ws) == c
    decreases |ws|
  {
    if ws != [] {
      var c1 := match ws[0]
        case SetCell(x, y, p) => WithPixel(c, x, y, p)
        case SwapCells(x1, y1, x2, y2) => Swapped(c, x1, y1, x2, y2);
      assert AllInChunk(ws[1..]) by {
        forall i | 0 <= i < |ws[1..]| ensures ws[1..][i].InBounds() { assert ws[1..][i] == ws[i + 1]; }
      }
      ApplyWritesRect(c1, ws[1..]);
      MarkAllAppend(c.dirtyRect, Coords([ws[0]]), Coords(ws[1..]));
      assert Coords(ws) == Coords([ws[0]]) + Coords(ws[1..]) by {
        assert [ws[0]][1..] == [];
      }
      if ws[1..] == [] {
        assert ApplyWrites(c, ws) == c1;
      }
    }
  }

  lemma {:induction false} MarkAllAppend(r: Option<DirtyRect>, a: seq<(nat, nat)>, b: seq<(nat, nat)>)
    ensures MarkAll(r, a + b) == MarkAll(MarkAll(r, a), b)
    decreases |a|
  {
    if a != [] {
      assert (a + b)[1..] == a[1..] + b;
      var r1 := match r
        case Some(old_rect) => Expand(old_rect, a[0].0, a[0].1)
        case None => NewRect(a[0].0, a[0].1);
      MarkAllAppend(Some(r1), a[1..], b);
    } else {
      assert a + b == b;
    }
  }

  /** Starting from no rectangle, marking a non-empty list of points yields exactly their bounding box. */
  lemma {:induction false} MarkAllIsBoundingBox(ps: seq<(nat, nat)>)
    requires ps != []
    ensures MarkAll(None, ps) == Some(BoundingBox(ps))
  {
    MarkAllFrom(NewRect(ps[0].0, ps[0].1), ps[1..]);
    BoundingBoxSplit(ps);
  }

  lemma {:induction false} MarkAllFrom(r: DirtyRect, ps: seq<(nat, nat)>)
    ensures ps == [] ==> MarkAll(Some(r), ps) == Some(r)
    ensures ps != [] ==> MarkAll(Some(r), ps) == Some(Union(r, BoundingBox(ps)))
    decreases |ps|
  {
    if ps != [] {
      var r1 := Expand(r, ps[0].0, ps[0].1);
      MarkAllFrom(r1, ps[1..]);
      if |ps| > 1 {
        BoundingBoxSplit(ps);
      }
    }
  }

  function Union(a: DirtyRect, b: DirtyRect): DirtyRect
  {
    DirtyRect(MinNat(a.minX, b.minX), MinNat(a.minY, b.minY), MaxNat(a.maxX, b.maxX), MaxNat(a.maxY, b.maxY))
  }

  lemma BoundingBoxSplit(ps: seq<(nat, nat)>)
    requires |ps| >= 1
    ensures |ps| == 1 ==> BoundingBox(ps) == NewRect(ps[0].0, ps[0].1)
    ensures |ps| > 1 ==> BoundingBox(ps) == Union(NewRect(ps[0].0, ps[0].1), BoundingBox(ps[1..]))
  {
  }

  /**
   * After writes following a `clear_dirty_rect`, the chunk is dirty and its
   * rectangle is the min/max bounding box of every coordinate written.
   */
  lemma DirtyRectIsBoundingBox(c: ChunkState, ws: seq<Write>)
    requires AllInChunk(ws) && ws != []
    ensures ApplyWrites(ClearedRect(c), ws).dirty
    ensures Coords(ws) != []
    ensures ApplyWrites(ClearedRect(c), ws).dirtyRect == Some(BoundingBox(Coords(ws)))
  {
    ApplyWritesRect(ClearedRect(c), ws);
    assert Coords(ws) != [] by {
      assert [ws[0]][1..] == [];
      assert |Coords(ws)| >= 1;
    }
    MarkAllIsBoundingBox(Coords(ws));
  }

  /** Marking in-chunk points keeps the rectangle inside the chunk with min <= max on both axes. */
  lemma MarkDirtyInChunk(c: ChunkState, x: nat, y: nat)
    requires InChunk(x, y)
    requires c.dirtyRect.Some? ==> c.dirtyRect.value.InChunk()
    ensures MarkDirty(c, x, y).dirtyRect.value.InChunk()
  {
  }

  // ---------------------------------------------------------------------
  // Deserialisation

  datatype DecodeError = MissingField(field: string) | InvalidLength(found: nat, expected: nat)

  /** The fields a serialised chunk may carry; a field absent from the input is `None`. */
  datatype RawChunk = RawChunk(
    x: Option<int>, y: Option<int>,
    pixels: Option<seq<Pixel>>, temperature: Option<seq<real>>, pressure: Option<seq<real>>)

  /** The chunk `Deserialize` impl: missing fields first, then the three length checks in order. */
  function Decode(raw: RawChunk): (r: Result<ChunkState, DecodeError>)
    ensures r.Ok? <==> raw.x.Some? && raw.y.Some? && raw.pixels.Some? && raw.temperature.Some?
                       && raw.pressure.Some? && |raw.pixels.value| == CHUNK_AREA
                       && |raw.temperature.value| == COARSE_CELLS && |raw.pressure.value| == COARSE_CELLS
    ensures r.Ok? ==> r.value.pixels == raw.pixels.value && r.value.temperature == raw.temperature.value
                      && r.value.pressure == raw.pressure.value
                      && r.value.x == raw.x.value && r.value.y == raw.y.value
                      && !r.value.dirty && r.value.dirtyRect == None
  {
    if raw.x.None? then Err(MissingField("x"))
    else if raw.y.None? then Err(MissingField("y"))
    else if raw.pixels.None? then Err(MissingField("pixels"))
    else if raw.temperature.None? then Err(MissingField("temperature"))
    else if raw.pressure.None? then Err(MissingField("pressure"))
    else if |raw.pixels.value| != CHUNK_AREA then Err(InvalidLength(|raw.pixels.value|, CHUNK_AREA))
    else if |raw.temperature.value| != COARSE_CELLS then Err(InvalidLength(|raw.temperature.value|, COARSE_CELLS))
    else if |raw.pressure.value| != COARSE_CELLS then Err(InvalidLength(|raw.pressure.value|, COARSE_CELLS))
    else
      var c: ChunkState := ChunkData(raw.x.value, raw.y.value, raw.pixels.value, raw.temperature.value,
                                     raw.pressure.value, false, None, false);
      Ok(c)
  }

  /** The chunk `Serialize` impl: coordinates and the three grids, not the dirty state. */
  function Encode(c: ChunkState): RawChunk
  {
    RawChunk(Some(c.x), Some(c.y), Some(c.pixels), Some(c.temperature), Some(c.pressure))
  }

  /** Decoding an encoded chunk restores its coordinates and grids, clean and with no rectangle. */
  lemma DecodeEncode(c: ChunkState)
    requires !c.simulationActive
    ensures Decode(Encode(c)).Ok? && Decode(Encode(c)).value == c.(dirty := false, dirtyRect := None)
  {
  }

  // ---------------------------------------------------------------------
  // The chunk with its arrays written in place

  class Chunk {
    var x: int
    var y: int
    const pixels: array<Pixel>
    const temperature: array<real>
    const pressure: array<real>
    var dirty: bool
    var dirtyRect: Option<DirtyRect>

    ghost predicate Valid()
      reads this
    {
      pixels.Length == CHUNK_AREA && temperature.Length == COARSE_CELLS && pressure.Length == COARSE_CELLS
      && temperature != pressure
    }

    /** The chunk as a value. */
    ghost function Value(): ChunkState
      reads this, pixels, temperature, pressure
      requires Valid()
    {
      ChunkData(x, y, pixels[..], temperature[..], pressure[..], dirty, dirtyRect, false)
    }

    constructor (cx: int, cy: int)
      ensures Valid() && Value() == NewChunk(cx, cy)
      ensures fresh(pixels) && fresh(temperature) && fresh(pressure)
    {
      x, y := cx, cy;
      pixels := new Pixel[CHUNK_AREA](_ => Air);
      temperature := new real[COARSE_CELLS](_ => 20.0);
      pressure := new real[COARSE_CELLS](_ => 1.0);
      dirty, dirtyRect := false, None;
      new;
      assert pixels[..] == seq(CHUNK_AREA, _ => Air);
      assert temperature[..] == seq(COARSE_CELLS, _ => 20.0);
      assert pressure[..] == seq(COARSE_CELLS, _ => 1.0);
    }

    method GetPixel(px: nat, py: nat) returns (p: Pixel)
      requires Valid() && InChunk(px, py)
      ensures p == PixelAt(Value(), px, py)
    {
      p := pixels[Index(px, py)];
    }

    method MarkDirtyAt(px: nat, py: nat)
      requires Valid()
      modifies this
      ensures Valid() && Value() == MarkDirty(old(Value()), px, py)
    {
      dirty := true;
      match dirtyRect {
        case Some(r) => dirtyRect := Some(Expand(r, px, py));
        case None => dirtyRect := Some(NewRect(px, py));
      }
    }

    method SetPixel(px: nat, py: nat, p: Pixel)
      requires Valid() && InChunk(px, py)
      modifies this, pixels
      ensures Valid() && Value() == WithPixel(old(Value()), px, py, p)
    {
      pixels[Index(px, py)] := p;
      MarkDirtyAt(px, py);
    }

    method SetMaterial(px: nat, py: nat, m: U16)
      requires Valid() && InChunk(px, py)
      modifies this, pixels
      ensures Valid() && Value() == WithMaterial(old(Value()), px, py, m)
    {
      SetPixel(px, py, NewPixel(m));
    }

    method SwapPixels(x1: nat, y1: nat, x2: nat, y2: nat)
      requires Valid() && InChunk(x1, y1) && InChunk(x2, y2)
      modifies this, pixels
      ensures Valid() && Value() == Swapped(old(Value()), x1, y1, x2, y2)
    {
      var i1, i2 := Index(x1, y1), Index(x2, y2);
      pixels[i1], pixels[i2] := pixels[i2], pixels[i1];
      MarkDirtyAt(x1, y1);
      MarkDirtyAt(x2, y2);
    }

    method ClearDirtyRect()
      requires Valid()
      modifies this
      ensures Valid() && Value() == ClearedRect(old(Value()))
    {
      dirtyRect := None;
    }

    method ClearUpdateFlags()
      requires Valid()
      modifies pixels
      ensures Valid() && Value() == ClearedFlags(old(Value()))
    {
      var i := 0;
      while i < CHUNK_AREA
        invariant 0 <= i <= CHUNK_AREA
        invariant forall k | 0 <= k < i :: pixels[k] == WithoutUpdated(old(pixels[k]))
        invariant forall k | i <= k < CHUNK_AREA :: pixels[k] == old(pixels[k])
      {
        pixels[i] := WithoutUpdated(pixels[i]);
        i := i + 1;
      }
    }

    method GetTemperature(cx: nat, cy: nat) returns (t: real)
      requires Valid() && cx < 8 && cy < 8
      ensures t == TemperatureAt(Value(), cx, cy)
    {
      t := temperature[CoarseIndex(cx, cy)];
    }

    method SetTemperature(cx: nat, cy: nat, t: real)
      requires Valid() && cx < 8 && cy < 8
      modifies temperature
      ensures Valid() && Value() == WithTemperature(old(Value()), cx, cy, t)
    {
      temperature[CoarseIndex(cx, cy)] := t;
    }
  }
}
