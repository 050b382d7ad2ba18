/**
 * The declarative level builder: a grid of chunk positions, a map of the
 * chunks built so far, and fills that write materials into them.
 *
 * Every fill writes fresh pixels of one material into a rectangle of local
 * cells, visiting rows bottom to top and cells left to right; a brush says
 * which material, if any, each cell receives. The builder keeps its chunks
 * as values; `ChunkBuilder` is the handle through which `in_chunk` edits one
 * of them.
 */
module LevelBuilding {
  import opened Wrappers
  import opened Ints
  import opened Chunks
  import opened WorldGrid
  import M = Materials
  import Worlds

  // ---------------------------------------------------------------------
  // Brushes and painting one chunk

  /** What a fill writes at a local cell: a material, or nothing. */
  type Brush = (nat, nat) -> Option<U16>

  /** Every cell receives `m`. */
  function Solid(m: U16): Brush
  {
    (x: nat, y: nat) => Some(m)
  }

  /** `ChunkBuilder::fill_circle`: cells with dx² + dy² ≤ r² receive `m`. */
  function Disc(cx: nat, cy: nat, radius: nat, m: U16): Brush
  {
    (x: nat, y: nat) =>
      var dx: int := x - cx;
      var dy: int := y - cy;
      if dx * dx + dy * dy <= radius * radius then Some(m) else None
  }

  /** `ChunkBuilder::fill_pattern`: the pattern's material, except that AIR leaves the cell alone. */
  function Pattern(f: (nat, nat) -> U16): Brush
  {
    (x: nat, y: nat) => if f(x, y) != M.AIR then Some(f(x, y)) else None
  }

  /** One cell: written only when it lies in the chunk and the brush gives a material. */
  function PaintCell(c: ChunkState, brush: Brush, x: nat, y: nat): ChunkState
  {
    if InChunk(x, y) && brush(x, y).Some? then WithMaterial(c, x, y, brush(x, y).value) else c
  }

  /** Cells x0 .. x0+n-1 of row y, left to right. */
  function PaintRow(c: ChunkState, brush: Brush, x0: nat, n: nat, y: nat): ChunkState
  {
    if n == 0 then c else PaintCell(PaintRow(c, brush, x0, n - 1, y), brush, x0 + n - 1, y)
  }

  /** Rows y0 .. y0+h-1, each over x0 .. x0+w-1, bottom to top. */
  function PaintRows(c: ChunkState, brush: Brush, x0: nat, w: nat, y0: nat, h: nat): ChunkState
  {
    if h == 0 then c else PaintRow(PaintRows(c, brush, x0, w, y0, h - 1), brush, x0, w, y0 + h - 1)
  }

  /** The length of the half-open range lo..hi, 0 when it is empty. */
  function Span(lo: nat, hi: nat): nat
  {
    if hi > lo then hi - lo else 0
  }

  /** The brush over the local rectangle [x0, x1) × [y0, y1). */
  function Paint(c: ChunkState, brush: Brush, x0: nat, x1: nat, y0: nat, y1: nat): ChunkState
  {
    PaintRows(c, brush, x0, Span(x0, x1), y0, Span(y0, y1))
  }

  /** The pixel a paint leaves at (i, j). */
  function Painted(c: ChunkState, brush: Brush, x0: nat, x1: nat, y0: nat, y1: nat, i: nat, j: nat): Pixel
    requires InChunk(i, j)
  {
    if x0 <= i < x1 && y0 <= j < y1 && brush(i, j).Some? then NewPixel(brush(i, j).value) else PixelAt(c, i, j)
  }

  lemma {:induction false} PaintRowPixels(c: ChunkState, brush: Brush, x0: nat, n: nat, y: nat)
    ensures forall i: nat, j: nat {:trigger PixelAt(PaintRow(c, brush, x0, n, y), i, j)} | InChunk(i, j) ::
              PixelAt(PaintRow(c, brush, x0, n, y), i, j)
              == if j == y && x0 <= i < x0 + n && brush(i, j).Some? then NewPixel(brush(i, j).value) else PixelAt(c, i, j)
    ensures PaintRow(c, brush, x0, n, y).x == c.x && PaintRow(c, brush, x0, n, y).y == c.y
    decreases n
  {
    if n > 0 {
      var prev := PaintRow(c, brush, x0, n - 1, y);
      PaintRowPixels(c, brush, x0, n - 1, y);
      if InChunk(x0 + n - 1, y) && brush(x0 + n - 1, y).Some? {
        SetThenGet(prev, x0 + n - 1, y, NewPixel(brush(x0 + n - 1, y).value));
      }
    }
  }

  lemma {:induction false} PaintRowsPixels(c: ChunkState, brush: Brush, x0: nat, w: nat, y0: nat, h: nat)
    ensures forall i: nat, j: nat {:trigger PixelAt(PaintRows(c, brush, x0, w, y0, h), i, j)} | InChunk(i, j) ::
              PixelAt(PaintRows(c, brush, x0, w, y0, h), i, j)
              == if y0 <= j < y0 + h && x0 <= i < x0 + w && brush(i, j).Some? then NewPixel(brush(i, j).value) else PixelAt(c, i, j)
    ensures PaintRows(c, brush, x0, w, y0, h).x == c.x && PaintRows(c, brush, x0, w, y0, h).y == c.y
    decreases h
  {
    if h > 0 {
      PaintRowsPixels(c, brush, x0, w, y0, h - 1);
      PaintRowPixels(PaintRows(c, brush, x0, w, y0, h - 1), brush, x0, w, y0 + h - 1);
    }
  }

  /**
   * A paint writes a fresh pixel of the brush's material exactly at the cells
   * of the rectangle where the brush gives one, leaves every other cell as it
   * was, and keeps the chunk's position.
   */
  lemma PaintPixels(c: ChunkState, brush: Brush, x0: nat, x1: nat, y0: nat, y1: nat)
    ensures forall i: nat, j: nat {:trigger PixelAt(Paint(c, brush, x0, x1, y0, y1), i, j)} | InChunk(i, j) ::
              PixelAt(Paint(c, brush, x0, x1, y0, y1), i, j) == Painted(c, brush, x0, x1, y0, y1, i, j)
    ensures Paint(c, brush, x0, x1, y0, y1).x == c.x && Paint(c, brush, x0, x1, y0, y1).y == c.y
  {
    PaintRowsPixels(c, brush, x0, Span(x0, x1), y0, Span(y0, y1));
  }

  /** The nested fill loops: for y in y0..y1, for x in x0..x1, paint the cell. */
  method PaintArea(c: ChunkState, brush: Brush, x0: nat, x1: nat, y0: nat, y1: nat) returns (r: ChunkState)
    ensures r == Paint(c, brush, x0, x1, y0, y1)
  {
    r := c;
    var y := y0;
    while y < y1
      invariant y0 <= y <= y0 + Span(y0, y1)
      invariant r == PaintRows(c, brush, x0, Span(x0, x1), y0, y - y0)
    {
      var x := x0;
      while x < x1
        invariant x0 <= x <= x0 + Span(x0, x1)
        invariant r == PaintRow(PaintRows(c, brush, x0, Span(x0, x1), y0, y - y0), brush, x0, x - x0, y)
      {
        var b := brush(x, y);
        if InChunk(x, y) && b.Some? {
          r := WithMaterial(r, x, y, b.value);
        }
        x := x + 1;
      }
      y := y + 1;
    }
  }

  /** `fill_rect` of the chunk builder: the rectangle's cells inside the chunk receive `m`; the rest are ignored. */
  lemma FillRectCells(c: ChunkState, x0: nat, x1: nat, y0: nat, y1: nat, m: U16, i: nat, j: nat)
    requires InChunk(i, j)
    ensures PixelAt(Paint(c, Solid(m), x0, x1, y0, y1), i, j)
            == if x0 <= i < x1 && y0 <= j < y1 then NewPixel(m) else PixelAt(c, i, j)
  {
    PaintPixels(c, Solid(m), x0, x1, y0, y1);
  }

  /** `fill_circle`: exactly the cells with dx² + dy² ≤ r² receive `m`. */
  lemma FillCircleCells(c: ChunkState, cx: nat, cy: nat, radius: nat, m: U16, i: nat, j: nat)
    requires InChunk(i, j)
    ensures PixelAt(Paint(c, Disc(cx, cy, radius, m), 0, CHUNK_SIZE, 0, CHUNK_SIZE), i, j)
            == if (i - cx) * (i - cx) + (j - cy) * (j - cy) <= radius * radius then NewPixel(m) else PixelAt(c, i, j)
  {
    PaintPixels(c, Disc(cx, cy, radius, m), 0, CHUNK_SIZE, 0, CHUNK_SIZE);
  }

  /** `fill_pattern`: a cell the pattern maps to AIR is left alone, so the fill never writes AIR. */
  lemma FillPatternCells(c: ChunkState, x0: nat, x1: nat, y0: nat, y1: nat, f: (nat, nat) -> U16, i: nat, j: nat)
    requires InChunk(i, j)
    ensures var p := PixelAt(Paint(c, Pattern(f), x0, x1, y0, y1), i, j);
            p == if x0 <= i < x1 && y0 <= j < y1 && f(i, j) != M.AIR then NewPixel(f(i, j)) else PixelAt(c, i, j)
    ensures PixelAt(Paint(c, Pattern(f), x0, x1, y0, y1), i, j) != PixelAt(c, i, j)
            ==> PixelAt(Paint(c, Pattern(f), x0, x1, y0, y1), i, j).material != M.AIR
  {
    PaintPixels(c, Pattern(f), x0, x1, y0, y1);
  }

  // ---------------------------------------------------------------------
  // The chunk builder handed to `in_chunk`

  /** One call made on the chunk builder inside an `in_chunk` closure. */
  datatype ChunkCommand =
    | SetCell(x: nat, y: nat, m: U16)
    | FillBox(x0: nat, x1: nat, y0: nat, y1: nat, m: U16)
    | FillDisc(cx: nat, cy: nat, radius: nat, m: U16)
    | FillWith(x0: nat, x1: nat, y0: nat, y1: nat, f: (nat, nat) -> U16)

  function RunCommand(c: ChunkState, cmd: ChunkCommand): ChunkState
  {
    match cmd
    case SetCell(x, y, m) => PaintCell(c, Solid(m), x, y)
    case FillBox(x0, x1, y0, y1, m) => Paint(c, Solid(m), x0, x1, y0, y1)
    case FillDisc(cx, cy, radius, m) => Paint(c, Disc(cx, cy, radius, m), 0, CHUNK_SIZE, 0, CHUNK_SIZE)
    case FillWith(x0, x1, y0, y1, f) => Paint(c, Pattern(f), x0, x1, y0, y1)
  }

  /** The commands in order. */
  function RunCommands(c: ChunkState, cmds: seq<ChunkCommand>): ChunkState
    decreases |cmds|
  {
    if cmds == [] then c else RunCommands(RunCommand(c, cmds[0]), cmds[1..])
  }

  /** A command edits pixels only: the chunk keeps its position. */
  lemma RunCommandKeepsPosition(c: ChunkState, cmd: ChunkCommand)
    ensures RunCommand(c, cmd).x == c.x && RunCommand(c, cmd).y == c.y
  {
    match cmd
    case SetCell(x, y, m) =>
      PaintRowPixels(c, Solid(m), x, 1, y);
      assert PaintCell(c, Solid(m), x, y) == PaintRow(c, Solid(m), x, 1, y);
    case FillBox(x0, x1, y0, y1, m) => PaintPixels(c, Solid(m), x0, x1, y0, y1);
    case FillDisc(cx, cy, radius, m) => PaintPixels(c, Disc(cx, cy, radius, m), 0, CHUNK_SIZE, 0, CHUNK_SIZE);
    case FillWith(x0, x1, y0, y1, f) => PaintPixels(c, Pattern(f), x0, x1, y0, y1);
  }

  lemma {:induction false} RunCommandsKeepsPosition(c: ChunkState, cmds: seq<ChunkCommand>)
    ensures RunCommands(c, cmds).x == c.x && RunCommands(c, cmds).y == c.y
    decreases |cmds|
  {
    if cmds != [] {
      RunCommandKeepsPosition(c, cmds[0]);
      RunCommandsKeepsPosition(RunCommand(c, cmds[0]), cmds[1..]);
    }
  }

  /** `ChunkBuilder`: the chunk being edited, one fill at a time. */
  class ChunkBuilder {
    var chunk: ChunkState

    constructor (c: ChunkState)
      ensures chunk == c
    {
      chunk := c;
    }

    /** `set_material`: coordinates outside the chunk are ignored. */
    method SetMaterial(x: nat, y: nat, m: U16)
      modifies this
      ensures chunk == PaintCell(old(chunk), Solid(m), x, y)
    {
      if x < CHUNK_SIZE && y < CHUNK_SIZE {
        chunk := WithMaterial(chunk, x, y, m);
      }
    }

    method FillRect(x0: nat, x1: nat, y0: nat, y1: nat, m: U16)
      modifies this
      ensures chunk == Paint(old(chunk), Solid(m), x0, x1, y0, y1)
    {
      chunk := PaintArea(chunk, Solid(m), x0, x1, y0, y1);
    }

    method FillCircle(cx: nat, cy: nat, radius: nat, m: U16)
      modifies this
      ensures chunk == Paint(old(chunk), Disc(cx, cy, radius, m), 0, CHUNK_SIZE, 0, CHUNK_SIZE)
    {
      chunk := PaintArea(chunk, Disc(cx, cy, radius, m), 0, CHUNK_SIZE, 0, CHUNK_SIZE);
    }

    method FillPattern(x0: nat, x1: nat, y0: nat, y1: nat, f: (nat, nat) -> U16)
      modifies this
      ensures chunk == Paint(old(chunk), Pattern(f), x0, x1, y0, y1)
    {
      chunk := PaintArea(chunk, Pattern(f), x0, x1, y0, y1);
    }

    /** The closure passed to `in_chunk`, as the calls it makes. */
    method Run(cmds: seq<ChunkCommand>)
      modifies this
      ensures chunk == RunCommands(old(chunk), cmds)
    {
      var k := 0;
      while k < |cmds|
        invariant k <= |cmds| && RunCommands(old(chunk), cmds) == RunCommands(chunk, cmds[k..])
        decreases |cmds| - k
      {
        assert cmds[k..][1..] == cmds[k + 1..];
        match cmds[k] {
          case SetCell(x, y, m) => SetMaterial(x, y, m);
          case FillBox(x0, x1, y0, y1, m) => FillRect(x0, x1, y0, y1, m);
          case FillDisc(cx, cy, radius, m) => FillCircle(cx, cy, radius, m);
          case FillWith(x0, x1, y0, y1, f) => FillPattern(x0, x1, y0, y1, f);
        }
        k := k + 1;
      }
    }
  }

  // ---------------------------------------------------------------------
  // Fills across the chunk grid

  /** The inclusive chunk ranges of `chunk_grid`. */
  datatype Grid = Grid(minCx: int, maxCx: int, minCy: int, maxCy: int)

  predicate InGrid(g: Grid, cp: IVec2)
  {
    g.minCx <= cp.x <= g.maxCx && g.minCy <= cp.y <= g.maxCy
  }

  /** The three fills that sweep the whole grid. */
  datatype GridFill =
    | Foundation
    | Layer(y0: nat, y1: nat, m: U16)
    | Rect(xs: int, xe: int, ys: int, ye: int, m: U16)

  function FillMaterial(op: GridFill): U16
  {
    match op
    case Foundation => M.BEDROCK
    case Layer(_, _, m) => m
    case Rect(_, _, _, _, m) => m
  }

  /** The fill visits the chunk at `cp`: `fill_rect` skips chunks its ranges do not overlap. */
  predicate Visits(op: GridFill, cp: IVec2)
  {
    match op
    case Rect(xs, xe, ys, ye, _) =>
      !(xe <= cp.x * 64 || xs >= cp.x * 64 + CHUNK_SIZE)
      && !(ye <= cp.y * 64 || ys >= cp.y * 64 + CHUNK_SIZE)
    case _ => true
  }

  /** `(start - base).max(0)`. */
  function LocalStart(start: int, base: int): nat
  {
    if start - base > 0 then start - base else 0
  }

  /** `(end - base).min(64)`, never below 0 for a visited chunk. */
  function LocalEnd(end: int, base: int): nat
  {
    if end - base >= CHUNK_SIZE then CHUNK_SIZE else if end - base > 0 then end - base else 0
  }

  /** What the fill does to one visited chunk. */
  function FillChunk(op: GridFill, cp: IVec2, c: ChunkState): ChunkState
  {
    var (x0, x1, y0, y1) := FillArea(op, cp);
    Paint(c, Solid(FillMaterial(op)), x0, x1, y0, y1)
  }

  /**
   * The local rectangle [x0, x1) × [y0, y1) a fill writes in chunk `cp`:
   * the whole of row -2 and the bottom 8 rows of row -1 for the foundation,
   * the layer's rows, or the rectangle's overlap with the chunk.
   */
  function FillArea(op: GridFill, cp: IVec2): (nat, nat, nat, nat)
  {
    match op
    case Foundation =>
      if cp.y == -2 then (0, CHUNK_SIZE, 0, CHUNK_SIZE)
      else if cp.y == -1 then (0, CHUNK_SIZE, 0, 8)
      else (0, 0, 0, 0)
    case Layer(y0, y1, _) => (0, CHUNK_SIZE, y0, y1)
    case Rect(xs, xe, ys, ye, _) =>
      (LocalStart(xs, cp.x * 64), LocalEnd(xe, cp.x * 64), LocalStart(ys, cp.y * 64), LocalEnd(ye, cp.y * 64))
  }

  /** The local cells of chunk `cp` that the fill sets. */
  predicate Covers(op: GridFill, cp: IVec2, x: nat, y: nat)
  {
    match op
    case Foundation => cp.y == -2 || (cp.y == -1 && y < 8)
    case Layer(y0, y1, _) => y0 <= y < y1
    case Rect(xs, xe, ys, ye, _) =>
      xs <= cp.x * 64 + x < xe && ys <= cp.y * 64 + y < ye
  }

  /** A fill sets exactly its covered cells to a fresh pixel of its material and keeps the chunk's position. */
  lemma FillChunkPixels(op: GridFill, cp: IVec2, c: ChunkState)
    ensures FillChunk(op, cp, c).x == c.x && FillChunk(op, cp, c).y == c.y
    ensures forall x: nat, y: nat {:trigger PixelAt(FillChunk(op, cp, c), x, y)} | InChunk(x, y) ::
              PixelAt(FillChunk(op, cp, c), x, y)
              == if Covers(op, cp, x, y) then NewPixel(FillMaterial(op)) else PixelAt(c, x, y)
  {
    var (x0, x1, y0, y1) := FillArea(op, cp);
    PaintPixels(c, Solid(FillMaterial(op)), x0, x1, y0, y1);
  }

  /** A chunk the fill skips has no covered cell. */
  lemma SkippedHasNoCover(op: GridFill, cp: IVec2, x: nat, y: nat)
    requires InChunk(x, y) && !Visits(op, cp)
    ensures !Covers(op, cp, x, y)
  {
  }

  /** The chunk at `cp`, or a new one. */
  function Base(chunks: ChunkMap, cp: IVec2): ChunkState
  {
    if cp in chunks then chunks[cp] else NewChunk(cp.x, cp.y)
  }

  /** `get_or_create_chunk`. */
  function GetOrCreate(chunks: ChunkMap, cp: IVec2): (r: ChunkMap)
  {
    if cp in chunks then chunks else chunks[cp := NewChunk(cp.x, cp.y)]
  }

  /** Getting or creating twice is getting or creating once. */
  lemma GetOrCreateIdempotent(chunks: ChunkMap, cp: IVec2)
    ensures GetOrCreate(GetOrCreate(chunks, cp), cp) == GetOrCreate(chunks, cp)
  {
  }

  /** The chunk stored at `cp`, if any. */
  function Lookup<T>(m: map<IVec2, T>, cp: IVec2): Option<T>
  {
    if cp in m then Some(m[cp]) else None
  }

  /*
   * A sweep is a fold over the grid's positions, row by row, bottom to top,
   * each row left to right. At each position a step either leaves the map
   * alone or stores there a value computed from what the position held. The
   * fold is stated over any stored type, so that what a fill does to a chunk
   * stays out of the reasoning about which positions it reaches.
   */

  /** One step of a sweep at `cp`. */
  function Step<T>(m: map<IVec2, T>, visits: IVec2 -> bool, fill: (IVec2, Option<T>) -> T, cp: IVec2): map<IVec2, T>
  {
    if visits(cp) then m[cp := fill(cp, Lookup(m, cp))] else m
  }

  /** The first n positions of row cy, left to right. */
  function RowFold<T>(m: map<IVec2, T>, g: Grid, visits: IVec2 -> bool, fill: (IVec2, Option<T>) -> T, cy: int, n: nat)
    : map<IVec2, T>
  {
    if n == 0 then m else Step(RowFold(m, g, visits, fill, cy, n - 1), visits, fill, IVec2(g.minCx + n - 1, cy))
  }

  function Width(g: Grid): nat { if g.maxCx >= g.minCx then g.maxCx - g.minCx + 1 else 0 }
  function Height(g: Grid): nat { if g.maxCy >= g.minCy then g.maxCy - g.minCy + 1 else 0 }

  /** The first k rows of the grid, bottom to top. */
  function GridFold<T>(m: map<IVec2, T>, g: Grid, visits: IVec2 -> bool, fill: (IVec2, Option<T>) -> T, k: nat)
    : map<IVec2, T>
  {
    if k == 0 then m else RowFold(GridFold(m, g, visits, fill, k - 1), g, visits, fill, g.minCy + k - 1, Width(g))
  }

  lemma StepAt<T>(m: map<IVec2, T>, visits: IVec2 -> bool, fill: (IVec2, Option<T>) -> T, here: IVec2, cp: IVec2)
    ensures Lookup(Step(m, visits, fill, here), cp)
            == if cp == here && visits(here) then Some(fill(here, Lookup(m, here))) else Lookup(m, cp)
  {
  }

  /** A row fold leaves the positions it has not reached as they were. */
  lemma {:induction false} RowFoldOutside<T>(m: map<IVec2, T>, g: Grid, visits: IVec2 -> bool,
                                             fill: (IVec2, Option<T>) -> T, cy: int, n: nat, cp: IVec2)
    requires !(cp.y == cy && g.minCx <= cp.x < g.minCx + n)
    ensures Lookup(RowFold(m, g, visits, fill, cy, n), cp) == Lookup(m, cp)
  {
    if n > 0 {
      RowFoldOutside(m, g, visits, fill, cy, n - 1, cp);
      StepAt(RowFold(m, g, visits, fill, cy, n - 1), visits, fill, IVec2(g.minCx + n - 1, cy), cp);
    }
  }

  /** A row fold steps each position it has reached once, from what the position held before the fold. */
  lemma {:induction false} RowFoldInside<T>(m: map<IVec2, T>, g: Grid, visits: IVec2 -> bool,
                                            fill: (IVec2, Option<T>) -> T, cy: int, n: nat, cp: IVec2)
    requires cp.y == cy && g.minCx <= cp.x < g.minCx + n
    ensures Lookup(RowFold(m, g, visits, fill, cy, n), cp)
            == if visits(cp) then Some(fill(cp, Lookup(m, cp))) else Lookup(m, cp)
  {
    var prev := RowFold(m, g, visits, fill, cy, n - 1);
    var here := IVec2(g.minCx + n - 1, cy);
    if cp == here {
      RowFoldOutside(m, g, visits, fill, cy, n - 1, cp);
    } else {
      RowFoldInside(m, g, visits, fill, cy, n - 1, cp);
    }
    StepAt(prev, visits, fill, here, cp);
  }

  /** A grid fold leaves the positions outside its first k rows as they were. */
  lemma {:induction false} GridFoldOutside<T>(m: map<IVec2, T>, g: Grid, visits: IVec2 -> bool,
                                              fill: (IVec2, Option<T>) -> T, k: nat, cp: IVec2)
    requires k <= Height(g) && !(InGrid(g, cp) && cp.y < g.minCy + k)
    ensures Lookup(GridFold(m, g, visits, fill, k), cp) == Lookup(m, cp)
  {
    if k > 0 {
      GridFoldOutside(m, g, visits, fill, k - 1, cp);
      RowFoldOutside(GridFold(m, g, visits, fill, k - 1), g, visits, fill, g.minCy + k - 1, Width(g), cp);
    }
  }

  /** A grid fold steps each grid position of its first k rows once, from what the position held before the fold. */
  lemma {:induction false} GridFoldInside<T>(m: map<IVec2, T>, g: Grid, visits: IVec2 -> bool,
                                             fill: (IVec2, Option<T>) -> T, k: nat, cp: IVec2)
    requires InGrid(g, cp) && cp.y < g.minCy + k
    ensures Lookup(GridFold(m, g, visits, fill, k), cp)
            == if visits(cp) then Some(fill(cp, Lookup(m, cp))) else Lookup(m, cp)
  {
    var prev := GridFold(m, g, visits, fill, k - 1);
    var row := g.minCy + k - 1;
    if cp.y == row {
      GridFoldOutside(m, g, visits, fill, k - 1, cp);
      RowFoldInside(prev, g, visits, fill, row, Width(g), cp);
    } else {
      GridFoldInside(m, g, visits, fill, k - 1, cp);
      RowFoldOutside(prev, g, visits, fill, row, Width(g), cp);
    }
  }

  /** Which chunks a fill visits. */
  function Visitor(op: GridFill): IVec2 -> bool
  {
    cp => Visits(op, cp)
  }

  /** A visited chunk is got or created, then filled. */
  function Refill(op: GridFill): (IVec2, Option<ChunkState>) -> ChunkState
  {
    (cp: IVec2, found: Option<ChunkState>) => FillChunk(op, cp, if found.Some? then found.value else NewChunk(cp.x, cp.y))
  }

  /** The loop body of a sweep at `cp`. */
  function Visit(m: ChunkMap, op: GridFill, cp: IVec2): ChunkMap
  {
    Step(m, Visitor(op), Refill(op), cp)
  }

  /** The first n chunks of row cy, left to right. */
  function RowSweep(m: ChunkMap, g: Grid, op: GridFill, cy: int, n: nat): ChunkMap
  {
    RowFold(m, g, Visitor(op), Refill(op), cy, n)
  }

  /** The first k rows of the grid, bottom to top. */
  function GridSweep(m: ChunkMap, g: Grid, op: GridFill, k: nat): ChunkMap
  {
    GridFold(m, g, Visitor(op), Refill(op), k)
  }

  lemma BaseOfLookup(a: ChunkMap, b: ChunkMap, cp: IVec2)
    requires Lookup(a, cp) == Lookup(b, cp)
    ensures Base(a, cp) == Base(b, cp)
  {
  }

  /** A visit is `get_or_create_chunk` followed by the fill, at a visited chunk only. */
  lemma VisitGetsOrCreates(m: ChunkMap, op: GridFill, cp: IVec2)
    ensures Visit(m, op, cp)
            == if Visits(op, cp) then GetOrCreate(m, cp)[cp := FillChunk(op, cp, Base(m, cp))] else m
  {
  }

  /** After sweeping k rows, a chunk holds its fill exactly when it is a visited chunk of those rows. */
  lemma GridSweepAt(m: ChunkMap, g: Grid, op: GridFill, k: nat, cp: IVec2)
    requires k <= Height(g)
    ensures Lookup(GridSweep(m, g, op, k), cp)
            == if InGrid(g, cp) && cp.y < g.minCy + k && Visits(op, cp) then Some(FillChunk(op, cp, Base(m, cp)))
               else Lookup(m, cp)
  {
    if InGrid(g, cp) && cp.y < g.minCy + k {
      GridFoldInside(m, g, Visitor(op), Refill(op), k, cp);
    } else {
      GridFoldOutside(m, g, Visitor(op), Refill(op), k, cp);
    }
  }

  /**
   * The whole grid swept: the visited grid chunks are created if needed and
   * filled, no other chunk is created, and every other chunk is as it was.
   */
  ghost predicate Filled(before: ChunkMap, after: ChunkMap, g: Grid, op: GridFill)
  {
    (forall cp | cp in after :: cp in before || (InGrid(g, cp) && Visits(op, cp)))
    && (forall cp | InGrid(g, cp) && Visits(op, cp) :: cp in after && after[cp] == FillChunk(op, cp, Base(before, cp)))
    && (forall cp | cp in before && !(InGrid(g, cp) && Visits(op, cp)) :: cp in after && after[cp] == before[cp])
  }

  /** Sweeping every row of the grid fills the visited grid chunks and nothing else. */
  lemma GridSweepFilled(m: ChunkMap, g: Grid, op: GridFill)
    ensures Filled(m, GridSweep(m, g, op, Height(g)), g, op)
  {
    var r := GridSweep(m, g, op, Height(g));
    forall cp ensures Lookup(r, cp) == if InGrid(g, cp) && Visits(op, cp) then Some(FillChunk(op, cp, Base(m, cp))) else Lookup(m, cp)
    {
      GridSweepAt(m, g, op, Height(g), cp);
    }
  }

  /** One visited chunk, as the loop body does it. */
  method FillOne(op: GridFill, cp: IVec2, c: ChunkState) returns (r: ChunkState)
    ensures r == FillChunk(op, cp, c)
  {
    var (x0, x1, y0, y1) := FillArea(op, cp);
    r := PaintArea(c, Solid(FillMaterial(op)), x0, x1, y0, y1);
  }

  /** The loop body of the sweep at `cp`. */
  method VisitOne(m: ChunkMap, op: GridFill, cp: IVec2) returns (r: ChunkMap)
    ensures r == Visit(m, op, cp)
  {
    r := m;
    if Visits(op, cp) {
      r := GetOrCreate(r, cp);
      var c := FillOne(op, cp, r[cp]);
      r := r[cp := c];
    }
  }

  lemma RowSweepNext(m: ChunkMap, g: Grid, op: GridFill, cy: int, n: nat)
    ensures RowSweep(m, g, op, cy, n + 1) == Visit(RowSweep(m, g, op, cy, n), op, IVec2(g.minCx + n, cy))
  {
  }

  /** One row of the sweep: for cx in the grid's columns, fill the visited chunk. */
  method SweepRow(m: ChunkMap, g: Grid, op: GridFill, cy: int) returns (r: ChunkMap)
    ensures r == RowSweep(m, g, op, cy, Width(g))
  {
    r := m;
    var n := 0;
    while n < Width(g)
      invariant n <= Width(g) && r == RowSweep(m, g, op, cy, n)
    {
      RowSweepNext(m, g, op, cy, n);
      r := VisitOne(r, op, IVec2(g.minCx + n, cy));
      n := n + 1;
    }
  }

  /** The sweep: for cy in the grid's rows, sweep the row. */
  method Sweep(chunks: ChunkMap, g: Grid, op: GridFill) returns (r: ChunkMap)
    ensures r == GridSweep(chunks, g, op, Height(g))
  {
    r := chunks;
    var k := 0;
    while k < Height(g)
      invariant k <= Height(g) && r == GridSweep(chunks, g, op, k)
    {
      r := SweepRow(r, g, op, g.minCy + k);
      k := k + 1;
    }
  }

  // ---------------------------------------------------------------------
  // Fills seen through world coordinates

  /** Every chunk is stored under its own position. */
  predicate Keyed(m: ChunkMap)
  {
    forall cp | cp in m :: m[cp].x == cp.x && m[cp].y == cp.y
  }

  /** A sweep keeps every chunk under its own position. */
  lemma SweepKeyed(m: ChunkMap, g: Grid, op: GridFill)
    requires Keyed(m)
    ensures Keyed(GridSweep(m, g, op, Height(g)))
  {
    var r := GridSweep(m, g, op, Height(g));
    forall cp | cp in r
      ensures r[cp].x == cp.x && r[cp].y == cp.y
    {
      GridSweepAt(m, g, op, Height(g), cp);
      if InGrid(g, cp) && Visits(op, cp) {
        FillChunkPixels(op, cp, Base(m, cp));
      }
    }
  }

  /**
   * The pixel at a world position after a sweep: a covered cell of a grid
   * chunk holds a fresh pixel of the fill's material, an uncovered cell of a
   * visited chunk is as it was (or air, in a chunk the sweep created), and
   * chunks the sweep does not visit are untouched.
   */
  lemma SweepLook(m: ChunkMap, g: Grid, op: GridFill, wx: int, wy: int)
    ensures var (cp, lx, ly) := WorldToChunkCoords(wx, wy);
            GetPixel(GridSweep(m, g, op, Height(g)), wx, wy)
            == if InGrid(g, cp) && Visits(op, cp)
               then Some(if Covers(op, cp, lx, ly) then NewPixel(FillMaterial(op)) else PixelAt(Base(m, cp), lx, ly))
               else GetPixel(m, wx, wy)
  {
    var (cp, lx, ly) := WorldToChunkCoords(wx, wy);
    GridSweepAt(m, g, op, Height(g), cp);
    if InGrid(g, cp) && Visits(op, cp) {
      FillChunkPixels(op, cp, Base(m, cp));
    }
  }

  /** The world rectangle [xs, xe) × [ys, ye). */
  predicate InRect(xs: int, xe: int, ys: int, ye: int, wx: int, wy: int)
  {
    xs <= wx < xe && ys <= wy < ye
  }

  /** A sweep never unloads a chunk. */
  lemma SweepKeepsLoaded(m: ChunkMap, g: Grid, op: GridFill, cp: IVec2)
    requires cp in m
    ensures cp in GridSweep(m, g, op, Height(g))
  {
    GridSweepAt(m, g, op, Height(g), cp);
  }

  /** `fill_rect` in world coordinates: inside the rectangle, within the grid, every pixel is the material. */
  lemma RectWrites(m: ChunkMap, g: Grid, xs: int, xe: int, ys: int, ye: int, mat: U16, wx: int, wy: int)
    requires InGrid(g, WorldToChunkCoords(wx, wy).0) && InRect(xs, xe, ys, ye, wx, wy)
    ensures GetPixel(GridSweep(m, g, Rect(xs, xe, ys, ye, mat), Height(g)), wx, wy) == Some(NewPixel(mat))
  {
    SweepLook(m, g, Rect(xs, xe, ys, ye, mat), wx, wy);
  }

  /** `fill_rect` in world coordinates: outside the rectangle, a loaded chunk stays loaded and keeps its pixel. */
  lemma RectKeeps(m: ChunkMap, g: Grid, xs: int, xe: int, ys: int, ye: int, mat: U16, wx: int, wy: int)
    requires !InRect(xs, xe, ys, ye, wx, wy) && WorldToChunkCoords(wx, wy).0 in m
    ensures GetPixel(GridSweep(m, g, Rect(xs, xe, ys, ye, mat), Height(g)), wx, wy) == GetPixel(m, wx, wy)
  {
    SweepLook(m, g, Rect(xs, xe, ys, ye, mat), wx, wy);
    SweepKeepsLoaded(m, g, Rect(xs, xe, ys, ye, mat), WorldToChunkCoords(wx, wy).0);
  }

  /** `bedrock_foundation` in world coordinates: rows -128 to -57 of the grid are bedrock. */
  lemma FoundationLook(m: ChunkMap, g: Grid, wx: int, wy: int)
    requires -128 <= wy < -56 && InGrid(g, WorldToChunkCoords(wx, wy).0)
    ensures GetPixel(GridSweep(m, g, Foundation, Height(g)), wx, wy) == Some(NewPixel(M.BEDROCK))
  {
    SweepLook(m, g, Foundation, wx, wy);
  }

  /** `fill_layer`: the local rows y0..y1 of every grid chunk hold the material. */
  lemma LayerLook(m: ChunkMap, g: Grid, y0: nat, y1: nat, mat: U16, wx: int, wy: int)
    requires InGrid(g, WorldToChunkCoords(wx, wy).0) && y0 <= WorldToChunkCoords(wx, wy).2 < y1
    ensures GetPixel(GridSweep(m, g, Layer(y0, y1, mat), Height(g)), wx, wy) == Some(NewPixel(mat))
  {
    SweepLook(m, g, Layer(y0, y1, mat), wx, wy);
  }

  // ---------------------------------------------------------------------
  // Shapes built from several fills

  /** Fills applied one after another, first to last. */
  function Fills(m: ChunkMap, g: Grid, ops: seq<GridFill>): ChunkMap
    decreases |ops|
  {
    if |ops| == 0 then m else Fills(GridSweep(m, g, ops[0], Height(g)), g, ops[1..])
  }

  /** The pixel a local cell of `cp` ends with: the material of the last fill covering it, else `p`. */
  function Layered(g: Grid, ops: seq<GridFill>, cp: IVec2, x: nat, y: nat, p: Pixel): Pixel
    decreases |ops|
  {
    if |ops| == 0 then p
    else Layered(g, ops[1..], cp, x, y, if InGrid(g, cp) && Covers(ops[0], cp, x, y) then NewPixel(FillMaterial(ops[0])) else p)
  }

  /** One more fill at the end is one more sweep. */
  lemma {:induction false} FillsSnoc(m: ChunkMap, g: Grid, ops: seq<GridFill>, op: GridFill)
    ensures Fills(m, g, ops + [op]) == GridSweep(Fills(m, g, ops), g, op, Height(g))
    decreases |ops|
  {
    if |ops| == 0 {
      assert (ops + [op])[1..] == [];
    } else {
      assert (ops + [op])[1..] == ops[1..] + [op];
      FillsSnoc(GridSweep(m, g, ops[0], Height(g)), g, ops[1..], op);
    }
  }

  /** A sweep, seen at one local cell of `cp`, of the chunk there or the fresh chunk that would replace it. */
  lemma SweepBase(m: ChunkMap, g: Grid, op: GridFill, cp: IVec2, x: nat, y: nat)
    requires InChunk(x, y)
    ensures PixelAt(Base(GridSweep(m, g, op, Height(g)), cp), x, y)
            == if InGrid(g, cp) && Covers(op, cp, x, y) then NewPixel(FillMaterial(op)) else PixelAt(Base(m, cp), x, y)
  {
    GridSweepAt(m, g, op, Height(g), cp);
    if InGrid(g, cp) && Visits(op, cp) {
      FillChunkPixels(op, cp, Base(m, cp));
    } else {
      BaseOfLookup(GridSweep(m, g, op, Height(g)), m, cp);
      if !Visits(op, cp) {
        SkippedHasNoCover(op, cp, x, y);
      }
    }
  }

  /** After a sequence of fills, every cell holds the material of the last fill covering it. */
  lemma {:induction false} FillsAt(m: ChunkMap, g: Grid, ops: seq<GridFill>, cp: IVec2, x: nat, y: nat)
    requires InChunk(x, y)
    ensures PixelAt(Base(Fills(m, g, ops), cp), x, y) == Layered(g, ops, cp, x, y, PixelAt(Base(m, cp), x, y))
    decreases |ops|
  {
    if |ops| > 0 {
      SweepBase(m, g, ops[0], cp, x, y);
      FillsAt(GridSweep(m, g, ops[0], Height(g)), g, ops[1..], cp, x, y);
    }
  }

  /** Fills never unload a chunk. */
  lemma {:induction false} FillsKeepLoaded(m: ChunkMap, g: Grid, ops: seq<GridFill>, cp: IVec2)
    requires cp in m
    ensures cp in Fills(m, g, ops)
    decreases |ops|
  {
    if |ops| > 0 {
      SweepKeepsLoaded(m, g, ops[0], cp);
      FillsKeepLoaded(GridSweep(m, g, ops[0], Height(g)), g, ops[1..], cp);
    }
  }

  /** A grid chunk some fill covers is loaded afterwards. */
  lemma {:induction false} FillsLoadCovered(m: ChunkMap, g: Grid, ops: seq<GridFill>, cp: IVec2, x: nat, y: nat, k: nat)
    requires InChunk(x, y) && InGrid(g, cp) && k < |ops| && Covers(ops[k], cp, x, y)
    ensures cp in Fills(m, g, ops)
    decreases |ops|
  {
    var next := GridSweep(m, g, ops[0], Height(g));
    if k == 0 {
      if !Visits(ops[0], cp) {
        SkippedHasNoCover(ops[0], cp, x, y);
      }
      GridSweepAt(m, g, ops[0], Height(g), cp);
      FillsKeepLoaded(next, g, ops[1..], cp);
    } else {
      FillsLoadCovered(next, g, ops[1..], cp, x, y, k - 1);
    }
  }

  /** Fills of one material: a covered cell holds it, any other cell keeps `p`. */
  lemma {:induction false} LayeredSolid(g: Grid, ops: seq<GridFill>, cp: IVec2, x: nat, y: nat, p: Pixel, mat: U16)
    requires forall k | 0 <= k < |ops| :: FillMaterial(ops[k]) == mat
    ensures Layered(g, ops, cp, x, y, p)
            == if InGrid(g, cp) && exists k | 0 <= k < |ops| :: Covers(ops[k], cp, x, y) then NewPixel(mat) else p
    decreases |ops|
  {
    if |ops| > 0 {
      var q := if InGrid(g, cp) && Covers(ops[0], cp, x, y) then NewPixel(mat) else p;
      LayeredSolid(g, ops[1..], cp, x, y, q, mat);
      if InGrid(g, cp) && exists k | 0 <= k < |ops| :: Covers(ops[k], cp, x, y) {
        var k :| 0 <= k < |ops| && Covers(ops[k], cp, x, y);
        if k > 0 {
          assert Covers(ops[1..][k - 1], cp, x, y);
        }
      } else if InGrid(g, cp) {
        assert forall k | 0 <= k < |ops[1..]| :: ops[1..][k] == ops[k + 1];
      }
    }
  }

  /**
   * What `get_pixel` sees after a sequence of fills: at a loaded cell, or one
   * a fill covers within the grid, the material of the last fill covering it,
   * else the pixel that was there (air in a chunk the fills created).
   */
  lemma FillsLook(m: ChunkMap, g: Grid, ops: seq<GridFill>, wx: int, wy: int)
    ensures var (cp, x, y) := WorldToChunkCoords(wx, wy);
            (cp in m || (InGrid(g, cp) && exists k | 0 <= k < |ops| :: Covers(ops[k], cp, x, y)))
            ==> GetPixel(Fills(m, g, ops), wx, wy) == Some(Layered(g, ops, cp, x, y, PixelAt(Base(m, cp), x, y)))
  {
    var (cp, x, y) := WorldToChunkCoords(wx, wy);
    FillsAt(m, g, ops, cp, x, y);
    if cp in m {
      FillsKeepLoaded(m, g, ops, cp);
    } else if InGrid(g, cp) && exists k | 0 <= k < |ops| :: Covers(ops[k], cp, x, y) {
      var k :| 0 <= k < |ops| && Covers(ops[k], cp, x, y);
      FillsLoadCovered(m, g, ops, cp, x, y, k);
    }
  }

  /** A rectangle fill covers a cell exactly when the cell's world position lies in the rectangle. */
  lemma RectCovers(xs: int, xe: int, ys: int, ye: int, mat: U16, wx: int, wy: int)
    ensures var (cp, x, y) := WorldToChunkCoords(wx, wy);
            Covers(Rect(xs, xe, ys, ye, mat), cp, x, y) <==> InRect(xs, xe, ys, ye, wx, wy)
  {
  }

  /** `chamber`: floor, ceiling, left wall and right wall, in that order. */
  function ChamberOps(xs: int, xe: int, ys: int, ye: int, t: nat, mat: U16): (r: seq<GridFill>)
    ensures |r| == 4 && forall k | 0 <= k < 4 :: FillMaterial(r[k]) == mat
  {
    [Rect(xs, xe, ys, ys + t, mat), Rect(xs, xe, ye - t, ye, mat),
     Rect(xs, xs + t, ys, ye, mat), Rect(xe - t, xe, ys, ye, mat)]
  }

  /** Building a chamber is four rectangle sweeps, in order. */
  lemma ChamberSteps(m: ChunkMap, floor: ChunkMap, ceiling: ChunkMap, left: ChunkMap, right: ChunkMap, g: Grid,
                      xs: int, xe: int, ys: int, ye: int, t: nat, mat: U16)
    requires floor == GridSweep(m, g, Rect(xs, xe, ys, ys + t, mat), Height(g))
    requires ceiling == GridSweep(floor, g, Rect(xs, xe, ye - t, ye, mat), Height(g))
    requires left == GridSweep(ceiling, g, Rect(xs, xs + t, ys, ye, mat), Height(g))
    requires right == GridSweep(left, g, Rect(xe - t, xe, ys, ye, mat), Height(g))
    ensures Fills(m, g, ChamberOps(xs, xe, ys, ye, t, mat)) == right
  {
    var ops := ChamberOps(xs, xe, ys, ye, t, mat);
    assert ops[1..][1..][1..][1..] == [];
    assert Fills(left, g, ops[1..][1..][1..]) == Fills(right, g, []);
    assert Fills(ceiling, g, ops[1..][1..]) == Fills(left, g, ops[1..][1..][1..]);
    assert Fills(floor, g, ops[1..]) == Fills(ceiling, g, ops[1..][1..]);
  }

  /** The cells of the chamber's four walls. */
  predicate InWalls(xs: int, xe: int, ys: int, ye: int, t: nat, wx: int, wy: int)
  {
    InRect(xs, xe, ys, ys + t, wx, wy) || InRect(xs, xe, ye - t, ye, wx, wy)
    || InRect(xs, xs + t, ys, ye, wx, wy) || InRect(xe - t, xe, ys, ye, wx, wy)
  }

  /** A chamber's fills cover a cell exactly when it lies in one of its walls. */
  lemma ChamberCovers(xs: int, xe: int, ys: int, ye: int, t: nat, mat: U16, wx: int, wy: int)
    ensures var (cp, x, y) := WorldToChunkCoords(wx, wy);
            var ops := ChamberOps(xs, xe, ys, ye, t, mat);
            (exists k | 0 <= k < |ops| :: Covers(ops[k], cp, x, y)) <==> InWalls(xs, xe, ys, ye, t, wx, wy)
  {
    var (cp, x, y) := WorldToChunkCoords(wx, wy);
    var ops := ChamberOps(xs, xe, ys, ye, t, mat);
    RectCovers(xs, xe, ys, ys + t, mat, wx, wy);
    RectCovers(xs, xe, ye - t, ye, mat, wx, wy);
    RectCovers(xs, xs + t, ys, ye, mat, wx, wy);
    RectCovers(xe - t, xe, ys, ye, mat, wx, wy);
    if InWalls(xs, xe, ys, ye, t, wx, wy) {
      if InRect(xs, xe, ys, ys + t, wx, wy) {
        assert Covers(ops[0], cp, x, y);
      } else if InRect(xs, xe, ye - t, ye, wx, wy) {
        assert Covers(ops[1], cp, x, y);
      } else if InRect(xs, xs + t, ys, ye, wx, wy) {
        assert Covers(ops[2], cp, x, y);
      } else {
        assert Covers(ops[3], cp, x, y);
      }
    }
  }

  /**
   * The chamber's walls, within the grid, are the wall material, and a
   * loaded cell off the walls (the hollow inside among them) is untouched.
   */
  lemma ChamberLook(m: ChunkMap, g: Grid, xs: int, xe: int, ys: int, ye: int, t: nat, mat: U16, wx: int, wy: int)
    ensures var r := Fills(m, g, ChamberOps(xs, xe, ys, ye, t, mat));
            var cp := WorldToChunkCoords(wx, wy).0;
            && (InGrid(g, cp) && InWalls(xs, xe, ys, ye, t, wx, wy) ==> GetPixel(r, wx, wy) == Some(NewPixel(mat)))
            && (!InWalls(xs, xe, ys, ye, t, wx, wy) && cp in m ==> GetPixel(r, wx, wy) == GetPixel(m, wx, wy))
  {
    var (cp, x, y) := WorldToChunkCoords(wx, wy);
    var ops := ChamberOps(xs, xe, ys, ye, t, mat);
    ChamberCovers(xs, xe, ys, ye, t, mat, wx, wy);
    LayeredSolid(g, ops, cp, x, y, PixelAt(Base(m, cp), x, y), mat);
    FillsLook(m, g, ops, wx, wy);
  }

  /** `pyramid`'s half width at layer k: `(height - k) as i32 / 2`. */
  function Half(height: nat, k: nat): nat
    requires k <= height
  {
    (height - k) / 2
  }

  /** `pyramid`: layer k is the row `baseY + k`, from `cx - half` to `cx + half`. */
  function PyramidOps(cx: int, baseY: int, height: nat, mat: U16): (r: seq<GridFill>)
    ensures |r| == height && forall k | 0 <= k < height :: FillMaterial(r[k]) == mat
  {
    seq(height, k requires 0 <= k < height => Rect(cx - Half(height, k), cx + Half(height, k), baseY + k, baseY + k + 1, mat))
  }

  /** The cells of a pyramid. */
  predicate InPyramid(cx: int, baseY: int, height: nat, wx: int, wy: int)
  {
    baseY <= wy < baseY + height && cx - Half(height, wy - baseY) <= wx < cx + Half(height, wy - baseY)
  }

  /** A pyramid's fills cover a cell exactly when it lies in the pyramid. */
  lemma PyramidCovers(cx: int, baseY: int, height: nat, mat: U16, wx: int, wy: int)
    ensures var (cp, x, y) := WorldToChunkCoords(wx, wy);
            var ops := PyramidOps(cx, baseY, height, mat);
            (exists k | 0 <= k < |ops| :: Covers(ops[k], cp, x, y)) <==> InPyramid(cx, baseY, height, wx, wy)
  {
    var (cp, x, y) := WorldToChunkCoords(wx, wy);
    var ops := PyramidOps(cx, baseY, height, mat);
    if InPyramid(cx, baseY, height, wx, wy) {
      var k := wy - baseY;
      RectCovers(cx - Half(height, k), cx + Half(height, k), baseY + k, baseY + k + 1, mat, wx, wy);
      assert Covers(ops[k], cp, x, y);
    }
    forall k | 0 <= k < |ops| && Covers(ops[k], cp, x, y)
      ensures InPyramid(cx, baseY, height, wx, wy)
    {
      RectCovers(cx - Half(height, k), cx + Half(height, k), baseY + k, baseY + k + 1, mat, wx, wy);
    }
  }

  /** The whole pyramid, within the grid, is the material, and a loaded cell outside it is untouched. */
  lemma PyramidLook(m: ChunkMap, g: Grid, cx: int, baseY: int, height: nat, mat: U16, wx: int, wy: int)
    ensures var r := Fills(m, g, PyramidOps(cx, baseY, height, mat));
            var cp := WorldToChunkCoords(wx, wy).0;
            && (InGrid(g, cp) && InPyramid(cx, baseY, height, wx, wy) ==> GetPixel(r, wx, wy) == Some(NewPixel(mat)))
            && (!InPyramid(cx, baseY, height, wx, wy) && cp in m ==> GetPixel(r, wx, wy) == GetPixel(m, wx, wy))
  {
    var (cp, x, y) := WorldToChunkCoords(wx, wy);
    var ops := PyramidOps(cx, baseY, height, mat);
    PyramidCovers(cx, baseY, height, mat, wx, wy);
    LayeredSolid(g, ops, cp, x, y, PixelAt(Base(m, cp), x, y), mat);
    FillsLook(m, g, ops, wx, wy);
  }

  /** The layers narrow upwards: a cell of a layer stands on a cell of the layer below. */
  lemma PyramidNarrows(cx: int, baseY: int, height: nat, wx: int, wy: int)
    requires InPyramid(cx, baseY, height, wx, wy) && wy > baseY
    ensures InPyramid(cx, baseY, height, wx, wy - 1)
  {
  }

  // ---------------------------------------------------------------------
  // The builder

  /** `LevelBuilder`: the chunk grid and the chunks created so far, keyed by position. */
  class LevelBuilder {
    var grid: Grid
    var chunks: ChunkMap

    ghost predicate Valid()
      reads this
    {
      Keyed(chunks)
    }

    /** `new`: the standard 5 × 5 grid, no chunks yet. */
    constructor ()
      ensures Valid() && grid == Grid(-2, 2, -2, 2) && chunks == map[]
    {
      grid := Grid(-2, 2, -2, 2);
      chunks := map[];
    }

    /** `chunk_grid`: set the inclusive chunk ranges the grid fills sweep. */
    method ChunkGrid(minCx: int, maxCx: int, minCy: int, maxCy: int)
      requires Valid()
      modifies this
      ensures Valid() && grid == Grid(minCx, maxCx, minCy, maxCy) && chunks == old(chunks)
    {
      grid := Grid(minCx, maxCx, minCy, maxCy);
    }

    /** Sweep one fill over the grid, creating every chunk it visits. */
    method Apply(op: GridFill)
      requires Valid()
      modifies this`chunks
      ensures Valid() && grid == old(grid)
      ensures chunks == GridSweep(old(chunks), grid, op, Height(grid))
      ensures Filled(old(chunks), chunks, grid, op)
    {
      GridSweepFilled(chunks, grid, op);
      SweepKeyed(chunks, grid, op);
      chunks := Sweep(chunks, grid, op);
    }

    /** `bedrock_foundation`: row -2 all bedrock, row -1 bedrock in its bottom 8 rows; every grid chunk is created. */
    method BedrockFoundation()
      requires Valid()
      modifies this`chunks
      ensures Valid() && grid == old(grid)
      ensures chunks == GridSweep(old(chunks), grid, Foundation, Height(grid))
    {
      Apply(Foundation);
    }

    /**
     * `fill_layer`: local rows y0..y1 of every grid chunk. A row at 64 or
     * beyond indexes past the chunk's pixels, which the source does not
     * survive, so a caller keeps the range inside the chunk.
     */
    method FillLayer(y0: nat, y1: nat, m: U16)
      requires Valid() && (y1 <= y0 || y1 <= CHUNK_SIZE || Width(grid) == 0 || Height(grid) == 0)
      modifies this`chunks
      ensures Valid() && grid == old(grid)
      ensures chunks == GridSweep(old(chunks), grid, Layer(y0, y1, m), Height(grid))
    {
      Apply(Layer(y0, y1, m));
    }

    /** `fill_rect`: the world rectangle [xs, xe) × [ys, ye), in every grid chunk it overlaps. */
    method FillRect(xs: int, xe: int, ys: int, ye: int, m: U16)
      requires Valid()
      modifies this`chunks
      ensures Valid() && grid == old(grid)
      ensures chunks == GridSweep(old(chunks), grid, Rect(xs, xe, ys, ye, m), Height(grid))
    {
      Apply(Rect(xs, xe, ys, ye, m));
    }

    /** `in_chunk`: run the closure's calls on the chunk at (cx, cy), created if missing. */
    method InChunk(cx: int, cy: int, cmds: seq<ChunkCommand>)
      requires Valid()
      modifies this`chunks
      ensures Valid() && grid == old(grid)
      ensures var cp := IVec2(cx, cy);
              chunks == old(chunks)[cp := RunCommands(Base(old(chunks), cp), cmds)]
    {
      var cp := IVec2(cx, cy);
      var b := new ChunkBuilder(Base(chunks, cp));
      b.Run(cmds);
      RunCommandsKeepsPosition(Base(chunks, cp), cmds);
      chunks := chunks[cp := b.chunk];
    }

    /** `chamber`: floor, ceiling and both walls, each `t` thick. */
    method Chamber(xs: int, xe: int, ys: int, ye: int, t: nat, m: U16)
      requires Valid()
      modifies this`chunks
      ensures Valid() && grid == old(grid)
      ensures chunks == Fills(old(chunks), grid, ChamberOps(xs, xe, ys, ye, t, m))
    {
      ghost var c0 := chunks;
      FillRect(xs, xe, ys, ys + t, m);
      ghost var floor := chunks;
      FillRect(xs, xe, ye - t, ye, m);
      ghost var ceiling := chunks;
      FillRect(xs, xs + t, ys, ye, m);
      ghost var left := chunks;
      FillRect(xe - t, xe, ys, ye, m);
      ChamberSteps(c0, floor, ceiling, left, chunks, grid, xs, xe, ys, ye, t, m);
    }

    /** `pyramid`: `height` one-row layers from `baseY` up, each `2 * half` wide around `cx`. */
    method Pyramid(cx: int, baseY: int, height: nat, m: U16)
      requires Valid()
      modifies this`chunks
      ensures Valid() && grid == old(grid)
      ensures chunks == Fills(old(chunks), grid, PyramidOps(cx, baseY, height, m))
    {
      var ops := PyramidOps(cx, baseY, height, m);
      ghost var c0, g := chunks, grid;
      var k := 0;
      while k < height
        invariant k <= height && Valid() && grid == g
        invariant chunks == Fills(c0, g, ops[..k])
      {
        var half := (height - k) / 2;
        FillsSnoc(c0, g, ops[..k], ops[k]);
        assert ops[..k] + [ops[k]] == ops[..k + 1];
        FillRect(cx - half, cx + half, baseY + k, baseY + k + 1, m);
        k := k + 1;
      }
      assert ops[..height] == ops;
    }

    /**
     * `build`: clear the world, then add every chunk. The world ends with
     * exactly these chunks, and those near the player become active.
     */
    method Build(world: Worlds.World)
      requires Valid() && world.Valid()
      modifies world
      ensures world.Valid() && world.Settings() == old(world.Settings())
      ensures world.chunks == chunks
      ensures forall cp :: cp in world.activeChunks <==> cp in chunks && Worlds.NearPlayer(cp, world.playerX, world.playerY)
    {
      world.ClearAllChunks();
      var todo := chunks.Keys;
      while todo != {}
        invariant todo <= chunks.Keys
        invariant world.Valid() && world.Settings() == old(world.Settings())
        invariant forall cp :: cp in world.chunks <==> cp in chunks && cp !in todo
        invariant forall cp | cp in world.chunks :: world.chunks[cp] == chunks[cp]
        invariant forall cp :: cp in world.activeChunks <==> cp in world.chunks && Worlds.NearPlayer(cp, world.playerX, world.playerY)
        decreases todo
      {
        var cp :| cp in todo;
        world.AddChunk(chunks[cp]);
        todo := todo - {cp};
      }
      assert world.chunks == chunks;
    }
  }
}
