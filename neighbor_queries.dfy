/**
 * Read-only neighbourhood queries over the loaded chunks: the eight
 * neighbours of a pixel, the four orthogonal neighbours (the callback is
 * modelled as the sequence of calls it receives), and every pixel inside a
 * disc, scanned row by row.  Each method is proved equal to a function over
 * its offsets, and the facts the queries promise are lemmas about those
 * functions.
 */
module NeighborQueries {
  import opened Ints
  import opened Wrappers
  import opened Chunks
  import opened WorldGrid

  /** One reported neighbour: its world position and material id. */
  datatype Hit = Hit(x: int, y: int, material: U16)

  /** NW, N, NE, W, E, SW, S, SE. */
  const EIGHT: seq<(int, int)> := [(-1, -1), (0, -1), (1, -1), (-1, 0), (1, 0), (-1, 1), (0, 1), (1, 1)]

  /** The orthogonal offsets in the order the callback sees them. */
  const ORTHOGONAL: seq<(int, int)> := [(0, 1), (1, 0), (0, -1), (-1, 0)]

  /** The pixel at (x, y) as a hit, when its chunk is loaded. */
  function HitAt(chunks: ChunkMap, x: int, y: int): seq<Hit>
  {
    match GetPixel(chunks, x, y)
    case Some(p) => [Hit(x, y, p.material)]
    case None => []
  }

  /** The hits for the offsets `offs` around (cx, cy), in offset order, skipping unloaded chunks. */
  function Probe(chunks: ChunkMap, cx: int, cy: int, offs: seq<(int, int)>): seq<Hit>
  {
    if offs == [] then []
    else
      var last := offs[|offs| - 1];
      Probe(chunks, cx, cy, offs[..|offs| - 1]) + HitAt(chunks, cx + last.0, cy + last.1)
  }

  function MaterialsOf(hits: seq<Hit>): (ms: seq<U16>)
    ensures |ms| == |hits| && forall i | 0 <= i < |hits| :: ms[i] == hits[i].material
  {
    seq(|hits|, i requires 0 <= i < |hits| => hits[i].material)
  }

  lemma MaterialsOfAppend(xs: seq<Hit>, ys: seq<Hit>)
    ensures MaterialsOf(xs + ys) == MaterialsOf(xs) + MaterialsOf(ys)
  {
  }

  /** Whether the world pixel (x, y) sits in a loaded chunk. */
  predicate Loaded(chunks: ChunkMap, x: int, y: int)
  {
    WorldToChunkCoords(x, y).0 in chunks
  }

  /** At most one hit per offset, and exactly one per offset when every neighbour's chunk is loaded. */
  lemma {:induction false} ProbeLength(chunks: ChunkMap, cx: int, cy: int, offs: seq<(int, int)>)
    ensures |Probe(chunks, cx, cy, offs)| <= |offs|
    ensures (forall k | 0 <= k < |offs| :: Loaded(chunks, cx + offs[k].0, cy + offs[k].1))
            ==> |Probe(chunks, cx, cy, offs)| == |offs|
    decreases |offs|
  {
    if offs != [] {
      var init := offs[..|offs| - 1];
      ProbeLength(chunks, cx, cy, init);
      if forall k | 0 <= k < |offs| :: Loaded(chunks, cx + offs[k].0, cy + offs[k].1) {
        assert forall k | 0 <= k < |init| :: init[k] == offs[k];
      }
    }
  }

  /**
   * A hit is reported exactly for an offset whose chunk is loaded, and it
   * carries that pixel's material.
   */
  lemma {:induction false} ProbeMember(chunks: ChunkMap, cx: int, cy: int, offs: seq<(int, int)>, h: Hit)
    ensures h in Probe(chunks, cx, cy, offs) <==> (h.x - cx, h.y - cy) in offs && IsHitOf(chunks, h)
    decreases |offs|
  {
    if offs != [] {
      var init := offs[..|offs| - 1];
      var last := offs[|offs| - 1];
      ProbeMember(chunks, cx, cy, init, h);
      assert offs == init + [last];
      assert (h.x - cx, h.y - cy) in offs <==> (h.x - cx, h.y - cy) in init || (h.x - cx, h.y - cy) == last;
      HitAtMember(chunks, cx + last.0, cy + last.1, h);
    }
  }

  /** The pixel at (x, y) is reported exactly when it is loaded, with its material. */
  lemma HitAtMember(chunks: ChunkMap, x: int, y: int, h: Hit)
    ensures h in HitAt(chunks, x, y) <==> h.x == x && h.y == y && IsHitOf(chunks, h)
  {
  }

  /** The probe grows by one offset at a time. */
  lemma ProbeSnoc(chunks: ChunkMap, cx: int, cy: int, offs: seq<(int, int)>, k: nat)
    requires k < |offs|
    ensures Probe(chunks, cx, cy, offs[..k + 1]) == Probe(chunks, cx, cy, offs[..k]) + HitAt(chunks, cx + offs[k].0, cy + offs[k].1)
  {
    assert offs[..k + 1][..k] == offs[..k];
  }

  /** The materials of a probe grow by the material of the next offset's pixel, when its chunk is loaded. */
  lemma ProbeMaterialsSnoc(chunks: ChunkMap, cx: int, cy: int, offs: seq<(int, int)>, k: nat)
    requires k < |offs|
    ensures var (cp, lx, ly) := WorldToChunkCoords(cx + offs[k].0, cy + offs[k].1);
            MaterialsOf(Probe(chunks, cx, cy, offs[..k + 1]))
            == MaterialsOf(Probe(chunks, cx, cy, offs[..k])) + (if cp in chunks then [PixelAt(chunks[cp], lx, ly).material] else [])
  {
    ProbeSnoc(chunks, cx, cy, offs, k);
    MaterialsOfAppend(Probe(chunks, cx, cy, offs[..k]), HitAt(chunks, cx + offs[k].0, cy + offs[k].1));
  }

  /** `get_8_neighbors`: the materials of the loaded neighbours, in NW, N, NE, W, E, SW, S, SE order. */
  method Get8Neighbors(chunks: ChunkMap, cx: int, cy: int) returns (ns: seq<U16>)
    ensures ns == MaterialsOf(Probe(chunks, cx, cy, EIGHT))
    ensures |ns| <= 8
  {
    ns := [];
    var i := 0;
    while i < |EIGHT|
      invariant 0 <= i <= |EIGHT|
      invariant ns == MaterialsOf(Probe(chunks, cx, cy, EIGHT[..i]))
    {
      var (dx, dy) := EIGHT[i];
      var (cp, lx, ly) := WorldToChunkCoords(cx + dx, cy + dy);
      ProbeMaterialsSnoc(chunks, cx, cy, EIGHT, i);
      if cp in chunks {
        ns := ns + [PixelAt(chunks[cp], lx, ly).material];
      }
      i := i + 1;
    }
    assert EIGHT[..|EIGHT|] == EIGHT;
    ProbeLength(chunks, cx, cy, EIGHT);
  }

  /**
   * `for_each_orthogonal_neighbor`: the callback's arguments, one call per
   * loaded orthogonal neighbour, in the order (0,1), (1,0), (0,-1), (-1,0).
   */
  method ForEachOrthogonalNeighbor(chunks: ChunkMap, cx: int, cy: int) returns (calls: seq<Hit>)
    ensures calls == Probe(chunks, cx, cy, ORTHOGONAL)
    ensures |calls| <= 4
  {
    calls := [];
    var i := 0;
    while i < |ORTHOGONAL|
      invariant 0 <= i <= |ORTHOGONAL|
      invariant calls == Probe(chunks, cx, cy, ORTHOGONAL[..i])
    {
      var (dx, dy) := ORTHOGONAL[i];
      var x, y := cx + dx, cy + dy;
      var (cp, lx, ly) := WorldToChunkCoords(x, y);
      assert ORTHOGONAL[..i + 1][..i] == ORTHOGONAL[..i];
      if cp in chunks {
        calls := calls + [Hit(x, y, PixelAt(chunks[cp], lx, ly).material)];
      }
      i := i + 1;
    }
    assert ORTHOGONAL[..|ORTHOGONAL|] == ORTHOGONAL;
    ProbeLength(chunks, cx, cy, ORTHOGONAL);
  }

  /** The single chunk at the origin, as a lone loaded chunk. */
  function LoneChunk(): ChunkMap
  {
    map[IVec2(0, 0) := NewChunk(0, 0)]
  }

  /** Each probed offset adds one hit when its chunk is loaded and none otherwise. */
  lemma ProbeSnocCount(chunks: ChunkMap, cx: int, cy: int, offs: seq<(int, int)>, k: nat)
    requires k < |offs|
    ensures |Probe(chunks, cx, cy, offs[..k + 1])|
            == |Probe(chunks, cx, cy, offs[..k])| + (if Loaded(chunks, cx + offs[k].0, cy + offs[k].1) then 1 else 0)
  {
    ProbeSnoc(chunks, cx, cy, offs, k);
  }

  /** Around the origin, the lone chunk holds exactly the pixels with non-negative coordinates. */
  lemma LoneLoaded(chunks: ChunkMap, x: int, y: int)
    requires chunks.Keys == {IVec2(0, 0)}
    requires -1 <= x <= 1 && -1 <= y <= 1
    ensures Loaded(chunks, x, y) <==> x >= 0 && y >= 0
  {
    var cp := IVec2(if x < 0 then -1 else 0, if y < 0 then -1 else 0);
    WorldToChunkCoordsUnique(x, y, cp, x - cp.x * 64, y - cp.y * 64);
  }

  /** Around the corner (0, 0) of a lone chunk, an offset adds a hit exactly when both its coordinates are non-negative. */
  lemma LoneStep(lone: ChunkMap, offs: seq<(int, int)>, k: nat)
    requires lone.Keys == {IVec2(0, 0)}
    requires k < |offs| && -1 <= offs[k].0 <= 1 && -1 <= offs[k].1 <= 1
    ensures |Probe(lone, 0, 0, offs[..k + 1])|
            == |Probe(lone, 0, 0, offs[..k])| + (if offs[k].0 >= 0 && offs[k].1 >= 0 then 1 else 0)
  {
    ProbeSnocCount(lone, 0, 0, offs, k);
    LoneLoaded(lone, offs[k].0, offs[k].1);
  }

  /** At the corner (0, 0) of a lone chunk, NW, N, NE and W lie in unloaded chunks. */
  lemma LoneCornerUpperLeft(lone: ChunkMap)
    requires lone.Keys == {IVec2(0, 0)}
    ensures |Probe(lone, 0, 0, EIGHT[..4])| == 0
  {
    assert EIGHT[..0] == [];
    LoneStep(lone, EIGHT, 0);
    LoneStep(lone, EIGHT, 1);
    LoneStep(lone, EIGHT, 2);
    LoneStep(lone, EIGHT, 3);
  }

  /** At the corner (0, 0) of a lone chunk only E, S and SE of the eight neighbours are loaded. */
  lemma LoneCornerEight(lone: ChunkMap)
    requires lone.Keys == {IVec2(0, 0)}
    ensures |Probe(lone, 0, 0, EIGHT)| == 3
  {
    LoneCornerUpperLeft(lone);
    LoneStep(lone, EIGHT, 4);
    LoneStep(lone, EIGHT, 5);
    LoneStep(lone, EIGHT, 6);
    LoneStep(lone, EIGHT, 7);
    assert EIGHT[..8] == EIGHT;
  }

  /** At the same corner only two of the four orthogonal neighbours (S and E) are visited. */
  lemma LoneCornerOrthogonal(lone: ChunkMap)
    requires lone.Keys == {IVec2(0, 0)}
    ensures |Probe(lone, 0, 0, ORTHOGONAL)| == 2
  {
    assert ORTHOGONAL[..0] == [];
    LoneStep(lone, ORTHOGONAL, 0);
    LoneStep(lone, ORTHOGONAL, 1);
    LoneStep(lone, ORTHOGONAL, 2);
    LoneStep(lone, ORTHOGONAL, 3);
    assert ORTHOGONAL[..4] == ORTHOGONAL;
  }

  /** With all nine chunks around the origin loaded, every one of the eight neighbours is reported. */
  lemma NineCornerEight(nine: ChunkMap)
    requires forall cx, cy | -1 <= cx <= 1 && -1 <= cy <= 1 :: IVec2(cx, cy) in nine
    ensures |Probe(nine, 0, 0, EIGHT)| == 8
  {
    forall k | 0 <= k < |EIGHT| ensures Loaded(nine, 0 + EIGHT[k].0, 0 + EIGHT[k].1) {
      var (dx, dy) := EIGHT[k];
      assert WorldToChunkCoords(dx, dy).0 == IVec2(if dx < 0 then -1 else 0, if dy < 0 then -1 else 0);
    }
    ProbeLength(nine, 0, 0, EIGHT);
  }

  /** The pixels of row `dy` for `lo <= dx < hi` that lie in the disc of radius `r` and are loaded, by increasing dx. */
  function DiscRow(chunks: ChunkMap, cx: int, cy: int, r: int, dy: int, lo: int, hi: int): seq<Hit>
    decreases hi - lo
  {
    if hi <= lo then []
    else
      var dx := hi - 1;
      DiscRow(chunks, cx, cy, r, dy, lo, hi - 1)
        + (if dx * dx + dy * dy <= r * r then HitAt(chunks, cx + dx, cy + dy) else [])
  }

  /** Rows `dylo <= dy <= dyhi`, by increasing dy, each over `-r <= dx <= r`. */
  function DiscRows(chunks: ChunkMap, cx: int, cy: int, r: int, dylo: int, dyhi: int): seq<Hit>
    decreases dyhi - dylo
  {
    if dyhi < dylo then []
    else DiscRows(chunks, cx, cy, r, dylo, dyhi - 1) + DiscRow(chunks, cx, cy, r, dyhi, -r, r + 1)
  }

  /** What `get_pixels_in_radius` returns. */
  function Disc(chunks: ChunkMap, cx: int, cy: int, r: int): seq<Hit>
  {
    DiscRows(chunks, cx, cy, r, -r, r)
  }

  /** The hit for the loaded world pixel (x, y). */
  predicate IsHitOf(chunks: ChunkMap, h: Hit)
  {
    GetPixel(chunks, h.x, h.y).Some? && GetPixel(chunks, h.x, h.y).value.material == h.material
  }

  predicate InSquare(h: Hit, cx: int, cy: int, r: int)
  {
    -r <= h.x - cx <= r && -r <= h.y - cy <= r
  }

  predicate InDisc(h: Hit, cx: int, cy: int, r: int)
  {
    (h.x - cx) * (h.x - cx) + (h.y - cy) * (h.y - cy) <= r * r
  }

  lemma {:induction false} DiscRowMember(chunks: ChunkMap, cx: int, cy: int, r: int, dy: int, lo: int, hi: int, h: Hit)
    ensures h in DiscRow(chunks, cx, cy, r, dy, lo, hi)
            <==> h.y == cy + dy && lo <= h.x - cx < hi && InDisc(h, cx, cy, r) && IsHitOf(chunks, h)
    decreases hi - lo
  {
    if hi > lo {
      DiscRowMember(chunks, cx, cy, r, dy, lo, hi - 1, h);
    }
  }

  lemma {:induction false} DiscRowsMember(chunks: ChunkMap, cx: int, cy: int, r: int, dylo: int, dyhi: int, h: Hit)
    ensures h in DiscRows(chunks, cx, cy, r, dylo, dyhi)
            <==> dylo <= h.y - cy <= dyhi && -r <= h.x - cx <= r && InDisc(h, cx, cy, r) && IsHitOf(chunks, h)
    decreases dyhi - dylo
  {
    if dyhi >= dylo {
      DiscRowsMember(chunks, cx, cy, r, dylo, dyhi - 1, h);
      DiscRowMember(chunks, cx, cy, r, dyhi, -r, r + 1, h);
    }
  }

  /** An offset beyond r on either side has a square above r*r. */
  lemma SquareGrows(d: int, r: int)
    requires r >= 0 && (d > r || d < -r)
    ensures d * d > r * r
  {
    if d > r {
      assert (d - r) * (d + r) > 0 by { PositiveProduct(d - r, d + r); }
      assert d * d - r * r == (d - r) * (d + r);
    } else {
      assert (-d - r) * (-d + r) > 0 by { PositiveProduct(-d - r, -d + r); }
      assert d * d - r * r == (-d - r) * (-d + r);
    }
  }

  /** Hence a square of at most r*r bounds the offset to [-r, r]. */
  lemma SquareBound(d: int, r: int)
    ensures r >= 0 && d * d <= r * r ==> -r <= d <= r
  {
    if r >= 0 && (d > r || d < -r) {
      SquareGrows(d, r);
    }
  }

  /** The disc of radius r lies inside the square [-r, r] x [-r, r]. */
  lemma DiscInSquare(dx: int, dy: int, r: int)
    ensures r >= 0 && dx * dx + dy * dy <= r * r ==> -r <= dx <= r && -r <= dy <= r
  {
    SquareBound(dx, r);
    SquareBound(dy, r);
    assert dx * dx >= 0 && dy * dy >= 0;
  }

  lemma PositiveProduct(a: int, b: int)
    requires a > 0 && b > 0
    ensures a * b > 0
  {
  }

  /**
   * `get_pixels_in_radius` returns exactly the loaded pixels with
   * dx*dx + dy*dy <= r*r, each with its material; a negative radius yields
   * nothing.
   */
  lemma DiscMember(chunks: ChunkMap, cx: int, cy: int, r: int, h: Hit)
    ensures h in Disc(chunks, cx, cy, r) <==> r >= 0 && InDisc(h, cx, cy, r) && IsHitOf(chunks, h)
  {
    DiscRowsMember(chunks, cx, cy, r, -r, r, h);
    DiscInSquare(h.x - cx, h.y - cy, r);
  }

  /** Row-major order: by increasing y, then increasing x. */
  predicate Before(a: Hit, b: Hit)
  {
    a.y < b.y || (a.y == b.y && a.x < b.x)
  }

  predicate RowMajor(hits: seq<Hit>)
  {
    forall i, j | 0 <= i < j < |hits| :: Before(hits[i], hits[j])
  }

  lemma SortedConcat(a: seq<Hit>, b: seq<Hit>)
    requires RowMajor(a) && RowMajor(b)
    requires forall u, v | u in a && v in b :: Before(u, v)
    ensures RowMajor(a + b)
  {
    var s := a + b;
    forall i, j | 0 <= i < j < |s| ensures Before(s[i], s[j]) {
      if i < |a| && j >= |a| {
        assert s[i] in a && s[j] == b[j - |a|];
      } else if i >= |a| {
        assert s[i] == b[i - |a|] && s[j] == b[j - |a|];
      }
    }
  }

  lemma {:induction false} DiscRowSorted(chunks: ChunkMap, cx: int, cy: int, r: int, dy: int, lo: int, hi: int)
    ensures RowMajor(DiscRow(chunks, cx, cy, r, dy, lo, hi))
    decreases hi - lo
  {
    if hi > lo {
      var prefix := DiscRow(chunks, cx, cy, r, dy, lo, hi - 1);
      DiscRowSorted(chunks, cx, cy, r, dy, lo, hi - 1);
      forall u | u in prefix ensures u.y == cy + dy && u.x < cx + hi - 1 {
        DiscRowMember(chunks, cx, cy, r, dy, lo, hi - 1, u);
      }
      var dx := hi - 1;
      SortedConcat(prefix, if dx * dx + dy * dy <= r * r then HitAt(chunks, cx + dx, cy + dy) else []);
    }
  }

  lemma {:induction false} DiscRowsSorted(chunks: ChunkMap, cx: int, cy: int, r: int, dylo: int, dyhi: int)
    ensures RowMajor(DiscRows(chunks, cx, cy, r, dylo, dyhi))
    decreases dyhi - dylo
  {
    if dyhi >= dylo {
      var prefix := DiscRows(chunks, cx, cy, r, dylo, dyhi - 1);
      var row := DiscRow(chunks, cx, cy, r, dyhi, -r, r + 1);
      DiscRowsSorted(chunks, cx, cy, r, dylo, dyhi - 1);
      DiscRowSorted(chunks, cx, cy, r, dyhi, -r, r + 1);
      forall u | u in prefix ensures u.y < cy + dyhi {
        DiscRowsMember(chunks, cx, cy, r, dylo, dyhi - 1, u);
      }
      forall v | v in row ensures v.y == cy + dyhi {
        DiscRowMember(chunks, cx, cy, r, dyhi, -r, r + 1, v);
      }
      SortedConcat(prefix, row);
    }
  }

  /** The disc comes in row-major order from dy = -r, so no pixel is listed twice. */
  lemma DiscSorted(chunks: ChunkMap, cx: int, cy: int, r: int)
    ensures RowMajor(Disc(chunks, cx, cy, r))
  {
    DiscRowsSorted(chunks, cx, cy, r, -r, r);
  }

  /** `get_pixels_in_radius`: scan the square [-r, r]^2 row by row and keep the loaded pixels inside the disc. */
  method GetPixelsInRadius(chunks: ChunkMap, cx: int, cy: int, r: int) returns (pixels: seq<Hit>)
    ensures pixels == Disc(chunks, cx, cy, r)
  {
    pixels := [];
    var dy := -r;
    while dy <= r
      invariant dy <= r ==> -r <= dy
      invariant r < -r ==> dy == -r
      invariant -r <= r ==> -r <= dy <= r + 1
      invariant pixels == DiscRows(chunks, cx, cy, r, -r, dy - 1)
    {
      pixels := ScanDiscRow(chunks, cx, cy, r, dy, pixels);
      dy := dy + 1;
    }
  }

  /** The inner loop of `get_pixels_in_radius`: one row of the square, appended to `pixels`. */
  method ScanDiscRow(chunks: ChunkMap, cx: int, cy: int, r: int, dy: int, pixels: seq<Hit>) returns (pixels': seq<Hit>)
    requires -r <= dy <= r
    requires pixels == DiscRows(chunks, cx, cy, r, -r, dy - 1)
    ensures pixels' == DiscRows(chunks, cx, cy, r, -r, dy)
  {
    pixels' := pixels;
    var dx := -r;
    while dx <= r
      invariant -r <= dx <= r + 1
      invariant pixels' == pixels + DiscRow(chunks, cx, cy, r, dy, -r, dx)
    {
      if dx * dx + dy * dy <= r * r {
        var x, y := cx + dx, cy + dy;
        var (cp, lx, ly) := WorldToChunkCoords(x, y);
        if cp in chunks {
          pixels' := pixels' + [Hit(x, y, PixelAt(chunks[cp], lx, ly).material)];
        }
      }
      dx := dx + 1;
    }
  }

  /** Radius 0 yields only the centre. */
  lemma DiscRadiusZero()
    ensures Disc(LoneChunk(), 32, 32, 0) == [Hit(32, 32, 0)]
  {
    var lone := LoneChunk();
    assert GetPixel(lone, 32, 32) == Some(Air);
    assert DiscRows(lone, 32, 32, 0, 0, -1) == [];
    assert DiscRow(lone, 32, 32, 0, 0, 0, 0) == [];
    assert Disc(lone, 32, 32, 0) == DiscRow(lone, 32, 32, 0, 0, 0, 1);
  }

  /** Radius 1 yields the centre and its four orthogonal neighbours, but no diagonal. */
  lemma DiscRadiusOne()
    ensures |Disc(LoneChunk(), 32, 32, 1)| == 5
  {
    LoneDiscRow(-1);
    LoneDiscRow(0);
    LoneDiscRow(1);
    assert DiscRows(LoneChunk(), 32, 32, 1, -1, -2) == [];
  }

  /** Row `dy` of that disc: the centre row holds three pixels, the rows above and below one each. */
  lemma LoneDiscRow(dy: int)
    requires -1 <= dy <= 1
    ensures |DiscRow(LoneChunk(), 32, 32, 1, dy, -1, 2)| == if dy == 0 then 3 else 1
  {
    var lone := LoneChunk();
    assert GetPixel(lone, 31, 32 + dy).Some?;
    assert GetPixel(lone, 32, 32 + dy).Some?;
    assert GetPixel(lone, 33, 32 + dy).Some?;
    assert DiscRow(lone, 32, 32, 1, dy, -1, -1) == [];
  }

  /** At radius 2 the diagonal (2, 2) lies outside (8 > 4) and the offset (2, 0) on the rim inside. */
  lemma DiscRadiusTwo()
    ensures Hit(34, 34, 0) !in Disc(LoneChunk(), 32, 32, 2)
    ensures Hit(34, 32, 0) in Disc(LoneChunk(), 32, 32, 2)
  {
    var lone := LoneChunk();
    DiscMember(lone, 32, 32, 2, Hit(34, 34, 0));
    DiscMember(lone, 32, 32, 2, Hit(34, 32, 0));
    assert GetPixel(lone, 34, 32) == Some(Air);
  }
}
