/**
 * Kinematic falling debris: a group of pixels that falls as one body under
 * gravity, without rotation, until it lands and settles back into the
 * world. Positions are integer pixel cells; the centre and the velocity are
 * `real`, so the model computes exactly where the source uses `f32`.
 * The world is reached only through the collision query `is_solid_at`,
 * which is a parameter here.
 */
module FallingChunks {
  import opened Ints
  import opened Chunks

  const GRAVITY: real := -300.0
  const TERMINAL_VELOCITY: real := -500.0
  const SETTLE_VELOCITY: real := -5.0

  /** A falling body: pixel materials by position relative to its rounded centre. */
  datatype FallingChunk = FallingChunk(pixels: map<IVec2, U16>, centerX: real, centerY: real, velocityY: real, id: nat)

  // ---------------------------------------------------------------------
  // Arithmetic of f32 used by the body

  /** `f32::round`: to the nearest integer, halves away from zero. */
  function Round(r: real): int
  {
    if r >= 0.0 then (r + 0.5).Floor else -((0.5 - r).Floor)
  }

  lemma RoundIsNearest(r: real)
    ensures -0.5 <= r - Round(r) as real <= 0.5
    ensures Round(r) as real == r ==> r == r.Floor as real
  {
  }

  /** `f32::ceil`. */
  function Ceil(r: real): int
  {
    -((-r).Floor)
  }

  lemma CeilBounds(r: real)
    ensures (Ceil(r) - 1) as real < r <= Ceil(r) as real
    ensures r > 0.0 ==> Ceil(r) >= 1
  {
  }

  function Max(a: real, b: real): real { if a >= b then a else b }

  function Abs(a: real): real { if a < 0.0 then -a else a }

  // ---------------------------------------------------------------------
  // Centre of mass and relative positions

  function X(p: IVec2): int { p.x }
  function Y(p: IVec2): int { p.y }

  /** The sum of f over a set of positions, in no particular order. */
  ghost function Sum(s: set<IVec2>, f: IVec2 -> int): int
    decreases |s|
  {
    if s == {} then 0 else var p :| p in s; f(p) + Sum(s - {p}, f)
  }

  /** The sum does not depend on which element is taken first. */
  lemma {:induction false} SumRemove(s: set<IVec2>, f: IVec2 -> int, p: IVec2)
    requires p in s
    ensures Sum(s, f) == f(p) + Sum(s - {p}, f)
    decreases |s|
  {
    var q :| q in s && Sum(s, f) == f(q) + Sum(s - {q}, f);
    if q != p {
      SumRemove(s - {q}, f, p);
      SumRemove(s - {p}, f, q);
      assert s - {q} - {p} == s - {p} - {q};
    }
  }

  /** A sum of values in [lo, hi] lies between |s| * lo and |s| * hi. */
  lemma {:induction false} SumBounds(s: set<IVec2>, f: IVec2 -> int, lo: int, hi: int)
    requires forall p | p in s :: lo <= f(p) <= hi
    ensures |s| * lo <= Sum(s, f) <= |s| * hi
    decreases |s|
  {
    if s != {} {
      var p :| p in s;
      SumRemove(s, f, p);
      SumBounds(s - {p}, f, lo, hi);
      var n := |s - {p}|;
      assert |s| == n + 1;
      MulStep(n, lo);
      MulStep(n, hi);
    }
  }

  lemma MulStep(n: int, x: int)
    ensures (n + 1) * x == n * x + x
  {
  }

  /** The mean of f over a set, 0 for none. */
  ghost function Mean(s: set<IVec2>, f: IVec2 -> int): real
  {
    if s == {} then 0.0 else Sum(s, f) as real / |s| as real
  }

  /** The mean of f over a non-empty set lies within the range of f. */
  lemma MeanWithin(s: set<IVec2>, f: IVec2 -> int, lo: int, hi: int)
    requires s != {} && forall p | p in s :: lo <= f(p) <= hi
    ensures lo as real <= Mean(s, f) <= hi as real
  {
    SumBounds(s, f, lo, hi);
    QuotientBounds(Sum(s, f), |s|, lo, hi);
  }

  lemma QuotientBounds(a: int, n: nat, lo: int, hi: int)
    requires n > 0 && n * lo <= a <= n * hi
    ensures lo as real <= a as real / n as real <= hi as real
  {
    var q := a as real / n as real;
    var nr := n as real;
    assert a as real == q * nr;
    assert (q - lo as real) * nr == a as real - lo as real * nr;
    assert (hi as real - q) * nr == hi as real * nr - a as real;
  }

  /**
   * `calculate_center`: the mean position of the pixels, (0, 0) for none.
   * By MeanWithin the centre lies within the bounding box of the pixels.
   */
  method CalculateCenter(pixels: map<IVec2, U16>) returns (cx: real, cy: real)
    ensures cx == Mean(pixels.Keys, X) && cy == Mean(pixels.Keys, Y)
  {
    if pixels == map[] {
      return 0.0, 0.0;
    }
    var sx, sy := 0, 0;
    var rest := pixels.Keys;
    while rest != {}
      invariant rest <= pixels.Keys
      invariant sx == Sum(pixels.Keys - rest, X) && sy == Sum(pixels.Keys - rest, Y)
      decreases |rest|
    {
      var p :| p in rest;
      var done := pixels.Keys - rest;
      SumRemove(done + {p}, X, p);
      SumRemove(done + {p}, Y, p);
      assert done + {p} - {p} == done;
      assert pixels.Keys - (rest - {p}) == done + {p};
      sx, sy := sx + p.x, sy + p.y;
      rest := rest - {p};
    }
    assert pixels.Keys != {} by {
      var p :| p in pixels;
    }
    assert pixels.Keys - rest == pixels.Keys;
    cx := sx as real / |pixels.Keys| as real;
    cy := sy as real / |pixels.Keys| as real;
  }

  function Offset(p: IVec2, dx: int, dy: int): IVec2
  {
    IVec2(p.x + dx, p.y + dy)
  }

  /** The pixels re-keyed relative to the cell c. */
  function Relative(pixels: map<IVec2, U16>, c: IVec2): map<IVec2, U16>
  {
    map p | p in pixels :: Offset(p, -c.x, -c.y) := pixels[p]
  }

  function ShiftSet(s: set<IVec2>, dx: int, dy: int): set<IVec2>
  {
    set p | p in s :: Offset(p, dx, dy)
  }

  /** Shifting a set of positions keeps its size. */
  lemma {:induction false} ShiftedSize(s: set<IVec2>, dx: int, dy: int)
    ensures |ShiftSet(s, dx, dy)| == |s|
    decreases |s|
  {
    if s != {} {
      var q :| q in s;
      ShiftedSize(s - {q}, dx, dy);
      var rest := ShiftSet(s - {q}, dx, dy);
      assert ShiftSet(s, dx, dy) == rest + {Offset(q, dx, dy)};
      assert Offset(q, dx, dy) !in rest;
    }
  }

  /** The relative map has one entry per input pixel. */
  lemma RelativeSize(pixels: map<IVec2, U16>, c: IVec2)
    ensures |Relative(pixels, c)| == |pixels|
  {
    var rel := Relative(pixels, c);
    assert rel.Keys == ShiftSet(pixels.Keys, -c.x, -c.y);
    ShiftedSize(pixels.Keys, -c.x, -c.y);
  }

  /** Adding the centre back to each relative key gives the original pixel, and every pixel has a relative key. */
  lemma RelativeRoundTrip(pixels: map<IVec2, U16>, c: IVec2)
    ensures forall q | q in Relative(pixels, c) :: Offset(q, c.x, c.y) in pixels && pixels[Offset(q, c.x, c.y)] == Relative(pixels, c)[q]
    ensures forall p | p in pixels :: Offset(p, -c.x, -c.y) in Relative(pixels, c)
  {
    var rel := Relative(pixels, c);
    forall q | q in rel
      ensures Offset(q, c.x, c.y) in pixels && pixels[Offset(q, c.x, c.y)] == rel[q]
    {
      var p :| p in pixels && Offset(p, -c.x, -c.y) == q;
      assert Offset(q, c.x, c.y) == p;
    }
  }

  // ---------------------------------------------------------------------
  // Collision and descent

  /** The body's rounded centre. */
  function CenterCell(c: FallingChunk): IVec2
  {
    IVec2(Round(c.centerX), Round(c.centerY))
  }

  /** The world position of a relative pixel after moving the body by (dx, dy). */
  function Shifted(c: FallingChunk, rel: IVec2, dx: int, dy: int): IVec2
  {
    Offset(Offset(CenterCell(c), rel.x, rel.y), dx, dy)
  }

  /** `can_move_chunk`: no pixel of the moved body lands on a solid cell. */
  predicate CanMove(c: FallingChunk, dx: int, dy: int, solid: IVec2 -> bool)
  {
    forall rel | rel in c.pixels :: !solid(Shifted(c, rel, dx, dy))
  }

  /** `can_move_chunk`, scanning the pixels and stopping at the first collision. */
  method CanMoveChunk(c: FallingChunk, dx: int, dy: int, solid: IVec2 -> bool) returns (b: bool)
    ensures b <==> CanMove(c, dx, dy, solid)
  {
    var rest := c.pixels.Keys;
    while rest != {}
      invariant rest <= c.pixels.Keys
      invariant forall rel | rel in c.pixels.Keys - rest :: !solid(Shifted(c, rel, dx, dy))
      decreases |rest|
    {
      var rel :| rel in rest;
      if solid(Shifted(c, rel, dx, dy)) {
        return false;
      }
      rest := rest - {rel};
    }
    return true;
  }

  /** The body lowered by k pixels. */
  function Lowered(c: FallingChunk, k: nat): FallingChunk
  {
    c.(centerY := c.centerY - k as real)
  }

  /** How many of the steps from k on succeed before the first blocked one. */
  function Moves(c: FallingChunk, k: nat, steps: nat, solid: IVec2 -> bool): (m: nat)
    requires k <= steps
    ensures k <= m <= steps
    decreases steps - k
  {
    if k == steps then steps
    else if CanMove(Lowered(c, k), 0, -1, solid) then Moves(c, k + 1, steps, solid)
    else k
  }

  /**
   * Every one-pixel descent is guarded by the collision test: each of the
   * first Moves steps was clear, and the step after them, if any, was blocked.
   */
  lemma {:induction false} MovesGuarded(c: FallingChunk, k: nat, steps: nat, solid: IVec2 -> bool)
    requires k <= steps
    ensures forall j | k <= j < Moves(c, k, steps, solid) :: CanMove(Lowered(c, j), 0, -1, solid)
    ensures Moves(c, k, steps, solid) < steps ==> !CanMove(Lowered(c, Moves(c, k, steps, solid)), 0, -1, solid)
    decreases steps - k
  {
    if k < steps && CanMove(Lowered(c, k), 0, -1, solid) {
      MovesGuarded(c, k + 1, steps, solid);
    }
  }

  /** The result of the descent loop: lowered by the moves made, and stopped if it hit something. */
  function Descended(c: FallingChunk, steps: nat, solid: IVec2 -> bool): FallingChunk
  {
    var moved := Moves(c, 0, steps, solid);
    var d := Lowered(c, moved);
    if moved < steps then d.(velocityY := 0.0) else d
  }

  /** The descent loop of `update`: up to `steps` one-pixel moves, stopping the body when one is blocked. */
  method Descend(c: FallingChunk, steps: nat, solid: IVec2 -> bool) returns (d: FallingChunk, moved: nat)
    ensures moved == Moves(c, 0, steps, solid) && d == Descended(c, steps, solid)
  {
    d := c;
    moved := 0;
    var k := 0;
    while k < steps
      invariant k <= steps && moved == k && d == Lowered(c, k)
      invariant Moves(c, 0, steps, solid) == Moves(c, k, steps, solid)
    {
      var clear := CanMoveChunk(d, 0, -1, solid);
      if !clear {
        d := d.(velocityY := 0.0);
        return;
      }
      d := d.(centerY := d.centerY - 1.0);
      moved := moved + 1;
      k := k + 1;
    }
  }

  // ---------------------------------------------------------------------
  // One body, one frame

  /** The velocity after gravity, capped at the terminal velocity. */
  function Accelerated(v: real, dt: real): real
  {
    Max(v + GRAVITY * dt, TERMINAL_VELOCITY)
  }

  /** The number of one-pixel steps for a fall of -delta pixels. */
  function StepCount(delta: real): nat
    requires delta < 0.0
  {
    CeilBounds(-delta);
    Ceil(-delta)
  }

  /**
   * One body for one frame: gravity, then the descent when it moves down;
   * the flag says whether it settles (it made no move and is slow).
   */
  function Step(c: FallingChunk, dt: real, solid: IVec2 -> bool): (FallingChunk, bool)
  {
    var v := Accelerated(c.velocityY, dt);
    var delta := v * dt;
    if delta < 0.0 then Fall(c.(velocityY := v), StepCount(delta), solid) else (c.(velocityY := v), false)
  }

  /** The descent of a body moving down by `steps` pixels, and whether it settles. */
  function Fall(g: FallingChunk, steps: nat, solid: IVec2 -> bool): (FallingChunk, bool)
  {
    var d := Descended(g, steps, solid);
    (d, Moves(g, 0, steps, solid) == 0 && Abs(d.velocityY) < Abs(SETTLE_VELOCITY))
  }

  /**
   * A body settles exactly when it is moving down this frame and its first
   * one-pixel step is already blocked.
   */
  lemma SettlesIff(c: FallingChunk, dt: real, solid: IVec2 -> bool)
    ensures var v := Accelerated(c.velocityY, dt);
            Step(c, dt, solid).1 <==> v * dt < 0.0 && !CanMove(c.(velocityY := v), 0, -1, solid)
  {
    var v := Accelerated(c.velocityY, dt);
    var g := c.(velocityY := v);
    if v * dt < 0.0 {
      var steps := StepCount(v * dt);
      assert Lowered(g, 0) == g;
    }
  }

  /**
   * After a frame the velocity is the accelerated one, or 0 when the body
   * hit something, so never below the terminal velocity; the body keeps its
   * pixels, id and horizontal position and has not risen.
   */
  lemma StepKeeps(c: FallingChunk, dt: real, solid: IVec2 -> bool)
    ensures var d := Step(c, dt, solid).0;
            (d.velocityY == Accelerated(c.velocityY, dt) || d.velocityY == 0.0)
            && d.velocityY >= TERMINAL_VELOCITY
            && d.pixels == c.pixels && d.id == c.id && d.centerX == c.centerX && d.centerY <= c.centerY
  {
    var v := Accelerated(c.velocityY, dt);
    var g := c.(velocityY := v);
    if v * dt < 0.0 {
      var steps := StepCount(v * dt);
      var d := Descended(g, steps, solid);
      assert d.centerY == c.centerY - Moves(g, 0, steps, solid) as real;
    }
  }

  // ---------------------------------------------------------------------
  // The whole system

  /** The bodies that stay falling after one frame, each advanced, in order. */
  function Kept(cs: seq<FallingChunk>, dt: real, solid: IVec2 -> bool): seq<FallingChunk>
  {
    if cs == [] then []
    else
      var s := Step(cs[|cs| - 1], dt, solid);
      Kept(cs[..|cs| - 1], dt, solid) + (if s.1 then [] else [s.0])
  }

  /** The bodies that settle in one frame, in order. */
  function SettledOf(cs: seq<FallingChunk>, dt: real, solid: IVec2 -> bool): seq<FallingChunk>
  {
    if cs == [] then []
    else
      var s := Step(cs[|cs| - 1], dt, solid);
      SettledOf(cs[..|cs| - 1], dt, solid) + (if s.1 then [s.0] else [])
  }

  function IdSet(cs: seq<FallingChunk>): set<nat>
  {
    set i | 0 <= i < |cs| :: cs[i].id
  }

  predicate DistinctIds(cs: seq<FallingChunk>)
  {
    forall i, j | 0 <= i < j < |cs| :: cs[i].id != cs[j].id
  }

  /** One more body: it joins the kept list or the settled list. */
  lemma FrameStep(cs: seq<FallingChunk>, j: nat, dt: real, solid: IVec2 -> bool)
    requires j < |cs|
    ensures var s := Step(cs[j], dt, solid);
            Kept(cs[..j + 1], dt, solid) == Kept(cs[..j], dt, solid) + (if s.1 then [] else [s.0])
            && SettledOf(cs[..j + 1], dt, solid) == SettledOf(cs[..j], dt, solid) + (if s.1 then [s.0] else [])
  {
    assert cs[..j + 1][..j] == cs[..j];
  }

  /** Every body is either kept or settled. */
  lemma {:induction false} FrameSizes(cs: seq<FallingChunk>, dt: real, solid: IVec2 -> bool)
    ensures |Kept(cs, dt, solid)| + |SettledOf(cs, dt, solid)| == |cs|
    decreases |cs|
  {
    if cs != [] {
      FrameSizes(cs[..|cs| - 1], dt, solid);
    }
  }

  lemma IdSetAppend(cs: seq<FallingChunk>, c: FallingChunk)
    ensures IdSet(cs + [c]) == IdSet(cs) + {c.id}
  {
    assert forall i | 0 <= i < |cs| :: (cs + [c])[i] == cs[i];
    assert (cs + [c])[|cs|] == c;
  }

  /**
   * A frame splits the bodies: every id is kept or settled, none is both,
   * none is invented, and the kept ones still have distinct ids.
   */
  lemma {:induction false} FramePartitions(cs: seq<FallingChunk>, dt: real, solid: IVec2 -> bool)
    requires DistinctIds(cs)
    ensures IdSet(Kept(cs, dt, solid)) + IdSet(SettledOf(cs, dt, solid)) == IdSet(cs)
    ensures IdSet(Kept(cs, dt, solid)) !! IdSet(SettledOf(cs, dt, solid))
    ensures DistinctIds(Kept(cs, dt, solid))
    decreases |cs|
  {
    if cs != [] {
      var init, last := cs[..|cs| - 1], cs[|cs| - 1];
      FramePartitions(init, dt, solid);
      StepKeeps(last, dt, solid);
      var s := Step(last, dt, solid);
      var kept, settled := Kept(init, dt, solid), SettledOf(init, dt, solid);
      assert cs == init + [last];
      IdSetAppend(init, last);
      assert last.id !in IdSet(init);
      if s.1 {
        assert Kept(cs, dt, solid) == kept && SettledOf(cs, dt, solid) == settled + [s.0];
        IdSetAppend(settled, s.0);
      } else {
        assert Kept(cs, dt, solid) == kept + [s.0] && SettledOf(cs, dt, solid) == settled;
        IdSetAppend(kept, s.0);
        assert forall i | 0 <= i < |kept| :: kept[i].id in IdSet(kept);
      }
    }
  }

  /** A frame keeps ids distinct and below the next id, and leaves every kept body no faster than the terminal velocity. */
  lemma FrameKeepsValid(cs: seq<FallingChunk>, nextId: nat, dt: real, solid: IVec2 -> bool)
    requires DistinctIds(cs) && forall i | 0 <= i < |cs| :: cs[i].id < nextId
    ensures |Kept(cs, dt, solid)| + |SettledOf(cs, dt, solid)| == |cs|
    ensures DistinctIds(Kept(cs, dt, solid))
    ensures forall i | 0 <= i < |Kept(cs, dt, solid)| :: Kept(cs, dt, solid)[i].id < nextId
    ensures forall i | 0 <= i < |Kept(cs, dt, solid)| :: Kept(cs, dt, solid)[i].velocityY >= TERMINAL_VELOCITY
  {
    var kept := Kept(cs, dt, solid);
    FrameSizes(cs, dt, solid);
    FramePartitions(cs, dt, solid);
    KeptAboveTerminal(cs, dt, solid);
    forall k | 0 <= k < |kept|
      ensures kept[k].id < nextId
    {
      assert kept[k].id in IdSet(cs);
    }
  }

  /** Every kept body ends the frame no faster than the terminal velocity. */
  lemma {:induction false} KeptAboveTerminal(cs: seq<FallingChunk>, dt: real, solid: IVec2 -> bool)
    ensures forall i | 0 <= i < |Kept(cs, dt, solid)| :: Kept(cs, dt, solid)[i].velocityY >= TERMINAL_VELOCITY
    decreases |cs|
  {
    if cs != [] {
      KeptAboveTerminal(cs[..|cs| - 1], dt, solid);
      StepKeeps(cs[|cs| - 1], dt, solid);
    }
  }

  /** `get_render_data`: each body's centre and pixels. */
  function RenderData(cs: seq<FallingChunk>): (r: seq<(real, real, map<IVec2, U16>)>)
    ensures |r| == |cs|
    ensures forall i | 0 <= i < |cs| :: r[i] == (cs[i].centerX, cs[i].centerY, cs[i].pixels)
  {
    seq(|cs|, i requires 0 <= i < |cs| => (cs[i].centerX, cs[i].centerY, cs[i].pixels))
  }

  /** A body at rest centred on (cx, cy), its pixels re-keyed relative to the rounded centre. */
  function NewBody(pixels: map<IVec2, U16>, cx: real, cy: real, id: nat): (c: FallingChunk)
    ensures c.id == id && c.velocityY == 0.0 && c.centerX == cx && c.centerY == cy
  {
    FallingChunk(Relative(pixels, IVec2(Round(cx), Round(cy))), cx, cy, 0.0, id)
  }

  /**
   * A new body holds exactly the given pixels: one relative entry per pixel,
   * and its pixels put back around the rounded centre are the input.
   */
  lemma NewBodyHolds(pixels: map<IVec2, U16>, cx: real, cy: real, id: nat)
    ensures var c := NewBody(pixels, cx, cy, id);
            |c.pixels| == |pixels|
            && (forall q | q in c.pixels :: Offset(q, CenterCell(c).x, CenterCell(c).y) in pixels
                                            && pixels[Offset(q, CenterCell(c).x, CenterCell(c).y)] == c.pixels[q])
  {
    var ci := IVec2(Round(cx), Round(cy));
    assert CenterCell(NewBody(pixels, cx, cy, id)) == ci;
    RelativeSize(pixels, ci);
    RelativeRoundTrip(pixels, ci);
  }

  /** `FallingChunkSystem`: the falling bodies and the next id to hand out. */
  class FallingChunkSystem {
    var chunks: seq<FallingChunk>
    var nextId: nat

    /** Ids are distinct and all below the next id, so a new id is never one in use. */
    ghost predicate Valid()
      reads this
    {
      DistinctIds(chunks) && forall i | 0 <= i < |chunks| :: chunks[i].id < nextId
    }

    constructor()
      ensures chunks == [] && nextId == 0 && Valid()
    {
      chunks := [];
      nextId := 0;
    }

    /** `chunk_count`. */
    function ChunkCount(): nat
      reads this
    {
      |chunks|
    }

    /**
     * `create_chunk`: nothing for no pixels (id 0); otherwise a new body
     * under a fresh id (see NewBody).
     */
    method CreateChunk(pixels: map<IVec2, U16>) returns (id: nat)
      requires Valid()
      modifies this
      ensures Valid()
      ensures pixels == map[] ==> id == 0 && chunks == old(chunks) && nextId == old(nextId)
      ensures pixels != map[] ==>
                id == old(nextId) && nextId == old(nextId) + 1
                && chunks == old(chunks) + [NewBody(pixels, Mean(pixels.Keys, X), Mean(pixels.Keys, Y), id)]
      ensures pixels != map[] ==> ChunkCount() == old(ChunkCount()) + 1 && forall i | 0 <= i < |old(chunks)| :: old(chunks)[i].id != id
    {
      if pixels == map[] {
        return 0;
      }
      var cx, cy := CalculateCenter(pixels);
      id := nextId;
      nextId := nextId + 1;
      chunks := chunks + [NewBody(pixels, cx, cy, id)];
    }

    /**
     * `update`: every body falls for one frame; those that settle are
     * removed and returned in order, the rest stay in order.
     */
    method Update(dt: real, solid: IVec2 -> bool) returns (settled: seq<FallingChunk>)
      requires Valid()
      modifies this
      ensures Valid() && nextId == old(nextId)
      ensures chunks == Kept(old(chunks), dt, solid) && settled == SettledOf(old(chunks), dt, solid)
      ensures ChunkCount() == old(ChunkCount()) - |settled|
      ensures forall i | 0 <= i < |chunks| :: chunks[i].velocityY >= TERMINAL_VELOCITY
    {
      var orig := chunks;
      FrameKeepsValid(orig, nextId, dt, solid);
      var kept;
      kept, settled := Frame(orig, dt, solid);
      chunks := kept;
    }
  }

  /** The loop of `update` over the bodies, removing each one that settles. */
  method Frame(orig: seq<FallingChunk>, dt: real, solid: IVec2 -> bool) returns (cs: seq<FallingChunk>, settled: seq<FallingChunk>)
    ensures cs == Kept(orig, dt, solid) && settled == SettledOf(orig, dt, solid)
  {
    cs := orig;
    settled := [];
    var i := 0;
    while i < |cs|
      invariant i + |settled| <= |orig|
      invariant i <= |cs| && |cs| == |orig| - |settled|
      invariant cs[..i] == Kept(orig[..i + |settled|], dt, solid)
      invariant settled == SettledOf(orig[..i + |settled|], dt, solid)
      invariant cs[i..] == orig[i + |settled|..]
      decreases |cs| - i
    {
      var j := i + |settled|;
      FrameStep(orig, j, dt, solid);
      assert orig[j] == cs[i];
      var next, settles := StepChunk(cs[i], dt, solid);
      var rest := cs[i + 1..];
      assert rest == orig[j + 1..];
      if settles {
        settled := settled + [next];
        cs := cs[..i] + rest;
        assert cs[..i] == Kept(orig[..j + 1], dt, solid);
      } else {
        cs := cs[..i] + [next] + rest;
        assert cs[..i + 1] == Kept(orig[..j + 1], dt, solid);
        i := i + 1;
      }
    }
    assert orig[..|orig|] == orig;
    assert cs == cs[..i];
  }

  /** The loop body of `update` for one body. */
  method StepChunk(c: FallingChunk, dt: real, solid: IVec2 -> bool) returns (d: FallingChunk, settles: bool)
    ensures (d, settles) == Step(c, dt, solid)
  {
    var v := Accelerated(c.velocityY, dt);
    d := c.(velocityY := v);
    var delta := v * dt;
    settles := false;
    if delta < 0.0 {
      var steps := StepCount(delta);
      assert Step(c, dt, solid) == Fall(d, steps, solid);
      var moved;
      d, moved := Descend(d, steps, solid);
      settles := moved == 0 && Abs(d.velocityY) < Abs(SETTLE_VELOCITY);
    }
  }
}
