/**
 * Structural integrity: when a structural pixel is removed, each of its four
 * neighbours that is a structural solid is flood-filled (four-connected,
 * limited to 64 pixels from where the fill started); a region with no bedrock
 * in it falls: below 50 pixels it turns into sand, otherwise it is handed
 * over as rigid-body debris.
 *
 * The world is passed as its chunk map and material table. The rigid-body
 * hand-off (`create_debris`) is not part of this model: the regions handed
 * over are returned and their pixels are left as they were.
 */
module Structural {
  import opened Wrappers
  import opened Ints
  import opened Chunks
  import opened WorldGrid
  import M = Materials

  const MAX_FLOOD_FILL_RADIUS: nat := 64
  const SMALL_DEBRIS_THRESHOLD: nat := 50

  /** A loaded, non-empty pixel whose material is structural and solid. */
  predicate IsStructuralSolid(chunks: ChunkMap, mats: seq<M.MaterialDef>, p: IVec2)
  {
    var px := GetPixel(chunks, p.x, p.y);
    |mats| > 0 && px.Some? && !IsEmpty(px.value)
    && M.Lookup(mats, px.value.material).structural
    && M.Lookup(mats, px.value.material).materialType == M.Solid
  }

  /** The four neighbours, in the order the source visits them: above, right, below, left. */
  function Neighbours4(p: IVec2): seq<IVec2>
  {
    [IVec2(p.x, p.y + 1), IVec2(p.x + 1, p.y), IVec2(p.x, p.y - 1), IVec2(p.x - 1, p.y)]
  }

  predicate Adjacent(p: IVec2, q: IVec2)
  {
    (p.x == q.x && (q.y == p.y + 1 || q.y == p.y - 1)) || (p.y == q.y && (q.x == p.x + 1 || q.x == p.x - 1))
  }

  lemma NeighboursAreAdjacent(p: IVec2, q: IVec2)
    ensures Adjacent(p, q) <==> q in Neighbours4(p)
  {
  }

  /** Chebyshev distance, the largest coordinate difference. */
  function Cheb(p: IVec2, o: IVec2): nat
  {
    Max(Abs(p.x - o.x), Abs(p.y - o.y))
  }

  /**
   * A path the flood fill can follow from `o`: structural solids only, each
   * step to a four-neighbour, and every position it steps out of within the
   * radius of `o`.
   */
  ghost predicate IsPath(solid: IVec2 -> bool, o: IVec2, ps: seq<IVec2>)
  {
    |ps| > 0 && ps[0] == o
    && (forall i | 0 <= i < |ps| :: solid(ps[i]))
    && (forall i | 0 <= i < |ps| - 1 :: Cheb(ps[i], o) <= MAX_FLOOD_FILL_RADIUS && Adjacent(ps[i], ps[i + 1]))
  }

  ghost predicate Reachable(solid: IVec2 -> bool, o: IVec2, p: IVec2)
  {
    exists ps :: IsPath(solid, o, ps) && ps[|ps| - 1] == p
  }

  /** The positions within Chebyshev distance 65 of `o`: every position a fill from `o` can reach. */
  ghost function Box(o: IVec2): set<IVec2>
  {
    set x: int, y: int | o.x - MAX_FLOOD_FILL_RADIUS - 1 <= x <= o.x + MAX_FLOOD_FILL_RADIUS + 1
                         && o.y - MAX_FLOOD_FILL_RADIUS - 1 <= y <= o.y + MAX_FLOOD_FILL_RADIUS + 1 :: IVec2(x, y)
  }

  /** The positions reachable from `o`: the region the fill from `o` finds. */
  ghost function Region(solid: IVec2 -> bool, o: IVec2): set<IVec2>
  {
    set p | p in Box(o) && Reachable(solid, o, p)
  }

  lemma InBox(p: IVec2, o: IVec2)
    requires Cheb(p, o) <= MAX_FLOOD_FILL_RADIUS + 1
    ensures p in Box(o)
  {
    assert p == IVec2(p.x, p.y);
  }

  /** Reachable positions are structural solids, at most 65 from the start, and the start is reachable iff it is a structural solid. */
  lemma ReachableFacts(solid: IVec2 -> bool, o: IVec2, p: IVec2)
    ensures Reachable(solid, o, p) ==> solid(p)
    ensures Reachable(solid, o, p) ==> Cheb(p, o) <= MAX_FLOOD_FILL_RADIUS + 1
    ensures Reachable(solid, o, p) ==> solid(o)
    ensures Reachable(solid, o, o) <==> solid(o)
  {
    if Reachable(solid, o, p) {
      var ps :| IsPath(solid, o, ps) && ps[|ps| - 1] == p;
      assert ps[0] == o;
      if |ps| > 1 {
        assert Cheb(ps[|ps| - 2], o) <= MAX_FLOOD_FILL_RADIUS && Adjacent(ps[|ps| - 2], ps[|ps| - 1]);
      }
    }
    if solid(o) {
      assert IsPath(solid, o, [o]);
    }
  }

  /** Reachability is closed under stepping from a position within the radius to a structural neighbour. */
  lemma ReachableStep(solid: IVec2 -> bool, o: IVec2, p: IVec2, q: IVec2)
    requires Reachable(solid, o, p) && Cheb(p, o) <= MAX_FLOOD_FILL_RADIUS
    requires Adjacent(p, q) && solid(q)
    ensures Reachable(solid, o, q)
  {
    var ps :| IsPath(solid, o, ps) && ps[|ps| - 1] == p;
    PathExtend(solid, o, ps, q);
  }

  lemma PathExtend(solid: IVec2 -> bool, o: IVec2, ps: seq<IVec2>, q: IVec2)
    requires IsPath(solid, o, ps) && Cheb(ps[|ps| - 1], o) <= MAX_FLOOD_FILL_RADIUS
    requires Adjacent(ps[|ps| - 1], q) && solid(q)
    ensures IsPath(solid, o, ps + [q]) && (ps + [q])[|ps + [q]| - 1] == q
  {
    var qs := ps + [q];
    assert forall i | 0 <= i < |ps| :: qs[i] == ps[i];
  }

  /** A set holding `o` that is closed under the fill's step holds every reachable position. */
  lemma {:induction false} PathInClosed(solid: IVec2 -> bool, o: IVec2, s: set<IVec2>, ps: seq<IVec2>)
    requires o in s
    requires forall p | p in s && Cheb(p, o) <= MAX_FLOOD_FILL_RADIUS :: NeighboursIn(solid, p, s)
    requires IsPath(solid, o, ps)
    ensures ps[|ps| - 1] in s
    decreases |ps|
  {
    if |ps| > 1 {
      var init := ps[..|ps| - 1];
      assert IsPath(solid, o, init);
      PathInClosed(solid, o, s, init);
      var p, q := ps[|ps| - 2], ps[|ps| - 1];
      assert Cheb(p, o) <= MAX_FLOOD_FILL_RADIUS && Adjacent(p, q);
      NeighboursAreAdjacent(p, q);
      var k :| 0 <= k < 4 && Neighbours4(p)[k] == q;
    }
  }

  lemma ProperSubsetCard(box: set<IVec2>, a: set<IVec2>, b: set<IVec2>)
    requires a <= b <= box && a != b
    ensures |box - b| < |box - a|
  {
    var n :| n in b && n !in a;
    var c, d := box - a, box - b;
    assert d <= c - {n};
    var e := c - {n};
    assert e == d + (e - d) && d * (e - d) == {};
    assert |e| == |c| - 1;
  }

  lemma RegionIsReachable(solid: IVec2 -> bool, o: IVec2)
    ensures forall p :: p in Region(solid, o) <==> Reachable(solid, o, p)
  {
    forall p | Reachable(solid, o, p)
      ensures p in Box(o)
    {
      ReachableFacts(solid, o, p);
      InBox(p, o);
    }
  }

  /** Every neighbour of `p` that `solid` accepts is in `s`. */
  ghost predicate NeighboursIn(solid: IVec2 -> bool, p: IVec2, s: set<IVec2>)
  {
    forall k | 0 <= k < 4 :: solid(Neighbours4(p)[k]) ==> Neighbours4(p)[k] in s
  }

  /** Every visited position is reachable from `o`. */
  ghost predicate Sound(solid: IVec2 -> bool, o: IVec2, visited: set<IVec2>)
  {
    forall p | p in visited :: Reachable(solid, o, p)
  }

  /** Every visited position no longer queued and within the radius has its accepted neighbours visited. */
  ghost predicate ClosedExcept(solid: IVec2 -> bool, o: IVec2, visited: set<IVec2>, queue: seq<IVec2>)
  {
    forall p | p in visited && p !in queue && Cheb(p, o) <= MAX_FLOOD_FILL_RADIUS :: NeighboursIn(solid, p, visited)
  }

  lemma ClosedAfterVisit(solid: IVec2 -> bool, o: IVec2, v: set<IVec2>, q0: seq<IVec2>, v': set<IVec2>, q': seq<IVec2>)
    requires q0 != [] && ClosedExcept(solid, o, v, q0) && v <= v'
    requires forall p | p in q0[1..] :: p in q'
    requires forall p | p in v' - v :: p in q'
    requires v' == v || Cheb(q0[0], o) <= MAX_FLOOD_FILL_RADIUS
    requires Cheb(q0[0], o) <= MAX_FLOOD_FILL_RADIUS ==> NeighboursIn(solid, q0[0], v')
    ensures ClosedExcept(solid, o, v', q')
  {
    forall p | p in v' && p !in q' && Cheb(p, o) <= MAX_FLOOD_FILL_RADIUS
      ensures NeighboursIn(solid, p, v')
    {
    }
  }

  /** Visiting an accepted neighbour of a visited position within the radius keeps the visited set sound. */
  lemma SoundAdd(solid: IVec2 -> bool, o: IVec2, visited: set<IVec2>, pos: IVec2, k: nat)
    requires Sound(solid, o, visited) && visited <= Box(o)
    requires pos in visited && Cheb(pos, o) <= MAX_FLOOD_FILL_RADIUS && k < 4 && solid(Neighbours4(pos)[k])
    ensures Sound(solid, o, visited + {Neighbours4(pos)[k]})
    ensures visited + {Neighbours4(pos)[k]} <= Box(o)
  {
    var n := Neighbours4(pos)[k];
    NeighboursAreAdjacent(pos, n);
    ReachableStep(solid, o, pos, n);
    ReachableFacts(solid, o, n);
    InBox(n, o);
  }

  /**
   * One round of the inner loop of the fill: every accepted neighbour of
   * `pos` not yet visited is marked visited and queued, in neighbour order.
   */
  method VisitNeighbours(solid: IVec2 -> bool, o: IVec2, pos: IVec2, visited: set<IVec2>, queue: seq<IVec2>)
    returns (visited': set<IVec2>, queue': seq<IVec2>)
    requires pos in visited && visited <= Box(o) && Cheb(pos, o) <= MAX_FLOOD_FILL_RADIUS
    requires Sound(solid, o, visited)
    ensures visited <= visited' <= Box(o)
    ensures visited' == visited ==> queue' == queue
    ensures forall p | p in queue :: p in queue'
    ensures forall p | p in queue' :: p in queue || p in visited' - visited
    ensures forall p | p in visited' - visited :: p in queue'
    ensures Sound(solid, o, visited')
    ensures NeighboursIn(solid, pos, visited')
  {
    visited', queue' := visited, queue;
    for k := 0 to 4
      invariant visited <= visited' <= Box(o)
      invariant visited' == visited ==> queue' == queue
      invariant forall p | p in queue :: p in queue'
      invariant forall p | p in queue' :: p in queue || p in visited' - visited
      invariant forall p | p in visited' - visited :: p in queue'
      invariant Sound(solid, o, visited')
      invariant forall j | 0 <= j < k :: solid(Neighbours4(pos)[j]) ==> Neighbours4(pos)[j] in visited'
    {
      var n := Neighbours4(pos)[k];
      if n !in visited' && solid(n) {
        SoundAdd(solid, o, visited', pos, k);
        visited' := visited' + {n};
        queue' := queue' + [n];
      }
    }
  }

  /**
   * The breadth-first fill of `flood_fill_structural` over the positions
   * `solid` accepts, from `o`, not stepping out of positions further than 64
   * from `o`. The result is empty unless `o` is accepted, and is then exactly
   * the set of positions reachable from `o`.
   */
  method Fill(solid: IVec2 -> bool, o: IVec2) returns (visited: set<IVec2>)
    ensures !solid(o) ==> visited == {}
    ensures solid(o) ==> o in visited
    ensures forall p | p in visited :: solid(p) && Cheb(p, o) <= MAX_FLOOD_FILL_RADIUS + 1
    ensures forall p | p in visited && Cheb(p, o) <= MAX_FLOOD_FILL_RADIUS ::
              forall k | 0 <= k < 4 :: solid(Neighbours4(p)[k]) ==> Neighbours4(p)[k] in visited
    ensures forall p :: p in visited <==> Reachable(solid, o, p)
    ensures visited == Region(solid, o)
  {
    visited := {};
    if !solid(o) {
      forall p ensures !Reachable(solid, o, p) {
        ReachableFacts(solid, o, p);
      }
      return;
    }
    var queue := [o];
    visited := {o};
    ReachableFacts(solid, o, o);
    InBox(o, o);
    while queue != []
      invariant o in visited && visited <= Box(o)
      invariant Sound(solid, o, visited)
      invariant forall p | p in queue :: p in visited
      invariant ClosedExcept(solid, o, visited, queue)
      decreases |Box(o) - visited|, |queue|
    {
      ghost var v0, q0 := visited, queue;
      var pos := queue[0];
      queue := queue[1..];
      if Cheb(pos, o) > MAX_FLOOD_FILL_RADIUS {
        ClosedAfterVisit(solid, o, v0, q0, visited, queue);
        continue;
      }
      visited, queue := VisitNeighbours(solid, o, pos, visited, queue);
      ClosedAfterVisit(solid, o, v0, q0, visited, queue);
      if visited != v0 {
        ProperSubsetCard(Box(o), v0, visited);
      }
    }
    ClosedIsRegion(solid, o, visited);
  }

  /** A sound visited set containing `o` with no position left to expand is the region of `o`. */
  lemma ClosedIsRegion(solid: IVec2 -> bool, o: IVec2, visited: set<IVec2>)
    requires o in visited && Sound(solid, o, visited) && ClosedExcept(solid, o, visited, [])
    ensures forall p | p in visited :: solid(p) && Cheb(p, o) <= MAX_FLOOD_FILL_RADIUS + 1
    ensures forall p | p in visited && Cheb(p, o) <= MAX_FLOOD_FILL_RADIUS :: NeighboursIn(solid, p, visited)
    ensures forall p :: p in visited <==> Reachable(solid, o, p)
    ensures visited == Region(solid, o)
  {
    forall p | Reachable(solid, o, p)
      ensures p in visited
    {
      var ps :| IsPath(solid, o, ps) && ps[|ps| - 1] == p;
      PathInClosed(solid, o, visited, ps);
    }
    forall p | p in visited
      ensures solid(p) && Cheb(p, o) <= MAX_FLOOD_FILL_RADIUS + 1
    {
      ReachableFacts(solid, o, p);
    }
    RegionIsReachable(solid, o);
  }

  /** `flood_fill_structural`: the fill over the world's structural solids. */
  method FloodFill(chunks: ChunkMap, mats: seq<M.MaterialDef>, o: IVec2) returns (region: set<IVec2>)
    ensures !IsStructuralSolid(chunks, mats, o) ==> region == {}
    ensures IsStructuralSolid(chunks, mats, o) ==> o in region
    ensures forall p | p in region :: IsStructuralSolid(chunks, mats, p) && Cheb(p, o) <= MAX_FLOOD_FILL_RADIUS + 1
    ensures forall p | p in region && Cheb(p, o) <= MAX_FLOOD_FILL_RADIUS ::
              forall k | 0 <= k < 4 :: IsStructuralSolid(chunks, mats, Neighbours4(p)[k]) ==> Neighbours4(p)[k] in region
    ensures forall p :: p in region <==> Reachable(StructuralAt(chunks, mats), o, p)
    ensures region == Region(StructuralAt(chunks, mats), o)
  {
    region := Fill(StructuralAt(chunks, mats), o);
  }

  function StructuralAt(chunks: ChunkMap, mats: seq<M.MaterialDef>): IVec2 -> bool
  {
    p => IsStructuralSolid(chunks, mats, p)
  }

  /** The pixel is loaded and holds bedrock. */
  predicate HoldsBedrock(chunks: ChunkMap, p: IVec2)
  {
    var px := GetPixel(chunks, p.x, p.y);
    px.Some? && px.value.material == M.BEDROCK
  }

  /** Some pixel of the region holds bedrock. */
  ghost predicate Anchored(chunks: ChunkMap, region: set<IVec2>)
  {
    exists p | p in region :: HoldsBedrock(chunks, p)
  }

  /** `is_region_anchored`: some pixel of the region holds bedrock. */
  method IsRegionAnchored(chunks: ChunkMap, region: set<IVec2>) returns (anchored: bool)
    ensures anchored <==> exists p | p in region :: HoldsBedrock(chunks, p)
  {
    var rest := region;
    while rest != {}
      invariant rest <= region
      invariant forall p | p in region - rest :: !HoldsBedrock(chunks, p)
      decreases |rest|
    {
      var p :| p in rest;
      if HoldsBedrock(chunks, p) {
        return true;
      }
      rest := rest - {p};
    }
    return false;
  }

  /** The pixel at (x, y) once the positions in `done` have become sand. */
  function SandedPixel(chunks: ChunkMap, done: set<IVec2>, x: int, y: int): Option<Pixel>
  {
    if IVec2(x, y) in done && GetPixel(chunks, x, y).Some? then Some(NewPixel(M.SAND)) else GetPixel(chunks, x, y)
  }

  /** `r` is `chunks` with every loaded pixel of `done` turned into plain sand. */
  ghost predicate SandedOver(r: ChunkMap, chunks: ChunkMap, done: set<IVec2>)
  {
    forall x, y :: GetPixel(r, x, y) == SandedPixel(chunks, done, x, y)
  }

  lemma SandStep(r: ChunkMap, chunks: ChunkMap, done: set<IVec2>, p: IVec2)
    requires r.Keys == chunks.Keys && SandedOver(r, chunks, done)
    ensures SandedOver(SetPixel(r, p.x, p.y, M.SAND), chunks, done + {p})
  {
    forall x, y
      ensures GetPixel(SetPixel(r, p.x, p.y, M.SAND), x, y) == SandedPixel(chunks, done + {p}, x, y)
    {
      SandStepAt(r, chunks, done, p, x, y);
    }
  }

  /** Turning `p` to sand settles the pixel at (x, y) for `done + {p}`. */
  lemma SandStepAt(r: ChunkMap, chunks: ChunkMap, done: set<IVec2>, p: IVec2, x: int, y: int)
    requires r.Keys == chunks.Keys && GetPixel(r, x, y) == SandedPixel(chunks, done, x, y)
    ensures GetPixel(SetPixel(r, p.x, p.y, M.SAND), x, y) == SandedPixel(chunks, done + {p}, x, y)
  {
    SetPixelEffect(r, p.x, p.y, M.SAND);
    if x == p.x && y == p.y {
      assert IVec2(x, y) == p;
      assert GetPixel(r, x, y).Some? <==> GetPixel(chunks, x, y).Some?;
    } else {
      assert IVec2(x, y) != p;
    }
  }

  /** `convert_to_particles`: every loaded pixel of the region becomes plain sand; nothing else changes. */
  method ConvertToParticles(chunks: ChunkMap, region: set<IVec2>) returns (r: ChunkMap)
    ensures r.Keys == chunks.Keys
    ensures forall x, y :: GetPixel(r, x, y) == SandedPixel(chunks, region, x, y)
  {
    r := chunks;
    var rest := region;
    while rest != {}
      invariant rest <= region
      invariant r.Keys == chunks.Keys
      invariant SandedOver(r, chunks, region - rest)
      decreases |rest|
    {
      var p :| p in rest;
      SandStep(r, chunks, region - rest, p);
      assert region - rest + {p} == region - (rest - {p});
      r := SetPixel(r, p.x, p.y, M.SAND);
      rest := rest - {p};
    }
    assert region - rest == region;
  }

  /** The region a fill from `o` finds in this world. */
  ghost function FillRegion(chunks: ChunkMap, mats: seq<M.MaterialDef>, o: IVec2): set<IVec2>
  {
    Region(StructuralAt(chunks, mats), o)
  }

  /**
   * One neighbour of `check_position`: when `n` holds a structural solid, its
   * region is filled; a region without bedrock turns into sand below 50
   * pixels and is handed over as debris otherwise; anything else leaves the
   * world as it is.
   */
  method CheckNeighbour(chunks: ChunkMap, mats: seq<M.MaterialDef>, n: IVec2) returns (r: ChunkMap, debris: Option<set<IVec2>>)
    ensures r.Keys == chunks.Keys
    ensures !IsStructuralSolid(chunks, mats, n) ==> r == chunks && debris == None
    ensures var region := FillRegion(chunks, mats, n);
      IsStructuralSolid(chunks, mats, n) && Anchored(chunks, region) ==> r == chunks && debris == None
    ensures var region := FillRegion(chunks, mats, n);
      IsStructuralSolid(chunks, mats, n) && !Anchored(chunks, region) && |region| < SMALL_DEBRIS_THRESHOLD ==>
        SandedOver(r, chunks, region) && debris == None
    ensures var region := FillRegion(chunks, mats, n);
      IsStructuralSolid(chunks, mats, n) && !Anchored(chunks, region) && |region| >= SMALL_DEBRIS_THRESHOLD ==>
        r == chunks && debris == Some(region)
    ensures OnlySanded(chunks, mats, r)
    ensures ChangedWithin(chunks, r, n, MAX_FLOOD_FILL_RADIUS + 1)
    ensures debris.Some? ==> IsDebris(chunks, mats, debris.value) && forall p | p in debris.value :: Cheb(p, n) <= MAX_FLOOD_FILL_RADIUS + 1
  {
    r, debris := chunks, None;
    if !IsStructuralSolid(chunks, mats, n) {
      return;
    }
    var region := FloodFill(chunks, mats, n);
    var anchored := IsRegionAnchored(chunks, region);
    OnlySandedRefl(chunks, mats);
    if !anchored {
      RegionFacts(chunks, mats, n);
      if |region| < SMALL_DEBRIS_THRESHOLD {
        r := ConvertToParticles(chunks, region);
        CheckNeighbourEffect(chunks, mats, n, r);
      } else {
        debris := Some(region);
      }
    }
  }

  /**
   * What a structural check may do to the world: the loaded chunks stay, and
   * a pixel either keeps its value or was a structural solid other than
   * bedrock and is now plain sand.
   */
  ghost predicate OnlySanded(chunks: ChunkMap, mats: seq<M.MaterialDef>, r: ChunkMap)
  {
    r.Keys == chunks.Keys
    && forall x, y :: GetPixel(r, x, y) == GetPixel(chunks, x, y)
         || (IsStructuralSolid(chunks, mats, IVec2(x, y)) && !HoldsBedrock(chunks, IVec2(x, y))
             && GetPixel(r, x, y) == Some(NewPixel(M.SAND)))
  }

  /** Every pixel that differs between the two worlds is within `d` of one of `centres`. */
  ghost predicate ChangedNear(chunks: ChunkMap, r: ChunkMap, centres: set<IVec2>, d: nat)
  {
    forall x, y | GetPixel(r, x, y) != GetPixel(chunks, x, y) :: exists c | c in centres :: Cheb(IVec2(x, y), c) <= d
  }

  /** A handed-over region: at least 50 structural solids, none of them bedrock. */
  ghost predicate IsDebris(chunks: ChunkMap, mats: seq<M.MaterialDef>, region: set<IVec2>)
  {
    |region| >= SMALL_DEBRIS_THRESHOLD
    && forall p | p in region :: IsStructuralSolid(chunks, mats, p) && !HoldsBedrock(chunks, p)
  }

  /** The region a fill finds holds structural solids only, all within 65 of its start. */
  lemma RegionFacts(chunks: ChunkMap, mats: seq<M.MaterialDef>, n: IVec2)
    ensures forall p | p in FillRegion(chunks, mats, n) :: IsStructuralSolid(chunks, mats, p) && Cheb(p, n) <= MAX_FLOOD_FILL_RADIUS + 1
  {
    var solid := StructuralAt(chunks, mats);
    RegionIsReachable(solid, n);
    forall p | p in FillRegion(chunks, mats, n)
      ensures IsStructuralSolid(chunks, mats, p) && Cheb(p, n) <= MAX_FLOOD_FILL_RADIUS + 1
    {
      ReachableFacts(solid, n, p);
    }
  }

  /** A position within 65 of a neighbour of `c` is within 66 of `c`. */
  lemma ChebNeighbour(p: IVec2, c: IVec2, k: nat)
    requires k < 4
    ensures Cheb(p, Neighbours4(c)[k]) <= MAX_FLOOD_FILL_RADIUS + 1 ==> Cheb(p, c) <= MAX_FLOOD_FILL_RADIUS + 2
  {
  }

  lemma OnlySandedRefl(chunks: ChunkMap, mats: seq<M.MaterialDef>)
    ensures OnlySanded(chunks, mats, chunks)
  {
  }

  /** Two rounds of sanding are one: the relation is transitive, and bedrock never changes. */
  lemma OnlySandedTrans(c0: ChunkMap, c1: ChunkMap, c2: ChunkMap, mats: seq<M.MaterialDef>)
    requires OnlySanded(c0, mats, c1) && OnlySanded(c1, mats, c2)
    ensures OnlySanded(c0, mats, c2)
  {
    forall x, y
      ensures GetPixel(c2, x, y) == GetPixel(c0, x, y)
              || (IsStructuralSolid(c0, mats, IVec2(x, y)) && !HoldsBedrock(c0, IVec2(x, y))
                  && GetPixel(c2, x, y) == Some(NewPixel(M.SAND)))
    {
      var p := IVec2(x, y);
      assert GetPixel(c1, p.x, p.y) == GetPixel(c1, x, y);
      if GetPixel(c1, x, y) == GetPixel(c0, x, y) {
        assert IsStructuralSolid(c1, mats, p) == IsStructuralSolid(c0, mats, p);
        assert HoldsBedrock(c1, p) == HoldsBedrock(c0, p);
      }
    }
  }

  /** Sanding never creates or removes bedrock, so a position holds bedrock before iff after. */
  lemma OnlySandedBedrock(chunks: ChunkMap, mats: seq<M.MaterialDef>, r: ChunkMap, p: IVec2)
    requires OnlySanded(chunks, mats, r)
    ensures HoldsBedrock(r, p) <==> HoldsBedrock(chunks, p)
    ensures GetPixel(r, p.x, p.y) != GetPixel(chunks, p.x, p.y) ==> IsStructuralSolid(chunks, mats, p)
    ensures IsStructuralSolid(r, mats, p) ==> IsStructuralSolid(chunks, mats, p)
  {
    assert IVec2(p.x, p.y) == p;
  }

  /** One neighbour's step only sands structural solids of an unanchored region, which lie within 65 of the neighbour. */
  lemma CheckNeighbourEffect(chunks: ChunkMap, mats: seq<M.MaterialDef>, n: IVec2, r: ChunkMap)
    requires r.Keys == chunks.Keys
    requires IsStructuralSolid(chunks, mats, n)
    requires !Anchored(chunks, FillRegion(chunks, mats, n))
    requires SandedOver(r, chunks, FillRegion(chunks, mats, n))
    ensures OnlySanded(chunks, mats, r)
    ensures forall x, y | GetPixel(r, x, y) != GetPixel(chunks, x, y) :: Cheb(IVec2(x, y), n) <= MAX_FLOOD_FILL_RADIUS + 1
  {
    RegionFacts(chunks, mats, n);
  }

  /** Every pixel that differs between the two worlds is within `d` of `c`. */
  ghost predicate ChangedWithin(chunks: ChunkMap, r: ChunkMap, c: IVec2, d: nat)
  {
    forall x, y | GetPixel(r, x, y) != GetPixel(chunks, x, y) :: Cheb(IVec2(x, y), c) <= d
  }

  /** Every region handed over is debris of the original world within `d` of `c`. */
  ghost predicate DebrisWithin(chunks: ChunkMap, mats: seq<M.MaterialDef>, debris: seq<set<IVec2>>, c: IVec2, d: nat)
  {
    forall i | 0 <= i < |debris| :: IsDebris(chunks, mats, debris[i]) && forall p | p in debris[i] :: Cheb(p, c) <= d
  }

  /** The guarantees of `check_position` after the first `k` neighbours of `c` have been handled. */
  ghost predicate CheckedSoFar(chunks: ChunkMap, mats: seq<M.MaterialDef>, c: IVec2, k: nat, r: ChunkMap, debris: seq<set<IVec2>>)
  {
    OnlySanded(chunks, mats, r)
    && ChangedWithin(chunks, r, c, MAX_FLOOD_FILL_RADIUS + 2)
    && |debris| <= k
    && DebrisWithin(chunks, mats, debris, c, MAX_FLOOD_FILL_RADIUS + 2)
  }

  lemma ChangedStep(chunks: ChunkMap, r: ChunkMap, r': ChunkMap, c: IVec2, k: nat)
    requires k < 4
    requires ChangedWithin(chunks, r, c, MAX_FLOOD_FILL_RADIUS + 2)
    requires ChangedWithin(r, r', Neighbours4(c)[k], MAX_FLOOD_FILL_RADIUS + 1)
    ensures ChangedWithin(chunks, r', c, MAX_FLOOD_FILL_RADIUS + 2)
  {
    forall x, y | GetPixel(r', x, y) != GetPixel(chunks, x, y)
      ensures Cheb(IVec2(x, y), c) <= MAX_FLOOD_FILL_RADIUS + 2
    {
      ChebNeighbour(IVec2(x, y), c, k);
    }
  }

  /** Debris found after earlier sanding is also debris of the original world. */
  lemma DebrisKept(chunks: ChunkMap, mats: seq<M.MaterialDef>, r: ChunkMap, region: set<IVec2>)
    requires OnlySanded(chunks, mats, r) && IsDebris(r, mats, region)
    ensures IsDebris(chunks, mats, region)
  {
    forall p | p in region
      ensures IsStructuralSolid(chunks, mats, p) && !HoldsBedrock(chunks, p)
    {
      OnlySandedBedrock(chunks, mats, r, p);
    }
  }

  lemma DebrisOfOriginal(chunks: ChunkMap, mats: seq<M.MaterialDef>, r: ChunkMap, c: IVec2, k: nat, region: set<IVec2>)
    requires k < 4 && OnlySanded(chunks, mats, r)
    requires IsDebris(r, mats, region) && forall p | p in region :: Cheb(p, Neighbours4(c)[k]) <= MAX_FLOOD_FILL_RADIUS + 1
    ensures IsDebris(chunks, mats, region) && forall p | p in region :: Cheb(p, c) <= MAX_FLOOD_FILL_RADIUS + 2
  {
    DebrisKept(chunks, mats, r, region);
    forall p | p in region
      ensures Cheb(p, c) <= MAX_FLOOD_FILL_RADIUS + 2
    {
      ChebNeighbour(p, c, k);
    }
  }

  lemma DebrisAppend(chunks: ChunkMap, mats: seq<M.MaterialDef>, debris: seq<set<IVec2>>, c: IVec2, d: nat, region: set<IVec2>)
    requires DebrisWithin(chunks, mats, debris, c, d)
    requires IsDebris(chunks, mats, region) && forall p | p in region :: Cheb(p, c) <= d
    ensures DebrisWithin(chunks, mats, debris + [region], c, d)
  {
    var debris' := debris + [region];
    assert forall i | 0 <= i < |debris| :: debris'[i] == debris[i];
  }

  /**
   * The outcome of one neighbour `n` of `check_position` on `chunks`: `r` is
   * the world it leaves and `d` the regions it hands over as debris. A
   * structural solid at `n` whose region holds no bedrock becomes sand when
   * the region has fewer than 50 pixels and is handed over whole otherwise;
   * in every other case nothing happens.
   */
  ghost predicate NeighbourStep(chunks: ChunkMap, mats: seq<M.MaterialDef>, n: IVec2, r: ChunkMap, d: seq<set<IVec2>>)
  {
    var region := FillRegion(chunks, mats, n);
    r.Keys == chunks.Keys
    && if IsStructuralSolid(chunks, mats, n) && !Anchored(chunks, region) then
         if |region| < SMALL_DEBRIS_THRESHOLD then SandedOver(r, chunks, region) && d == []
         else r == chunks && d == [region]
       else r == chunks && d == []
  }

  /** The lists of `parts`, one after the other. */
  function Concat<T>(parts: seq<seq<T>>): seq<T>
  {
    if parts == [] then [] else Concat(parts[..|parts| - 1]) + parts[|parts| - 1]
  }

  lemma ConcatAppend<T>(parts: seq<seq<T>>, more: seq<T>)
    ensures Concat(parts + [more]) == Concat(parts) + more
  {
    assert (parts + [more])[..|parts|] == parts;
  }

  /**
   * `worlds` and `parts` trace the neighbours `ns` handled in order, each on
   * the world the previous one left: `worlds[i + 1]` and `parts[i]` are the
   * outcome of neighbour `ns[i]` on `worlds[i]`.
   */
  ghost predicate CheckTrace(chunks: ChunkMap, mats: seq<M.MaterialDef>, ns: seq<IVec2>, worlds: seq<ChunkMap>, parts: seq<seq<set<IVec2>>>)
  {
    |worlds| == |ns| + 1 && |parts| == |ns| && worlds[0] == chunks
    && forall i | 0 <= i < |ns| :: NeighbourStep(worlds[i], mats, ns[i], worlds[i + 1], parts[i])
  }

  lemma CheckTraceExtend(chunks: ChunkMap, mats: seq<M.MaterialDef>, ns: seq<IVec2>, worlds: seq<ChunkMap>, parts: seq<seq<set<IVec2>>>,
                         n: IVec2, r: ChunkMap, d: seq<set<IVec2>>)
    requires CheckTrace(chunks, mats, ns, worlds, parts) && NeighbourStep(worlds[|ns|], mats, n, r, d)
    ensures CheckTrace(chunks, mats, ns + [n], worlds + [r], parts + [d])
  {
    var ns', worlds', parts' := ns + [n], worlds + [r], parts + [d];
    forall i | 0 <= i < |ns'|
      ensures NeighbourStep(worlds'[i], mats, ns'[i], worlds'[i + 1], parts'[i])
    {
      if i < |ns| {
        assert worlds'[i] == worlds[i] && worlds'[i + 1] == worlds[i + 1] && ns'[i] == ns[i] && parts'[i] == parts[i];
      }
    }
  }

  lemma CheckTracePrefix(chunks: ChunkMap, mats: seq<M.MaterialDef>, ns: seq<IVec2>, k: nat, worlds: seq<ChunkMap>, parts: seq<seq<set<IVec2>>>,
                         r: ChunkMap, d: seq<set<IVec2>>)
    requires k < |ns| && CheckTrace(chunks, mats, ns[..k], worlds, parts) && NeighbourStep(worlds[k], mats, ns[k], r, d)
    ensures CheckTrace(chunks, mats, ns[..k + 1], worlds + [r], parts + [d])
  {
    CheckTraceExtend(chunks, mats, ns[..k], worlds, parts, ns[k], r, d);
    assert ns[..k + 1] == ns[..k] + [ns[k]];
  }

  /**
   * What `check_position` promises about the neighbour above the removed
   * pixel (`above`, checked first): an unanchored small region is sand, and
   * an unanchored large one is the first region handed over.
   */
  ghost predicate AboveOutcome(chunks: ChunkMap, mats: seq<M.MaterialDef>, above: IVec2, r: ChunkMap, debris: seq<set<IVec2>>)
  {
    var region := FillRegion(chunks, mats, above);
    (IsStructuralSolid(chunks, mats, above) && !Anchored(chunks, region) && |region| < SMALL_DEBRIS_THRESHOLD ==>
       forall p | p in region :: GetPixel(r, p.x, p.y) == Some(NewPixel(M.SAND)))
    && (IsStructuralSolid(chunks, mats, above) && !Anchored(chunks, region) && |region| >= SMALL_DEBRIS_THRESHOLD ==>
       |debris| > 0 && debris[0] == region)
  }

  lemma AboveOutcomeFirst(chunks: ChunkMap, mats: seq<M.MaterialDef>, above: IVec2, r: ChunkMap, d: seq<set<IVec2>>)
    requires NeighbourStep(chunks, mats, above, r, d)
    ensures AboveOutcome(chunks, mats, above, r, d)
  {
    RegionFacts(chunks, mats, above);
  }

  lemma AboveOutcomeLater(chunks: ChunkMap, mats: seq<M.MaterialDef>, above: IVec2, r: ChunkMap, debris: seq<set<IVec2>>,
                          n: IVec2, r': ChunkMap, d: seq<set<IVec2>>)
    requires AboveOutcome(chunks, mats, above, r, debris) && NeighbourStep(r, mats, n, r', d)
    ensures AboveOutcome(chunks, mats, above, r', debris + d)
  {
    var region := FillRegion(chunks, mats, above);
    if IsStructuralSolid(chunks, mats, above) && !Anchored(chunks, region) && |region| < SMALL_DEBRIS_THRESHOLD {
      forall p | p in region
        ensures GetPixel(r', p.x, p.y) == Some(NewPixel(M.SAND))
      {
        SandStays(r, mats, n, r', d, p);
      }
    }
  }

  /** `check_position` at `c` turns `chunks` into `r` and hands over `debris`: the four neighbours' outcomes in order. */
  ghost predicate PositionChecked(chunks: ChunkMap, mats: seq<M.MaterialDef>, c: IVec2, r: ChunkMap, debris: seq<set<IVec2>>)
  {
    exists worlds, parts :: CheckTrace(chunks, mats, Neighbours4(c), worlds, parts) && worlds[4] == r && Concat(parts) == debris
  }

  /** A pixel that is already plain sand stays plain sand through any neighbour's step. */
  lemma SandStays(a: ChunkMap, mats: seq<M.MaterialDef>, n: IVec2, b: ChunkMap, d: seq<set<IVec2>>, p: IVec2)
    requires NeighbourStep(a, mats, n, b, d) && GetPixel(a, p.x, p.y) == Some(NewPixel(M.SAND))
    ensures GetPixel(b, p.x, p.y) == Some(NewPixel(M.SAND))
  {
  }

  /** What `CheckNeighbour` promises, gathered into one outcome. */
  lemma NeighbourStepOf(chunks: ChunkMap, mats: seq<M.MaterialDef>, n: IVec2, r: ChunkMap, found: Option<set<IVec2>>)
    requires r.Keys == chunks.Keys
    requires !IsStructuralSolid(chunks, mats, n) ==> r == chunks && found == None
    requires var region := FillRegion(chunks, mats, n);
      IsStructuralSolid(chunks, mats, n) && Anchored(chunks, region) ==> r == chunks && found == None
    requires var region := FillRegion(chunks, mats, n);
      IsStructuralSolid(chunks, mats, n) && !Anchored(chunks, region) && |region| < SMALL_DEBRIS_THRESHOLD ==>
        SandedOver(r, chunks, region) && found == None
    requires var region := FillRegion(chunks, mats, n);
      IsStructuralSolid(chunks, mats, n) && !Anchored(chunks, region) && |region| >= SMALL_DEBRIS_THRESHOLD ==>
        r == chunks && found == Some(region)
    ensures NeighbourStep(chunks, mats, n, r, if found.Some? then [found.value] else [])
  {
  }

  /** One neighbour of `check_position`, keeping its guarantees; `d` is what it hands over. */
  method CheckStep(chunks: ChunkMap, mats: seq<M.MaterialDef>, c: IVec2, k: nat, r: ChunkMap, debris: seq<set<IVec2>>)
    returns (r': ChunkMap, debris': seq<set<IVec2>>, d: seq<set<IVec2>>)
    requires k < 4 && CheckedSoFar(chunks, mats, c, k, r, debris)
    ensures CheckedSoFar(chunks, mats, c, k + 1, r', debris')
    ensures debris' == debris + d && NeighbourStep(r, mats, Neighbours4(c)[k], r', d)
  {
    var found;
    r', found := CheckNeighbour(r, mats, Neighbours4(c)[k]);
    NeighbourStepOf(r, mats, Neighbours4(c)[k], r', found);
    OnlySandedTrans(chunks, r, r', mats);
    ChangedStep(chunks, r, r', c, k);
    debris', d := debris, [];
    if found.Some? {
      DebrisOfOriginal(chunks, mats, r, c, k, found.value);
      DebrisAppend(chunks, mats, debris, c, MAX_FLOOD_FILL_RADIUS + 2, found.value);
      debris', d := debris + [found.value], [found.value];
    }
  }

  /** The ghost record `check_position` keeps after its first `k` neighbours: the trace so far and the outcome above. */
  ghost predicate Traced(chunks: ChunkMap, mats: seq<M.MaterialDef>, c: IVec2, k: nat, r: ChunkMap, debris: seq<set<IVec2>>,
                         worlds: seq<ChunkMap>, parts: seq<seq<set<IVec2>>>)
    requires k <= 4
  {
    CheckTrace(chunks, mats, Neighbours4(c)[..k], worlds, parts) && worlds[k] == r && Concat(parts) == debris
    && (k > 0 ==> AboveOutcome(chunks, mats, Neighbours4(c)[0], r, debris))
  }

  lemma TracedStep(chunks: ChunkMap, mats: seq<M.MaterialDef>, c: IVec2, k: nat, r: ChunkMap, debris: seq<set<IVec2>>,
                   worlds: seq<ChunkMap>, parts: seq<seq<set<IVec2>>>, r': ChunkMap, d: seq<set<IVec2>>)
    requires k < 4 && Traced(chunks, mats, c, k, r, debris, worlds, parts)
    requires NeighbourStep(r, mats, Neighbours4(c)[k], r', d)
    ensures Traced(chunks, mats, c, k + 1, r', debris + d, worlds + [r'], parts + [d])
  {
    var ns := Neighbours4(c);
    CheckTracePrefix(chunks, mats, ns, k, worlds, parts, r', d);
    ConcatAppend(parts, d);
    if k == 0 {
      AboveOutcomeFirst(chunks, mats, ns[0], r', d);
    } else {
      AboveOutcomeLater(chunks, mats, ns[0], r, debris, ns[k], r', d);
    }
  }

  /** The guarantees of `check_position` after its first `k` neighbours, with the no-structural-neighbour case. */
  ghost predicate CheckProgress(chunks: ChunkMap, mats: seq<M.MaterialDef>, c: IVec2, k: nat, r: ChunkMap, debris: seq<set<IVec2>>)
    requires k <= 4
  {
    CheckedSoFar(chunks, mats, c, k, r, debris) && (NoneSolid(chunks, mats, c, k) ==> r == chunks && debris == [])
  }

  /** The body of `check_position`'s loop: neighbour `k`, keeping the guarantees and the trace. */
  method CheckNextNeighbour(chunks: ChunkMap, mats: seq<M.MaterialDef>, c: IVec2, k: nat, r: ChunkMap, debris: seq<set<IVec2>>,
                            ghost worlds: seq<ChunkMap>, ghost parts: seq<seq<set<IVec2>>>)
    returns (r': ChunkMap, debris': seq<set<IVec2>>, ghost d: seq<set<IVec2>>)
    requires k < 4 && CheckProgress(chunks, mats, c, k, r, debris) && Traced(chunks, mats, c, k, r, debris, worlds, parts)
    ensures CheckProgress(chunks, mats, c, k + 1, r', debris')
    ensures Traced(chunks, mats, c, k + 1, r', debris', worlds + [r'], parts + [d])
  {
    NoneSolidStep(chunks, mats, c, k);
    r', debris', d := CheckStep(chunks, mats, c, k, r, debris);
    TracedStep(chunks, mats, c, k, r, debris, worlds, parts, r', d);
  }

  lemma TracedDone(chunks: ChunkMap, mats: seq<M.MaterialDef>, wx: int, wy: int, r: ChunkMap, debris: seq<set<IVec2>>,
                   worlds: seq<ChunkMap>, parts: seq<seq<set<IVec2>>>)
    requires Traced(chunks, mats, IVec2(wx, wy), 4, r, debris, worlds, parts)
    ensures PositionChecked(chunks, mats, IVec2(wx, wy), r, debris)
    ensures AboveOutcome(chunks, mats, IVec2(wx, wy + 1), r, debris)
  {
    var c := IVec2(wx, wy);
    assert Neighbours4(c)[..4] == Neighbours4(c);
    assert CheckTrace(chunks, mats, Neighbours4(c), worlds, parts) && worlds[4] == r && Concat(parts) == debris;
  }

  /**
   * `check_position`: the four neighbours of the removed pixel, in order,
   * each on the world as the earlier ones left it (`PositionChecked`). So
   * only structural solids other than bedrock turn into sand, only near the
   * removed pixel, and every region handed over as debris is a bedrock-free
   * structural region of at least 50 pixels near it. In particular, an
   * unanchored region above the removed pixel is sand afterwards when it is
   * small, and is the first region handed over when it is large.
   */
  method CheckPosition(chunks: ChunkMap, mats: seq<M.MaterialDef>, wx: int, wy: int)
    returns (r: ChunkMap, debris: seq<set<IVec2>>)
    ensures PositionChecked(chunks, mats, IVec2(wx, wy), r, debris)
    ensures OnlySanded(chunks, mats, r)
    ensures ChangedWithin(chunks, r, IVec2(wx, wy), MAX_FLOOD_FILL_RADIUS + 2)
    ensures |debris| <= 4
    ensures DebrisWithin(chunks, mats, debris, IVec2(wx, wy), MAX_FLOOD_FILL_RADIUS + 2)
    ensures NoneSolid(chunks, mats, IVec2(wx, wy), 4) ==> r == chunks && debris == []
    ensures AboveOutcome(chunks, mats, IVec2(wx, wy + 1), r, debris)
  {
    var c := IVec2(wx, wy);
    r, debris := chunks, [];
    ghost var worlds, parts := [chunks], [];
    OnlySandedRefl(chunks, mats);
    for k := 0 to 4
      invariant CheckProgress(chunks, mats, c, k, r, debris)
      invariant Traced(chunks, mats, c, k, r, debris, worlds, parts)
    {
      ghost var d;
      r, debris, d := CheckNextNeighbour(chunks, mats, c, k, r, debris, worlds, parts);
      worlds, parts := worlds + [r], parts + [d];
    }
    TracedDone(chunks, mats, wx, wy, r, debris, worlds, parts);
  }

  /** None of the first `k` neighbours of `c` is a structural solid. */
  ghost predicate NoneSolid(chunks: ChunkMap, mats: seq<M.MaterialDef>, c: IVec2, k: nat)
    requires k <= 4
  {
    forall j | 0 <= j < k :: !IsStructuralSolid(chunks, mats, Neighbours4(c)[j])
  }

  lemma NoneSolidStep(chunks: ChunkMap, mats: seq<M.MaterialDef>, c: IVec2, k: nat)
    requires k < 4
    ensures NoneSolid(chunks, mats, c, k + 1) <==> NoneSolid(chunks, mats, c, k) && !IsStructuralSolid(chunks, mats, Neighbours4(c)[k])
  {
  }

  /** Some position of `positions` is within `d` of `p`. */
  ghost predicate NearSome(p: IVec2, positions: seq<IVec2>, d: nat)
  {
    NearFirst(p, positions, |positions|, d)
  }

  /** One of the first `n` positions is within `d` of `p`. */
  ghost predicate NearFirst(p: IVec2, positions: seq<IVec2>, n: nat, d: nat)
    requires n <= |positions|
  {
    exists i | 0 <= i < n :: Cheb(p, positions[i]) <= d
  }

  /** Every pixel that differs between the two worlds is near one of the first `n` positions. */
  ghost predicate ChangedNearFirst(chunks: ChunkMap, r: ChunkMap, positions: seq<IVec2>, n: nat)
    requires n <= |positions|
  {
    forall x, y | GetPixel(r, x, y) != GetPixel(chunks, x, y) :: NearFirst(IVec2(x, y), positions, n, MAX_FLOOD_FILL_RADIUS + 2)
  }

  /** Every region handed over is debris of the original world. */
  ghost predicate AllDebris(chunks: ChunkMap, mats: seq<M.MaterialDef>, debris: seq<set<IVec2>>)
  {
    forall i | 0 <= i < |debris| :: IsDebris(chunks, mats, debris[i])
  }

  lemma ProcessChangedStep(chunks: ChunkMap, r: ChunkMap, r': ChunkMap, positions: seq<IVec2>, i: nat)
    requires i < |positions|
    requires ChangedNearFirst(chunks, r, positions, i)
    requires ChangedWithin(r, r', positions[i], MAX_FLOOD_FILL_RADIUS + 2)
    ensures ChangedNearFirst(chunks, r', positions, i + 1)
  {
    forall x, y | GetPixel(r', x, y) != GetPixel(chunks, x, y)
      ensures NearFirst(IVec2(x, y), positions, i + 1, MAX_FLOOD_FILL_RADIUS + 2)
    {
      if GetPixel(r', x, y) != GetPixel(r, x, y) {
        assert Cheb(IVec2(x, y), positions[i]) <= MAX_FLOOD_FILL_RADIUS + 2;
      } else {
        assert NearFirst(IVec2(x, y), positions, i, MAX_FLOOD_FILL_RADIUS + 2);
      }
    }
  }

  lemma ProcessDebrisStep(chunks: ChunkMap, mats: seq<M.MaterialDef>, r: ChunkMap, debris: seq<set<IVec2>>, more: seq<set<IVec2>>, c: IVec2)
    requires OnlySanded(chunks, mats, r) && AllDebris(chunks, mats, debris)
    requires DebrisWithin(r, mats, more, c, MAX_FLOOD_FILL_RADIUS + 2)
    ensures AllDebris(chunks, mats, debris + more)
  {
    forall i | 0 <= i < |debris + more|
      ensures IsDebris(chunks, mats, (debris + more)[i])
    {
      if i >= |debris| {
        DebrisKept(chunks, mats, r, more[i - |debris|]);
      }
    }
  }

  /**
   * `positions[i]` was checked on `worlds[i]`, leaving `worlds[i + 1]` and
   * handing over `parts[i]`.
   */
  ghost predicate ChecksTrace(chunks: ChunkMap, mats: seq<M.MaterialDef>, positions: seq<IVec2>, worlds: seq<ChunkMap>, parts: seq<seq<set<IVec2>>>)
  {
    |worlds| == |positions| + 1 && |parts| == |positions| && worlds[0] == chunks
    && forall i | 0 <= i < |positions| :: PositionChecked(worlds[i], mats, positions[i], worlds[i + 1], parts[i])
  }

  lemma ChecksTraceExtend(chunks: ChunkMap, mats: seq<M.MaterialDef>, positions: seq<IVec2>, worlds: seq<ChunkMap>, parts: seq<seq<set<IVec2>>>,
                          c: IVec2, r: ChunkMap, d: seq<set<IVec2>>)
    requires ChecksTrace(chunks, mats, positions, worlds, parts) && PositionChecked(worlds[|positions|], mats, c, r, d)
    ensures ChecksTrace(chunks, mats, positions + [c], worlds + [r], parts + [d])
  {
    var positions', worlds', parts' := positions + [c], worlds + [r], parts + [d];
    forall i | 0 <= i < |positions'|
      ensures PositionChecked(worlds'[i], mats, positions'[i], worlds'[i + 1], parts'[i])
    {
      if i < |positions| {
        assert worlds'[i] == worlds[i] && worlds'[i + 1] == worlds[i + 1] && positions'[i] == positions[i] && parts'[i] == parts[i];
      }
    }
  }

  /** The ghost record `process_checks` keeps after its first `i` positions. */
  ghost predicate ChecksTraced(chunks: ChunkMap, mats: seq<M.MaterialDef>, positions: seq<IVec2>, i: nat, r: ChunkMap, debris: seq<set<IVec2>>,
                               worlds: seq<ChunkMap>, parts: seq<seq<set<IVec2>>>)
    requires i <= |positions|
  {
    ChecksTrace(chunks, mats, positions[..i], worlds, parts) && worlds[i] == r && Concat(parts) == debris
  }

  lemma ChecksTracedStep(chunks: ChunkMap, mats: seq<M.MaterialDef>, positions: seq<IVec2>, i: nat, r: ChunkMap, debris: seq<set<IVec2>>,
                         worlds: seq<ChunkMap>, parts: seq<seq<set<IVec2>>>, r': ChunkMap, more: seq<set<IVec2>>)
    requires i < |positions| && ChecksTraced(chunks, mats, positions, i, r, debris, worlds, parts)
    requires PositionChecked(r, mats, positions[i], r', more)
    ensures ChecksTraced(chunks, mats, positions, i + 1, r', debris + more, worlds + [r'], parts + [more])
  {
    ChecksTraceExtend(chunks, mats, positions[..i], worlds, parts, positions[i], r', more);
    assert positions[..i + 1] == positions[..i] + [positions[i]];
    ConcatAppend(parts, more);
  }

  lemma ChecksTracedDone(chunks: ChunkMap, mats: seq<M.MaterialDef>, positions: seq<IVec2>, r: ChunkMap, debris: seq<set<IVec2>>,
                         worlds: seq<ChunkMap>, parts: seq<seq<set<IVec2>>>)
    requires ChecksTraced(chunks, mats, positions, |positions|, r, debris, worlds, parts)
    ensures exists worlds, parts :: ChecksTrace(chunks, mats, positions, worlds, parts) && worlds[|positions|] == r && Concat(parts) == debris
  {
    assert positions[..|positions|] == positions;
    assert ChecksTrace(chunks, mats, positions, worlds, parts) && worlds[|positions|] == r && Concat(parts) == debris;
  }

  /** The guarantees of `process_checks` after its first `i` positions. */
  ghost predicate ProcessedSoFar(chunks: ChunkMap, mats: seq<M.MaterialDef>, positions: seq<IVec2>, i: nat, r: ChunkMap, debris: seq<set<IVec2>>)
    requires i <= |positions|
  {
    OnlySanded(chunks, mats, r) && ChangedNearFirst(chunks, r, positions, i) && |debris| <= 4 * i && AllDebris(chunks, mats, debris)
  }

  /** The body of `process_checks`' loop: `check_position` at `positions[i]`, keeping the guarantees and the trace. */
  method CheckNext(chunks: ChunkMap, mats: seq<M.MaterialDef>, positions: seq<IVec2>, i: nat, r: ChunkMap, debris: seq<set<IVec2>>,
                   ghost worlds: seq<ChunkMap>, ghost parts: seq<seq<set<IVec2>>>)
    returns (r': ChunkMap, debris': seq<set<IVec2>>, ghost more: seq<set<IVec2>>)
    requires i < |positions| && ProcessedSoFar(chunks, mats, positions, i, r, debris)
    requires ChecksTraced(chunks, mats, positions, i, r, debris, worlds, parts)
    ensures ProcessedSoFar(chunks, mats, positions, i + 1, r', debris')
    ensures ChecksTraced(chunks, mats, positions, i + 1, r', debris', worlds + [r'], parts + [more])
  {
    var found;
    r', found := CheckPosition(r, mats, positions[i].x, positions[i].y);
    assert IVec2(positions[i].x, positions[i].y) == positions[i];
    ProcessChangedStep(chunks, r, r', positions, i);
    ProcessDebrisStep(chunks, mats, r, debris, found, positions[i]);
    OnlySandedTrans(chunks, r, r', mats);
    ChecksTracedStep(chunks, mats, positions, i, r, debris, worlds, parts, r', found);
    debris', more := debris + found, found;
  }

  /**
   * `process_checks`: `check_position` for each position in turn, on the
   * world as the earlier checks left it, with the debris of all checks in
   * order; the count returned is the number of positions. Only structural
   * solids other than bedrock turn into sand, each near one of the
   * positions, and every region handed over is debris of the original world.
   */
  method ProcessChecks(chunks: ChunkMap, mats: seq<M.MaterialDef>, positions: seq<IVec2>)
    returns (r: ChunkMap, debris: seq<set<IVec2>>, count: nat)
    ensures count == |positions|
    ensures exists worlds, parts :: ChecksTrace(chunks, mats, positions, worlds, parts) && worlds[|positions|] == r && Concat(parts) == debris
    ensures positions == [] ==> r == chunks && debris == []
    ensures OnlySanded(chunks, mats, r)
    ensures forall x, y | GetPixel(r, x, y) != GetPixel(chunks, x, y) :: NearSome(IVec2(x, y), positions, MAX_FLOOD_FILL_RADIUS + 2)
    ensures |debris| <= 4 * |positions|
    ensures AllDebris(chunks, mats, debris)
  {
    r, debris := chunks, [];
    ghost var worlds: seq<ChunkMap>, parts: seq<seq<set<IVec2>>> := [chunks], [];
    if positions == [] {
      assert ChecksTrace(chunks, mats, positions, worlds, parts);
      return r, debris, 0;
    }
    OnlySandedRefl(chunks, mats);
    for i := 0 to |positions|
      invariant ProcessedSoFar(chunks, mats, positions, i, r, debris)
      invariant ChecksTraced(chunks, mats, positions, i, r, debris, worlds, parts)
    {
      ghost var more;
      r, debris, more := CheckNext(chunks, mats, positions, i, r, debris, worlds, parts);
      worlds, parts := worlds + [r], parts + [more];
    }
    ChecksTracedDone(chunks, mats, positions, r, debris, worlds, parts);
    count := |positions|;
  }

  /** The queue of positions awaiting a structural check; a set, so scheduling twice is scheduling once. */
  class StructuralIntegritySystem {
    var checkQueue: set<IVec2>

    constructor()
      ensures checkQueue == {}
    {
      checkQueue := {};
    }

    /** `schedule_check`: queue the position of a removed structural pixel. */
    method ScheduleCheck(wx: int, wy: int)
      modifies this
      ensures checkQueue == old(checkQueue) + {IVec2(wx, wy)}
    {
      checkQueue := checkQueue + {IVec2(wx, wy)};
    }

    /** `drain_queue`: every queued position exactly once, in no particular order; the queue is left empty. */
    method DrainQueue() returns (positions: seq<IVec2>)
      modifies this`checkQueue
      ensures checkQueue == {}
      ensures forall p :: p in positions <==> p in old(checkQueue)
      ensures |positions| == |old(checkQueue)|
      ensures forall i, j | 0 <= i < j < |positions| :: positions[i] != positions[j]
    {
      positions := [];
      ghost var queued := checkQueue;
      var rest := checkQueue;
      while rest != {}
        invariant rest <= queued
        invariant forall p :: p in positions <==> p in queued - rest
        invariant |positions| + |rest| == |queued|
        invariant forall i, j | 0 <= i < j < |positions| :: positions[i] != positions[j]
        decreases |rest|
      {
        var p :| p in rest;
        assert p !in positions;
        positions := positions + [p];
        rest := rest - {p};
      }
      checkQueue := {};
    }
  }
}
