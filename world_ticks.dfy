/**
 * The state computations of the server's scheduled ticks: the world tick's
 * tick counter, idle detection and rescheduling; the settlement ring
 * counter; a creature's hunger and health; the pruning of old metric
 * samples; and the layout of a creature's neural-network input. Database
 * rows are values here, and what the database, the simulation and the
 * brain compute is passed in (see README).
 */
module WorldTicks {
  import opened Wrappers
  import opened Ints

  /** The fields of the world configuration row that the ticks read or write. */
  datatype WorldConfig = WorldConfig(
    tickCount: nat,
    lastActivityTick: nat,
    isIdle: bool,
    simulationPaused: bool,
    settlementProgress: int,
    settlementRadius: int,
    settlementComplete: bool)

  const IDLE_THRESHOLD_TICKS: nat := 60
  const ACTIVE_TICK_MS: nat := 16
  const IDLE_TICK_MS: nat := 100
  const METRICS_EVERY: nat := 10
  const CLEANUP_EVERY: nat := 600

  /** `u64::saturating_sub`. */
  function SatSub(a: nat, b: nat): (d: nat)
    ensures d == if a >= b then a - b else 0
  {
    if a >= b then a - b else 0
  }

  // ---------------------------------------------------------------------
  // World tick

  /** What one world tick leaves behind: the new row, whether the world was simulated, the delay until the next tick, and whether metrics are sampled and pruned. */
  datatype WorldTickOutcome = WorldTickOutcome(
    config: WorldConfig,
    simulated: bool,
    nextTickMs: nat,
    sampleMetrics: bool,
    pruneMetrics: bool)

  /** Whether the world is simulated: it is not idle, or chunks were just loaded. */
  predicate ShouldSimulate(config: WorldConfig, chunksLoaded: nat)
  {
    !config.isIdle || chunksLoaded > 0
  }

  /** The idle rule: activity resets the activity tick and wakes the world; otherwise the world is idle once more than 60 ticks have passed. */
  function IdleUpdate(config: WorldConfig, newTick: nat, hadActivity: bool): (r: (nat, bool))
    ensures hadActivity ==> r == (newTick, false)
    ensures !hadActivity ==> r.0 == config.lastActivityTick
    ensures !hadActivity ==> (r.1 <==> newTick > config.lastActivityTick + IDLE_THRESHOLD_TICKS)
  {
    if hadActivity then (newTick, false)
    else
      var framesIdle := SatSub(newTick, config.lastActivityTick);
      (config.lastActivityTick, framesIdle > IDLE_THRESHOLD_TICKS)
  }

  /**
   * `world_tick`. `online` is the number of online players, `chunksLoaded`
   * the number of chunks the player loop added, and `syncedIfSimulated` the
   * number of dirty chunks the sync writes when the world is simulated.
   * A paused world (None) is left as it is and not rescheduled.
   */
  function WorldTick(config: WorldConfig, online: nat, chunksLoaded: nat, syncedIfSimulated: nat): (r: Option<WorldTickOutcome>)
    ensures r.None? <==> config.simulationPaused
    ensures r.Some? ==> r.value.config.tickCount == config.tickCount + 1
    ensures r.Some? ==> r.value.config == config.(tickCount := r.value.config.tickCount,
                                                  lastActivityTick := r.value.config.lastActivityTick,
                                                  isIdle := r.value.config.isIdle)
    ensures r.Some? && online == 0 ==>
              r.value.config == config.(tickCount := config.tickCount + 1) &&
              !r.value.simulated && r.value.nextTickMs == IDLE_TICK_MS &&
              !r.value.sampleMetrics && !r.value.pruneMetrics
    ensures r.Some? && online > 0 ==>
              (r.value.simulated <==> ShouldSimulate(config, chunksLoaded)) &&
              r.value.nextTickMs == (if r.value.config.isIdle then IDLE_TICK_MS else ACTIVE_TICK_MS) &&
              (r.value.sampleMetrics <==> (config.tickCount + 1) % METRICS_EVERY == 0) &&
              (r.value.pruneMetrics <==> (config.tickCount + 1) % CLEANUP_EVERY == 0)
  {
    if config.simulationPaused then None
    else
      var newTick := config.tickCount + 1;
      if online == 0 then
        Some(WorldTickOutcome(config.(tickCount := newTick), false, IDLE_TICK_MS, false, false))
      else
        var simulate := ShouldSimulate(config, chunksLoaded);
        var synced := if simulate then syncedIfSimulated else 0;
        var hadActivity := synced > 0 || chunksLoaded > 0;
        var (last, idle) := IdleUpdate(config, newTick, hadActivity);
        var next := if idle then IDLE_TICK_MS else ACTIVE_TICK_MS;
        Some(WorldTickOutcome(config.(tickCount := newTick, lastActivityTick := last, isIdle := idle),
                              simulate, next, newTick % METRICS_EVERY == 0, newTick % CLEANUP_EVERY == 0))
  }

  /** `k` world ticks with players online and nothing loaded or synced. */
  function QuietTicks(config: WorldConfig, k: nat): (c: WorldConfig)
    requires !config.simulationPaused
    ensures !c.simulationPaused
  {
    if k == 0 then config else WorldTick(QuietTicks(config, k - 1), 1, 0, 0).value.config
  }

  /**
   * After activity at the current tick, a world with players but no activity
   * keeps counting ticks, keeps its activity tick, and is idle exactly from
   * the 61st quiet tick on.
   */
  lemma {:induction false} QuietWorldGoesIdle(config: WorldConfig, k: nat)
    requires !config.simulationPaused && config.lastActivityTick == config.tickCount
    ensures QuietTicks(config, k).tickCount == config.tickCount + k
    ensures QuietTicks(config, k).lastActivityTick == config.lastActivityTick
    ensures k > 0 ==> (QuietTicks(config, k).isIdle <==> k > IDLE_THRESHOLD_TICKS)
    decreases k
  {
    if k > 0 {
      QuietWorldGoesIdle(config, k - 1);
    }
  }

  /** An idle world that loads a chunk is simulated and wakes at once, with the next tick 16 ms away. */
  lemma LoadingWakesTheWorld(config: WorldConfig, online: nat, chunksLoaded: nat, synced: nat)
    requires !config.simulationPaused && online > 0 && chunksLoaded > 0
    ensures var r := WorldTick(config, online, chunksLoaded, synced).value;
            r.simulated && !r.config.isIdle && r.config.lastActivityTick == r.config.tickCount && r.nextTickMs == ACTIVE_TICK_MS
  {
  }

  /** The row's idle fields agree with its counters: activity lies in the past, and an idle world has been quiet for more than 60 ticks. */
  predicate IdleConsistent(config: WorldConfig)
  {
    config.lastActivityTick <= config.tickCount &&
    (config.isIdle ==> config.tickCount > config.lastActivityTick + IDLE_THRESHOLD_TICKS)
  }

  /** Every world tick keeps the idle fields consistent. */
  lemma WorldTickKeepsIdleConsistent(config: WorldConfig, online: nat, chunksLoaded: nat, synced: nat)
    requires IdleConsistent(config) && !config.simulationPaused
    ensures IdleConsistent(WorldTick(config, online, chunksLoaded, synced).value.config)
  {
  }

  /** An idle world with nothing loaded is not simulated, stays idle and keeps ticking every 100 ms. */
  lemma IdleWorldStaysIdle(config: WorldConfig, online: nat, synced: nat)
    requires !config.simulationPaused && config.isIdle && IdleConsistent(config)
    ensures var r := WorldTick(config, online, 0, synced).value;
            !r.simulated && (online > 0 ==> r.config.isIdle) && r.nextTickMs == IDLE_TICK_MS
  {
  }

  // ---------------------------------------------------------------------
  // Settlement

  datatype SettleOutcome =
    | Finished
    | Waiting(delayMs: nat)
    | Settled(ring: int, config: WorldConfig, delayMs: nat)

  /** `settle_world_tick`: settle ring `settlement_progress`, then advance it; a finished settlement stops rescheduling. */
  function SettleTick(config: WorldConfig, anyOnline: bool): (r: SettleOutcome)
    ensures config.settlementComplete <==> r.Finished?
    ensures !config.settlementComplete && !anyOnline ==> r == Waiting(1000)
    ensures r.Settled? ==>
              r.ring == config.settlementProgress && r.delayMs == IDLE_TICK_MS &&
              r.config == config.(settlementProgress := r.ring + 1, settlementComplete := r.config.settlementComplete) &&
              (r.config.settlementComplete <==> r.ring + 1 > config.settlementRadius)
  {
    if config.settlementComplete then Finished
    else if !anyOnline then Waiting(1000)
    else
      var newProgress := config.settlementProgress + 1;
      Settled(config.settlementProgress, config.(settlementProgress := newProgress,
                                                 settlementComplete := newProgress > config.settlementRadius), IDLE_TICK_MS)
  }

  /** The configuration after `k` settle ticks with players online; a finished settlement stays as it is. */
  function SettleTicks(config: WorldConfig, k: nat): WorldConfig
  {
    if k == 0 then config
    else
      var c := SettleTicks(config, k - 1);
      match SettleTick(c, true)
      case Settled(_, c', _) => c'
      case _ => c
  }

  /** From ring 0, each tick settles the next ring; settlement finishes exactly after ring `radius`, and further ticks change nothing. */
  lemma {:induction false} SettlementRuns(config: WorldConfig, k: nat)
    requires config.settlementProgress == 0 && !config.settlementComplete && config.settlementRadius >= 0
    ensures k <= config.settlementRadius + 1 ==>
              SettleTicks(config, k) == config.(settlementProgress := k, settlementComplete := k > config.settlementRadius)
    ensures k > config.settlementRadius + 1 ==> SettleTicks(config, k) == SettleTicks(config, config.settlementRadius + 1)
    decreases k
  {
    if k > 0 {
      SettlementRuns(config, k - 1);
      if k > config.settlementRadius + 1 {
        SettlementRuns(config, config.settlementRadius + 1);
      }
    }
  }

  /** `settle_spawn_chunks_burst`: all rings 0..=radius at once, then the settlement is finished at progress radius + 1. */
  function SettleBurst(config: WorldConfig, radius: int): (r: WorldConfig)
    ensures r.settlementComplete && r.settlementProgress == radius + 1
    ensures r == config.(settlementProgress := radius + 1, settlementComplete := true)
  {
    config.(settlementProgress := radius + 1, settlementComplete := true)
  }

  /** The burst ends where the ring-by-ring ticks end. */
  lemma BurstMatchesTicks(config: WorldConfig)
    requires config.settlementProgress == 0 && !config.settlementComplete && config.settlementRadius >= 0
    ensures SettleBurst(config, config.settlementRadius) == SettleTicks(config, config.settlementRadius + 1)
  {
    SettlementRuns(config, config.settlementRadius + 1);
  }

  // ---------------------------------------------------------------------
  // Creature hunger and health

  const CREATURE_DT: real := 0.033

  datatype Vitals = Vitals(hunger: real, health: real, alive: bool)

  /** The hunger and starvation step of `creature_tick`. */
  function CreatureVitals(hunger: real, health: real, hungerRate: real): (v: Vitals)
    ensures v.hunger == Max0(hunger - hungerRate * CREATURE_DT)
    ensures v.health == if hunger - hungerRate * CREATURE_DT <= 0.0 then health - 5.0 * CREATURE_DT else health
    ensures v.alive <==> v.health > 0.0
  {
    var newHunger := hunger - hungerRate * CREATURE_DT;
    if newHunger <= 0.0 then
      var newHealth := health - 5.0 * CREATURE_DT;
      Vitals(0.0, newHealth, newHealth > 0.0)
    else
      Vitals(newHunger, health, health > 0.0)
  }

  function Max0(x: real): real
  {
    if x <= 0.0 then 0.0 else x
  }

  /** Hunger never goes negative and never rises for a non-negative rate; health only drops while starving. */
  lemma VitalsBounds(hunger: real, health: real, hungerRate: real)
    requires hungerRate >= 0.0
    ensures var v := CreatureVitals(hunger, health, hungerRate);
            v.hunger >= 0.0 && (hunger >= 0.0 ==> v.hunger <= hunger) && v.health <= health &&
            (v.health < health <==> v.hunger == 0.0 && hunger - hungerRate * CREATURE_DT <= 0.0)
  {
  }

  // ---------------------------------------------------------------------
  // Metric pruning

  const MAX_METRICS: nat := 3600

  datatype Metric = Metric(id: nat, tick: nat)

  predicate SortedByTick(s: seq<Metric>)
  {
    forall i, j | 0 <= i < j < |s| :: s[i].tick <= s[j].tick
  }

  /** Insert `m` before the first sample with a later tick (after every sample with the same tick). */
  function InsertByTick(m: Metric, s: seq<Metric>): (r: seq<Metric>)
    requires SortedByTick(s)
    ensures SortedByTick(r)
    ensures multiset(r) == multiset(s) + multiset{m}
  {
    if s == [] then [m]
    else if m.tick < s[0].tick then [m] + s
    else
      var rest := InsertByTick(m, s[1..]);
      assert s == [s[0]] + s[1..];
      LowerBoundKept(s[0].tick, rest, s[1..], m);
      [s[0]] + rest
  }

  /** A bound below every tick of `s` and of `m` is below every tick of a rearrangement of them. */
  lemma LowerBoundKept(t: nat, r: seq<Metric>, s: seq<Metric>, m: Metric)
    requires multiset(r) == multiset(s) + multiset{m}
    requires t <= m.tick && forall k | 0 <= k < |s| :: t <= s[k].tick
    ensures forall k | 0 <= k < |r| :: t <= r[k].tick
  {
    forall k | 0 <= k < |r|
      ensures t <= r[k].tick
    {
      assert r[k] in multiset(r);
      if r[k] != m {
        assert r[k] in multiset(s);
        var j :| 0 <= j < |s| && s[j] == r[k];
      }
    }
  }

  /** `sort_by_key(|m| m.tick)`: a stable insertion sort. */
  function SortByTick(s: seq<Metric>): (r: seq<Metric>)
    ensures SortedByTick(r)
    ensures multiset(r) == multiset(s)
  {
    if s == [] then []
    else
      assert s == s[..|s| - 1] + [s[|s| - 1]];
      InsertByTick(s[|s| - 1], SortByTick(s[..|s| - 1]))
  }

  /** `cleanup_old_metrics`: the samples deleted and the samples kept. */
  function CleanupOldMetrics(metrics: seq<Metric>): (r: (seq<Metric>, seq<Metric>))
    ensures |metrics| <= MAX_METRICS ==> r == ([], metrics)
    ensures |metrics| > MAX_METRICS ==> |r.1| == MAX_METRICS && |r.0| == |metrics| - MAX_METRICS
    ensures multiset(r.0) + multiset(r.1) == multiset(metrics)
    ensures forall i, j | 0 <= i < |r.0| && 0 <= j < |r.1| :: r.0[i].tick <= r.1[j].tick
  {
    if |metrics| <= MAX_METRICS then ([], metrics)
    else
      var sorted := SortByTick(metrics);
      var toRemove := |metrics| - MAX_METRICS;
      assert |sorted| == |multiset(sorted)| == |multiset(metrics)| == |metrics|;
      assert sorted == sorted[..toRemove] + sorted[toRemove..];
      (sorted[..toRemove], sorted[toRemove..])
  }

  // ---------------------------------------------------------------------
  // Creature features

  /** What the feature extractor reads of the physics state and the senses. */
  datatype FeatureInputs = FeatureInputs(
    motorAngles: seq<real>,
    motorVelocities: seq<real>,
    partPositions: seq<(real, real)>,
    foodDirection: Option<(real, real)>,
    foodDistance: real,
    foodGradient: real,
    rayDistances: seq<real>)

  function Get(s: seq<real>, i: nat): real
  {
    if i < |s| then s[i] else 0.0
  }

  function Repeat(v: real, n: nat): (r: seq<real>)
    ensures |r| == n && forall k | 0 <= k < n :: r[k] == v
  {
    if n == 0 then [] else [v] + Repeat(v, n - 1)
  }

  /** The number of features per body part: nine, the rays (at least eight), five. */
  function BlockSize(inp: FeatureInputs): nat
  {
    9 + Max(8, |inp.rayDistances|) + 5
  }

  /** The features of body part `i`: motion, position relative to the root, senses, rays padded to eight with 1.0, five material slots. */
  function PartFeatures(inp: FeatureInputs, i: nat): (f: seq<real>)
    ensures |f| == BlockSize(inp)
    ensures f[9..9 + |inp.rayDistances|] == inp.rayDistances
  {
    var rel := if i < |inp.partPositions| && |inp.partPositions| > 0
               then [(inp.partPositions[i].0 - inp.partPositions[0].0) / 50.0,
                     (inp.partPositions[i].1 - inp.partPositions[0].1) / 50.0]
               else [0.0, 0.0];
    var food := match inp.foodDirection
                case Some(d) => [d.0, d.1]
                case None => [0.0, 0.0];
    var head := [Get(inp.motorAngles, i), Get(inp.motorVelocities, i)] + rel + [0.0] + food
                + [inp.foodDistance, inp.foodGradient];
    assert |head| == 9;
    var f := head + inp.rayDistances + Repeat(1.0, SatSub(8, |inp.rayDistances|)) + Repeat(0.0, 5);
    assert f[9..9 + |inp.rayDistances|] == inp.rayDistances;
    f
  }

  /** The features of parts 0..n, one block after another. */
  function FeaturesUpTo(inp: FeatureInputs, n: nat): seq<real>
  {
    if n == 0 then [] else FeaturesUpTo(inp, n - 1) + PartFeatures(inp, n - 1)
  }

  /** `extract_creature_features`: one block of features per body part. */
  method ExtractCreatureFeatures(inp: FeatureInputs, parts: nat) returns (features: seq<real>)
    ensures features == FeaturesUpTo(inp, parts)
    ensures |features| == parts * BlockSize(inp)
  {
    features := [];
    var i := 0;
    while i < parts
      invariant 0 <= i <= parts
      invariant features == FeaturesUpTo(inp, i)
    {
      features := features + PartFeatures(inp, i);
      i := i + 1;
    }
    FeaturesLength(inp, parts);
  }

  /** The brain's input size, as `creature_tick` computes it: 9 + 8 rays + 5 materials per part. */
  function BrainInputSize(parts: nat): nat
  {
    parts * (9 + 8 + 5)
  }

  /** With at most eight rays the features fill the brain input exactly: 22 per body part. */
  lemma FeaturesMatchBrain(inp: FeatureInputs, parts: nat)
    requires |inp.rayDistances| <= 8
    ensures |FeaturesUpTo(inp, parts)| == BrainInputSize(parts)
    ensures |PartFeatures(inp, 0)| == 22
  {
    FeaturesLength(inp, parts);
  }

  lemma {:induction false} FeaturesLength(inp: FeatureInputs, n: nat)
    ensures |FeaturesUpTo(inp, n)| == n * BlockSize(inp)
    decreases n
  {
    if n > 0 {
      FeaturesLength(inp, n - 1);
      var b := BlockSize(inp);
      assert (n - 1) * b + b == n * b;
    }
  }
}
