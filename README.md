# Sanuba falling-sand engine — a Dafny model

This project models the core of Sanuba, a 2D falling-sand game. In Sanuba the world is split into 64×64-pixel chunks. Each pixel holds a material id and a flag word. Each chunk also holds an 8×8 coarse temperature and pressure grid and a dirty rectangle.

The model covers the following, each proved against a specification:

- the chunk and world data model, with world↔chunk coordinates;
- the bottom-up serpentine cellular-automaton pass and the powder, liquid, gas and fire moves;
- both contact-reaction registries and the material registry;
- the coarse thermal grid and its diffusion;
- the structural-integrity flood fill and the debris decision;
- active-chunk bookkeeping and neighbourhood queries;
- the per-pixel rule passes: burning, electricity, fuse, vine, virus, clone, ant, bird, fish and fruit regrowth;
- kinematic falling debris;
- the generation helpers: level builder, structure templates and variants, stalactites, depth zones and layered terrain;
- the gameplay structures: inventory, crafting, scenario validators and builder, level cycling, the xorshift generator, the server tick decisions and the server chunk cache.

One Dafny module models one source file. Where the source mutates an object in place, the module has a `class` whose methods are proved equal to a specification function on values. The properties are proved as lemmas about those functions. Random draws, noise values and clocks are parameters. `f32` arithmetic is modelled over `real`.

The chunk update is sequential in the source: `step_simulation` visits the active chunks one after the other. So the model has no checkerboard phasing and no parallel dispatch.


## Model

| member | source | states |
|---|---|---|
| `Chunks.IndexInjective` | src/world/chunk.rs:97-108 | Row-major indexing `y*64+x` gives distinct in-chunk cells distinct indices. |
| `Chunks.NewChunk` | src/world/chunk.rs:83-95 | A new chunk is all AIR, with temperature 20 and pressure 1 in every coarse cell, not dirty, with no dirty rect and at the given coordinates. |
| `Chunks.MarkDirty` | src/world/chunk.rs:126-133 | Marking leaves the grids alone, sets `dirty`, and gives a rect that contains the point and covers the previous rect. |
| `Chunks.SetThenGet` | src/world/chunk.rs:97-110 | After `set_pixel(x,y,p)`, `get_pixel(x,y)` is `p`, every other cell is unchanged, and temperature and pressure are kept. |
| `Chunks.SwapExchanges` | src/world/chunk.rs:118-124 | `swap_pixels` exchanges exactly the two addressed cells, leaves every other cell alone and keeps the multiset of pixels. |
| `Chunks.ClearedFlagsKeepsRest` | src/world/chunk.rs:140-145 | `clear_update_flags` clears the UPDATED bit of every pixel and keeps materials, the other flag bits, the dirty state and temperatures. |
| `Chunks.ClearedRectKeepsRest` | src/world/chunk.rs:135-138 | `clear_dirty_rect` sets the rect to None and changes neither `dirty`, the pixels nor the grids. |
| `Chunks.BoundingBox` | src/world/chunk.rs:70-79 | The min/max box of a non-empty point list contains every point, and each of its four bounds is attained by some point. |
| `Chunks.MarkAllIsBoundingBox` | src/world/chunk.rs:126-133 | Starting from no rect, marking a non-empty list of points gives exactly their bounding box. |
| `Chunks.DirtyRectIsBoundingBox` | src/world/chunk.rs:104-137 | After writes that follow a `clear_dirty_rect`, the chunk is dirty and its rect is the min/max bounding box of every coordinate written. |
| `Chunks.MarkDirtyInChunk` | src/world/chunk.rs:70-79 | Marking in-chunk points keeps the rect inside [0,64)² with min ≤ max on both axes. |
| `Chunks.Decode` | src/world/chunk.rs:202-257 | Deserialisation succeeds iff all five fields are present and there are exactly 4096 pixels, 64 temperatures and 64 pressures. It then restores them, clean and with no rect. |
| `Chunks.DecodeEncode` | src/world/chunk.rs:169-257 | Decoding a serialised chunk restores its coordinates and grids, with `dirty == false` and no rect. |
| `Chunks.Chunk.constructor` | src/world/chunk.rs:83-95 | The array-backed chunk starts as `NewChunk`. |
| `Chunks.Chunk.GetPixel` | src/world/chunk.rs:97-102 | Reads the cell at index `y*64+x` of the pixel array. |
| `Chunks.Chunk.SetPixel` | src/world/chunk.rs:104-110 | Writes the array cell in place and marks it dirty; the new state is `WithPixel` of the old one. |
| `Chunks.Chunk.SetMaterial` | src/world/chunk.rs:112-116 | Writes a fresh pixel of the material; the new state is `WithMaterial` of the old one. |
| `Chunks.Chunk.SwapPixels` | src/world/chunk.rs:118-124 | Swaps two array cells in place and marks both dirty; the new state is `Swapped` of the old one. |
| `Chunks.Chunk.ClearDirtyRect` | src/world/chunk.rs:135-138 | Drops the rect in place and leaves the rest as it was. |
| `Chunks.Chunk.ClearUpdateFlags` | src/world/chunk.rs:140-145 | A loop over all 4096 cells clears the UPDATED bit; the new state is `ClearedFlags` of the old one. |
| `Chunks.Chunk.GetTemperature` | src/world/chunk.rs:152-155 | Reads the coarse cell `cy*8+cx`. |
| `Chunks.Chunk.SetTemperature` | src/world/chunk.rs:157-160 | Writes the coarse cell `cy*8+cx` and nothing else. |
| `WorldGrid.WorldToChunkCoords` | src/world/world.rs:499-505 | Local coordinates lie in [0,64) and `chunk*64 + local == world` on both axes, for negative coordinates too. |
| `WorldGrid.WorldToChunkCoordsUnique` | src/world/world.rs:499-505 | The Euclidean split is the only one with local offsets in [0,64). |
| `WorldGrid.WorldToChunkCoordsInjective` | src/world/world.rs:499-505 | Distinct world pixels never share both chunk and local offset. |
| `WorldGrid.LocalRoundTrip` | src/world/world.rs:499-505 | The world coordinate of a local cell splits back into that chunk and cell. |
| `WorldGrid.GetPixel` | src/world/world.rs:472-476 | `get_pixel` is None exactly when the containing chunk is not loaded. |
| `WorldGrid.WriteLocalIsWriteAt` | src/world/world.rs:478-487 | Writing a local cell of a chunk is the same as writing its world coordinate. |
| `WorldGrid.WriteAtEffect` | src/world/world.rs:478-487 | A write into an unloaded chunk changes nothing. Otherwise it changes exactly the addressed pixel and keeps the chunk set and all temperatures. |
| `WorldGrid.SetPixelEffect` | src/world/world.rs:478-487 | `set_pixel` into an unloaded chunk changes nothing; otherwise the pixel reads back as the bare material and every other pixel is unchanged. |
| `WorldGrid.TemperatureAtWorld` | src/world/world.rs:489-497 | The temperature of a pixel in an unloaded chunk reads as 20. |
| `WorldGrid.AddHeatKeepsPixels` | crates/sunaba-core/src/simulation/temperature.rs:103-107 | Adding heat changes no pixel anywhere and keeps the chunk set. |
| `Chunks.Chunk.MarkDirtyAt` | src/world/chunk.rs:126-133 | The chunk afterwards is the old chunk with the dirty rectangle grown to the point. |
| `WorldGrid.SetPixel` | src/world/world.rs:478-487 | `set_pixel` keeps the set of loaded chunks. |
| `WorldGrid.AddHeat` | crates/sunaba-core/src/simulation/temperature.rs:103-107 | Adding heat keeps the set of loaded chunks. |
| `Worlds.MoveAttemptRefused` | src/world/world.rs:408-435 | `try_move_world` reports success iff both chunks are loaded and the destination is empty; a refused move changes nothing. |
| `Worlds.MoveAttemptMoves` | src/world/world.rs:437-469 | A successful move puts the source pixel at the destination and an AIR pixel at the source, and changes no other pixel of the world. |
| `Worlds.MoveAttemptConserves` | src/world/world.rs:437-469 | A successful move between two distinct cells keeps the multiset of their materials. |
| `Worlds.PowderTargets` | src/world/world.rs:262-290 | Powder tries (x,y-1) first, then the two downward diagonals; the coin decides which diagonal comes first. |
| `Worlds.LiquidTargets` | src/world/world.rs:292-337 | Liquid tries the powder targets, then the two horizontal neighbours, in the same coin order. |
| `Worlds.GasTargets` | src/world/world.rs:339-385 | Gas tries the powder targets mirrored upward, then the same horizontal neighbours as liquid. |
| `Worlds.FirstMovable` | src/world/world.rs:262-385 | Returns the first target the pixel can move into, with every earlier target refused, or None when every target is refused. |
| `Worlds.ChainMovesFirstPossible` | src/world/world.rs:262-385 | The try-in-order chain makes exactly the move into the first possible target and stops; with no such target it changes nothing. |
| `Worlds.UpdateFire` | src/world/world.rs:571-586 | `update_fire` as written: heat, rise like a gas, then on a roll below 0.02 write SMOKE at the fire's original coordinates. The chunk set is kept. |
| `Worlds.FireOutlivesSmokeRoll` | src/world/world.rs:577-585 | A fire with open air above rises, and a successful smoke roll turns the vacated cell into SMOKE while the fire lives on one cell higher. |
| `Worlds.FireMove` | src/world/world.rs:571-578 | The heat-and-rise part of a fire visit leaves the fire pixel at its destination, which is the cell above whenever that move is possible. |
| `Worlds.UpdateFireCorrectedEndsFire` | src/world/world.rs:577-585 | In the corrected step a successful roll turns the fire into SMOKE wherever it moved; a failed roll leaves the fire there. |
| `Worlds.FirstReacting` | src/world/world.rs:655-703 | The first of the four neighbours, in order up, right, down, left, that reacts; every earlier one does not. None when no neighbour reacts. |
| `Worlds.ReactFromFirst` | src/world/world.rs:655-703 | The neighbour loop applies exactly the reaction of the first reacting neighbour and then stops, or changes nothing. |
| `Worlds.ReactedEffect` | src/world/world.rs:680-700 | A reaction writes output A at the pixel and output B at the neighbour, from the first reaction listed for the pair; it touches nothing else. |
| `Worlds.CheckPixelReactionsEffect` | src/world/world.rs:655-703 | At most one reaction per visit; empty or unloaded neighbours never react, and without a reacting neighbour nothing changes. |
| `Worlds.UpdatePixelOnlyNear` | src/world/world.rs:212-260 | A pixel visit changes no pixel outside the 3×3 block around it and keeps the chunk set. |
| `Worlds.RowCellBijection` | src/world/world.rs:196-210 | Each row's 64 steps visit each column exactly once: left to right on even rows, right to left on odd rows. |
| `Worlds.ScanCellOfRow` | src/world/world.rs:196-210 | Step `i` of row `y` is visit number `y*64+i`. |
| `Worlds.ScanIsBijection` | src/world/world.rs:196-210 | The scan visits each of the 4096 cells exactly once; visit number and cell are inverse maps. |
| `Worlds.ScanBottomUp` | src/world/world.rs:196-210 | Rows are visited from y=0 upward; a later visit is never on a lower row. |
| `Worlds.CAPassStaysNearChunk` | src/world/world.rs:196-210 | Updating a chunk changes no pixel outside that chunk and its one-pixel ring, and loads or drops no chunk. |
| `Worlds.CAPassUnloaded` | src/world/world.rs:212-216 | A pass over a chunk that is not loaded changes nothing. |
| `Worlds.ClearPhaseKeepsMaterials` | src/world/world.rs:173-178 | Phase 1 changes no material and leaves the UPDATED bit clear in every loaded active chunk. |
| `Worlds.CAPhaseStaysNearActive` | src/world/world.rs:180-185 | The sequential CA phase changes only pixels that lie in or right beside an active chunk. |
| `Worlds.StepsForCount` | src/world/world.rs:161-170 | When `n` whole timesteps fit in the accumulator and `n+1` do not, exactly `n` steps run. |
| `Worlds.StepsForLeavesRemainder` | src/world/world.rs:161-170 | What is left of a non-negative accumulator after the steps is in [0, 1/60). |
| `Worlds.StepsForIsWholeSteps` | src/world/world.rs:161-170 | The step count is the number of whole 1/60 s timesteps in the accumulator. |
| `Worlds.ScanChunk` | src/world/world.rs:196-210 | The nested row loops compute `CAPass` over all 64 rows. |
| `Worlds.UpdateRow` | src/world/world.rs:198-209 | One row of the scan, in the row's direction, computes `RowPass`. |
| `Worlds.PassActiveChunks` | src/world/world.rs:180-185 | The loop over the active list computes `CAPhase`, one chunk pass after another. |
| `Worlds.World.constructor` | src/world/world.rs:37-54 | A new world has no chunks and no active chunks, the default materials and reactions, the player at (0,100) and a zero accumulator. |
| `Worlds.World.SetPixel` | src/world/world.rs:478-487 | Writes through `WorldGrid.SetPixel` and changes no other field. |
| `Worlds.World.TryMoveWorld` | src/world/world.rs:408-469 | Returns the result of `MoveAttempt` and stores its chunk map. |
| `Worlds.World.UpdateChunkCA` | src/world/world.rs:196-210 | The chunk map becomes `CAPass` of the old one for that chunk. |
| `Worlds.World.ClearActiveFlags` | src/world/world.rs:173-178 | The chunk map becomes `ClearPhase` of the old one over the active list. |
| `Worlds.World.UpdateActiveChunks` | src/world/world.rs:180-185 | The chunk map becomes `CAPhase` of the old one over the active list. |
| `Worlds.World.StepSimulation` | src/world/world.rs:172-194 | One step clears flags, runs the CA phase and diffuses when the simulator's counter was 1. The counter advances modulo 2. |
| `Worlds.World.Update` | src/world/world.rs:161-170 | `update` runs `StepsFor(acc+dt)` simulation steps and leaves the remainder in the accumulator. The chunks become that many `SimulationStep`s of the old ones. |
| `Worlds.World.ClearAllChunks` | src/world/world.rs:523-528 | Empties the chunk map and the active list. |
| `Worlds.World.AddChunk` | src/world/world.rs:530-542 | Inserts the chunk. It appends the position to the active list only when within Chebyshev distance 2 of the player chunk and not already listed. |
| `Worlds.MoveAttempt` | src/world/world.rs:408-469 | `try_move_world` never adds or drops a loaded chunk; what it moves is stated by the three MoveAttempt lemmas. |
| `Worlds.UpdatePowder` | src/world/world.rs:262-290 | A powder step keeps the set of loaded chunks. |
| `Worlds.UpdateLiquid` | src/world/world.rs:292-337 | A liquid step keeps the set of loaded chunks. |
| `Worlds.UpdateGas` | src/world/world.rs:339-385 | A gas step keeps the set of loaded chunks. |
| `Worlds.UpdateFireCorrected` | src/world/world.rs:571-586 | The corrected fire step keeps the set of loaded chunks. |
| `Worlds.CheckPixelReactions` | src/world/world.rs:655-703 | The reaction check keeps the set of loaded chunks. |
| `Worlds.UpdatePixel` | src/world/world.rs:212-260 | A pixel visit keeps the set of loaded chunks. |
| `Worlds.UpdatePixelKeepsFarPixel` | src/world/world.rs:212-260 | A visit in one chunk leaves every pixel beyond that chunk's neighbours alone. |
| `Worlds.FireOnlyNear` | src/world/world.rs:571-586 | The fire step changes only pixels next to the fire. |
| `Worlds.ReactionsOnlyNear` | src/world/world.rs:655-703 | The reaction check changes only pixels next to the pixel. |
| `Worlds.PassActiveChunk` | src/world/world.rs:180-185 | The pass over the next active chunk continues the phase by exactly one chunk. |
| `Worlds.World.NthStep` | src/world/world.rs:161-194 | Each step of `update` advances the chunks by one simulation step and toggles the temperature counter, keeping the settings and the active list. |
| `Chemistry.FirstCandidate` | crates/sunaba-core/src/world/chemistry_system.rs:118-145 | The first of the offsets (0,1),(1,0),(-1,0),(0,-1) whose pixel is loaded and empty, with every earlier one not; None when there is none. |
| `Chemistry.FireSpotIsNeighbour` | crates/sunaba-core/src/world/chemistry_system.rs:118-145 | A cell where fire may be lit is at Manhattan distance 1 from the burning pixel. |
| `Chemistry.SpreadFireEffect` | crates/sunaba-core/src/world/chemistry_system.rs:118-145 | The fire loop leaves the burning pixel alone, and every pixel it changes is an empty loaded neighbour that is now FIRE. |
| `Chemistry.CheckIgnitionEffect` | crates/sunaba-core/src/world/chemistry_system.rs:86-148 | Without ignition (not flammable, no ignition temperature, or too cold) nothing changes. On ignition the pixel keeps its material and gains BURNING, and at most the first empty loaded neighbour becomes FIRE. |
| `Chemistry.UpdateBurningEffect` | crates/sunaba-core/src/world/chemistry_system.rs:151-191 | A roll at or above the burn rate changes nothing. A roll below it turns the pixel into `burns_to` (or AIR) and adds 20 heat to its cell only. |
| `Chemistry.FireHeat` | crates/sunaba-core/src/world/chemistry_system.rs:59-62 | Before any movement the fire's cell gains 50 heat, capped at 3000, and no pixel changes. |
| `Temperature.PixelToTempCoords` | crates/sunaba-core/src/simulation/temperature.rs:92-95 | Maps a pixel to the 8×8 cell whose block contains it: coordinates in [0,8), by integer division by 8. |
| `Temperature.PixelToTempCoordsOnto` | crates/sunaba-core/src/simulation/temperature.rs:92-95 | Every coarse cell is the image of a pixel. |
| `Temperature.TempIndexBijective` | crates/sunaba-core/src/simulation/temperature.rs:98-100 | `temp_to_index` is a row-major bijection from [0,8)² onto [0,64). |
| `Temperature.AddHeatAtPixelEffect` | crates/sunaba-core/src/simulation/temperature.rs:103-107 | The pixel's cell becomes min(old+heat, 3000); the other 63 cells and all pixels are unchanged. |
| `Temperature.SameBlockSameTemperature` | crates/sunaba-core/src/simulation/temperature.rs:110-114 | All pixels of one 8×8 block read the same temperature. |
| `Temperature.NeighborCountPositive` | crates/sunaba-core/src/simulation/temperature.rs:55-70 | Every cell has at least two in-grid von Neumann neighbours, so the average is defined. |
| `Temperature.DiffusedCellBetween` | crates/sunaba-core/src/simulation/temperature.rs:51-77 | Each new cell is `cur + (avg - cur)*0.1`, with avg over the in-chunk neighbours in the pre-pass snapshot, and lies between cur and avg. |
| `Temperature.UniformIsFixedPoint` | crates/sunaba-core/src/simulation/temperature.rs:240-262 | A uniform field is a fixed point of diffusion. |
| `Temperature.DiffusedStaysInRange` | crates/sunaba-core/src/simulation/temperature.rs:44-80 | Diffusion keeps every cell within the snapshot's [min, max]. |
| `Temperature.DiffuseCellValue` | crates/sunaba-core/src/simulation/temperature.rs:55-76 | The inner neighbour loop computes the diffused value of one cell. |
| `Temperature.DiffuseChunkTemperature` | crates/sunaba-core/src/simulation/temperature.rs:44-80 | The nested 8×8 loop fills a copy with `Diffused` of the snapshot. |
| `Temperature.DiffuseAllFrame` | crates/sunaba-core/src/simulation/temperature.rs:36-40 | Only chunks that are both listed active and loaded change, and only in their temperature grid; the chunk set is kept. |
| `Temperature.TemperatureSimulator.constructor` | crates/sunaba-core/src/simulation/temperature.rs:21-23 | The counter starts at 0. |
| `Temperature.TemperatureSimulator.Update` | crates/sunaba-core/src/simulation/temperature.rs:27-41 | From counter 0 the call only sets it to 1. From counter 1 it resets it to 0 and diffuses the active loaded chunks, so diffusion runs on every second call. |
| `Chemistry.SpreadFire` | crates/sunaba-core/src/world/chemistry_system.rs:118-145 | The fire loop keeps the set of loaded chunks. |
| `Chemistry.CheckIgnition` | crates/sunaba-core/src/world/chemistry_system.rs:86-148 | The ignition check keeps the set of loaded chunks. |
| `Chemistry.LightAndSpread` | crates/sunaba-core/src/world/chemistry_system.rs:118-145 | After a pixel is lit, it keeps its new value, and any other pixel that changed became FIRE. |
| `Chemistry.UpdateBurningMaterial` | crates/sunaba-core/src/world/chemistry_system.rs:151-191 | Burning keeps the set of loaded chunks. |
| `Temperature.Diffused` | crates/sunaba-core/src/simulation/temperature.rs:44-80 | A diffusion pass keeps the 8 × 8 grid size. |
| `Materials.Registered` | src/simulation/materials.rs:342-351 | Registering grows the table with default entries up to the new id, replaces entry `id`, and keeps every other entry. |
| `Materials.RegisterInOrder` | src/simulation/materials.rs:342-351 | Registering definitions whose ids equal their positions rebuilds exactly that list. |
| `Materials.DefaultRegistration` | src/simulation/materials.rs:133-340 | The 15 default definitions registered into an empty table give a table whose entry `i` has id `i`. |
| `Materials.UnknownIdIsAir` | src/simulation/materials.rs:354-357 | An id past the default table falls back to entry 0, the transparent AIR gas. |
| `Materials.BedrockAndAir` | src/simulation/materials.rs:134-141 | BEDROCK is an indestructible structural solid and AIR an indestructible gas. |
| `Materials.Registry.constructor` | src/simulation/materials.rs:125-131 | `Materials::new` leaves the default table in place. |
| `Materials.Registry.RegisterDefaults` | src/simulation/materials.rs:133-340 | Registers the defaults in order; the table is non-empty afterwards. |
| `Materials.Registry.Register` | src/simulation/materials.rs:342-351 | The table becomes `Registered(old table, m)`. |
| `Materials.Registry.Get` | src/simulation/materials.rs:354-357 | Entry `id` when it exists, entry 0 otherwise. |
| `Materials.Registry.GetColor` | src/simulation/materials.rs:359-361 | The colour of the looked-up definition. |
| `LegacyReactions.Find` | src/simulation/reactions.rs:128-158 | None exactly when no reaction applies; otherwise the first one in registration order that matches the pair in either order and whose optional inclusive temperature bounds hold. |
| `LegacyReactions.FindSymmetric` | src/simulation/reactions.rs:130-133 | The lookup does not depend on the order of the two materials. |
| `LegacyReactions.GetOutputsFollowInputs` | src/simulation/reactions.rs:161-169 | Each input gets its own output, in whichever order the caller names the pair. |
| `LegacyReactions.RegisterKeepsPriority` | src/simulation/reactions.rs:121-123 | Appending a reaction never overrides an earlier match. |
| `LegacyReactions.DefaultLookups` | src/simulation/reactions.rs:183-226 | Water and lava react in either order, sand and water do not react, and the outputs follow the inputs. |
| `LegacyReactions.ReactionRegistry.constructor` | src/simulation/reactions.rs:39-46 | The registry holds the default reactions. |
| `LegacyReactions.ReactionRegistry.Register` | src/simulation/reactions.rs:121-123 | Appends the reaction. |
| `LegacyReactions.ReactionRegistry.FindReaction` | src/simulation/reactions.rs:128-158 | The front-to-back scan returns `Find`; a found reaction applies and is registered. |
| `LegacyReactions.FirstApplying` | src/simulation/reactions.rs:128-158 | An applying reaction preceded only by non-applying ones is the one found. |
| `Materials.Registry.RegisterEach` | src/simulation/materials.rs:133-351 | Registering a list leaves the table as registering each definition in turn. |
| `Reactions.PairKey` | crates/sunaba-simulation/src/reactions.rs:979-983 | The normalised key holds the same two ids, lower one first. |
| `Reactions.KeyOfMatches` | crates/sunaba-simulation/src/reactions.rs:946-955 | A reaction's key equals the key of a pair exactly when the reaction matches that pair in some order. |
| `Reactions.Registered` | crates/sunaba-simulation/src/reactions.rs:946-956 | `register` appends the reaction to the bucket of its normalised pair, creating the bucket if needed, and leaves every other bucket alone. |
| `Reactions.RegisterAllBuckets` | crates/sunaba-simulation/src/reactions.rs:946-956 | Buckets keep insertion order: after registering a list, each bucket lists exactly that list's reactions with its key, in order. |
| `Reactions.FirstHolding` | crates/sunaba-simulation/src/reactions.rs:988-1027 | None exactly when no reaction of the bucket has all its conditions met (temperature bounds, light, pressure, catalyst among the neighbours); otherwise the first that has. |
| `Reactions.Find` | crates/sunaba-simulation/src/reactions.rs:969-1028 | A missing bucket gives no reaction; a found reaction matches the pair and has its conditions met. |
| `Reactions.FindSymmetric` | crates/sunaba-simulation/src/reactions.rs:979-983 | The lookup does not depend on the order of the two materials. |
| `Reactions.FindIsLinearScan` | crates/sunaba-simulation/src/reactions.rs:946-1028 | A registry built from a list answers every query exactly as a front-to-back scan of that list would. |
| `Reactions.GetOutputsFollowInputs` | crates/sunaba-simulation/src/reactions.rs:1033-1041 | Each input gets its own output, in whichever order the caller names the pair. |
| `Reactions.SparkRules` | crates/sunaba-simulation/src/reactions.rs:512-535 | The spark rules are exactly one per flammable material other than fire, spark, C-4 and bomb. |
| `Reactions.ThunderRules` | crates/sunaba-simulation/src/reactions.rs:555-578 | The thunder rules are exactly one per non-conducting material other than air, thunder and laser. |
| `Reactions.WaterLavaLookups` | crates/sunaba-simulation/src/reactions.rs:1050-1100 | In the default registry water and lava react in either order, sand and water do not, and the outputs follow the inputs. |
| `Reactions.C4FireNeedsHeat` | crates/sunaba-simulation/src/reactions.rs:1199-1231 | C-4 and fire react below 400 degrees never, and from 400 on by the C-4 detonation rule. |
| `Reactions.MercuryNeedsHeat` | crates/sunaba-simulation/src/reactions.rs:1344-1371 | Mercury and fire react only from 357 degrees, and the mercury becomes poison gas. |
| `Reactions.SparkIgnitesFlammable` | crates/sunaba-simulation/src/reactions.rs:512-535 | A spark next to any material that qualifies for a spark rule always finds a reaction. |
| `Reactions.ThunderDestroysNonConductor` | crates/sunaba-simulation/src/reactions.rs:555-578 | Thunder next to any material that qualifies for a thunder rule always finds a reaction. |
| `Reactions.ElectricalNoMatch` | crates/sunaba-simulation/src/reactions.rs:506-579 | The generated electrical rules all involve spark or thunder. |
| `Reactions.SoapyPressureBubbleUnreachable` | crates/sunaba-simulation/src/reactions.rs:816-850 | As registered, the unconditional bubble rule shadows the pressure rule: soapy water and air always give `soapy_bubble_create`. |
| `Reactions.CorrectedSoapyBubbles` | crates/sunaba-simulation/src/reactions.rs:816-850 | With the pressure rule registered first, a pressure of 10 or more gives the pressure rule and a lower one the plain rule. |
| `Reactions.ReactionRegistry.constructor` | crates/sunaba-simulation/src/reactions.rs:54-61 | The registry is the default table, registered in the source's order, and every bucket holds only reactions of its key. |
| `Reactions.ReactionRegistry.Register` | crates/sunaba-simulation/src/reactions.rs:946-956 | The registry becomes `Registered(old, r)`. |
| `Reactions.ReactionRegistry.FindReaction` | crates/sunaba-simulation/src/reactions.rs:969-1028 | Returns `Find` at the given site; a found reaction matches the pair. |
| `Structural.NeighboursAreAdjacent` | src/simulation/structural.rs:136-141 | The four listed neighbours (up, right, down, left) are exactly the four-adjacent positions. |
| `Structural.ReachableFacts` | src/simulation/structural.rs:116-171 | Reachable positions are structural solids at most 65 from the start, and the start is reachable exactly when it is a structural solid. |
| `Structural.ReachableStep` | src/simulation/structural.rs:129-168 | Stepping from a reachable position within 64 to a structural neighbour stays reachable. |
| `Structural.PathInClosed` | src/simulation/structural.rs:129-168 | A set holding the start and closed under the fill's step holds every reachable position. |
| `Structural.RegionIsReachable` | src/simulation/structural.rs:116-171 | The region is exactly the set of reachable positions. |
| `Structural.VisitNeighbours` | src/simulation/structural.rs:143-166 | The inner loop marks and queues each accepted, not yet visited neighbour, keeps the visited set sound and leaves all the accepted neighbours of the position visited. |
| `Structural.Fill` | src/simulation/structural.rs:116-171 | The breadth-first fill is empty unless the start is accepted, contains the start otherwise, holds only accepted positions within 65, is closed for positions within 64, and equals the reachable region. |
| `Structural.ClosedIsRegion` | src/simulation/structural.rs:129-171 | A sound visited set with an empty queue is the region of the start. |
| `Structural.FloodFill` | src/simulation/structural.rs:116-171 | `flood_fill_structural` on the world's structural solids is that region. |
| `Structural.IsRegionAnchored` | src/simulation/structural.rs:174-184 | True exactly when some loaded pixel of the region holds bedrock. |
| `Structural.ConvertToParticles` | src/simulation/structural.rs:187-194 | Every loaded pixel of the region becomes plain sand and no other pixel changes. |
| `Structural.CheckNeighbour` | src/simulation/structural.rs:68-111 | For one neighbour: not a structural solid gives no change; an anchored region gives no change; an unanchored one turns to sand below 50 pixels and is handed over as debris otherwise. Only structural solids change, all within 65 of the neighbour. |
| `Structural.OnlySandedTrans` | src/simulation/structural.rs:57-112 | Two rounds of sanding are one, and bedrock never changes. |
| `Structural.OnlySandedBedrock` | src/simulation/structural.rs:57-112 | Sanding neither creates nor removes bedrock, and a changed pixel was a structural solid. |
| `Structural.CheckNeighbourEffect` | src/simulation/structural.rs:94-101 | Sanding an unanchored region changes only structural solids within 65 of the neighbour. |
| `Structural.DebrisKept` | src/simulation/structural.rs:102-109 | Debris found after earlier sanding is debris of the original world too. |
| `Structural.CheckPosition` | src/simulation/structural.rs:57-112 | The result is the in-order fold of the per-neighbour outcome (`PositionChecked`): up, right, down, left, each on the world the previous one left. For each neighbour, an unanchored region below 50 pixels becomes sand, one of 50 or more is handed over as debris, and anything else changes nothing. In particular, an unanchored small region above the removed pixel is sand afterwards, and a large one is the first debris. Only structural non-bedrock solids turn to sand, all within 66 of the removed pixel. At most four debris regions result. No structural neighbour means no change. |
| `Structural.CheckStep` | src/simulation/structural.rs:68-111 | One pass of the neighbour loop: its outcome is the per-neighbour outcome on the current world, and its debris is appended. |
| `Structural.CheckNextNeighbour` | src/simulation/structural.rs:68-111 | One pass of the neighbour loop extends the fold by one neighbour's outcome and keeps the guarantees. |
| `Structural.AboveOutcomeFirst` | src/simulation/structural.rs:93-108 | The first neighbour's step sands an unanchored small region, or hands over an unanchored large one as its only debris. |
| `Structural.AboveOutcomeLater` | src/simulation/structural.rs:68-111 | Later neighbours never undo that: sand stays sand, and the first debris stays first. |
| `Structural.ProcessChecks` | src/simulation/structural.rs:41-54 | The result is the in-order fold of `check_position` over the positions (`ChecksTrace`), each on the world the previous check left, with all debris concatenated in order. Returns the number of positions (0 for none, with the world unchanged). Every change is near some position, and every region handed over is debris of the original world. |
| `Structural.CheckNext` | src/simulation/structural.rs:49-51 | One pass of the position loop extends the fold by one `check_position`. |
| `Structural.StructuralIntegritySystem.constructor` | src/simulation/structural.rs:21-25 | The queue starts empty. |
| `Structural.StructuralIntegritySystem.ScheduleCheck` | src/simulation/structural.rs:29-31 | Adds the position to the queue set. |
| `Structural.StructuralIntegritySystem.DrainQueue` | src/simulation/structural.rs:35-37 | Returns each queued position exactly once and empties the queue. |
| `Structural.RegionFacts` | src/simulation/structural.rs:116-171 | The region a fill finds holds only structural solids, all within 65 of the start. |
| `ChunkStatus.NeedsCAUpdate` | crates/sunaba-core/src/world/chunk_status.rs:14-38 | True exactly when the chunk or one of its eight neighbours is loaded and has a dirty rectangle or is simulation-active. |
| `ChunkStatus.PlayerChunk` | crates/sunaba-core/src/world/chunk_status.rs:47-48 | The player's chunk contains the position truncated to an integer, by floored division by 64. |
| `ChunkStatus.RetainedMembers` | crates/sunaba-core/src/world/chunk_status.rs:51-55 | The retain step keeps exactly the active positions within the radius on both axes. |
| `ChunkStatus.RetainedAll` | crates/sunaba-core/src/world/chunk_status.rs:51-55 | When every active position is near, the list is kept whole and in order. |
| `ChunkStatus.RetainedDistinct` | crates/sunaba-core/src/world/chunk_status.rs:51-55 | Retaining keeps positions distinct. |
| `ChunkStatus.ScanRowsMembers` | crates/sunaba-core/src/world/chunk_status.rs:59-78 | The square scan appends exactly the loaded, not yet active positions of the square. |
| `ChunkStatus.ScanRowsDistinct` | crates/sunaba-core/src/world/chunk_status.rs:59-78 | The scan appends each position at most once. |
| `ChunkStatus.ActiveListMembers` | crates/sunaba-core/src/world/chunk_status.rs:42-81 | Afterwards the active list holds exactly the positions within the radius that were active or are loaded. |
| `ChunkStatus.AddedAreLoaded` | crates/sunaba-core/src/world/chunk_status.rs:65-70 | Every appended position is a loaded chunk that was not active. |
| `ChunkStatus.ActiveListDistinct` | crates/sunaba-core/src/world/chunk_status.rs:242-256 | No position is active twice afterwards if none was before. |
| `ChunkStatus.UpdateSettles` | crates/sunaba-core/src/world/chunk_status.rs:42-81 | The update always leaves a settled state. |
| `ChunkStatus.SettledIsFixed` | crates/sunaba-core/src/world/chunk_status.rs:42-81 | On a settled state a second update keeps the list and adds nothing, so it is idempotent. |
| `ChunkStatus.ChunkManager.UpdateActiveChunks` | crates/sunaba-core/src/world/chunk_status.rs:42-81 | The list becomes the retained positions plus the newly active ones in scan order. The count returned is the number added. Exactly the added chunks gain `simulation_active`. |
| `ChunkStatus.ChunkManager.ActivateRow` | crates/sunaba-core/src/world/chunk_status.rs:60-77 | One row of the scan appends that row's loaded, not yet active positions and returns how many. |
| `ChunkStatus.ChunkManager.VisitCandidate` | crates/sunaba-core/src/world/chunk_status.rs:63-76 | One cell: appended and marked exactly when loaded and not yet active. |
| `ChunkStatus.ChunkManager.EnsureChunksForArea` | crates/sunaba-core/src/world/chunk_status.rs:86-105 | Every chunk overlapping the rectangle is loaded afterwards. Missing ones are new empty chunks, loaded ones keep their contents, and no other chunk appears. |
| `ChunkStatus.Activated` | crates/sunaba-core/src/world/chunk_status.rs:65-70 | Activation keeps the set of loaded chunks. |
| `ChunkStatus.ChunkManager.constructor` | crates/sunaba-core/src/world/chunk_status.rs:42-81 | Starts with no chunks and an empty active list. |
| `NeighborQueries.ProbeLength` | crates/sunaba-core/src/world/neighbor_queries.rs:21-39 | At most one hit per offset, and exactly one per offset when every neighbour's chunk is loaded. |
| `NeighborQueries.ProbeMember` | crates/sunaba-core/src/world/neighbor_queries.rs:21-39 | A hit is reported exactly for an offset whose chunk is loaded, carrying that pixel's material. |
| `NeighborQueries.Get8Neighbors` | crates/sunaba-core/src/world/neighbor_queries.rs:14-42 | The materials of the loaded neighbours in NW, N, NE, W, E, SW, S, SE order, at most eight. |
| `NeighborQueries.ForEachOrthogonalNeighbor` | crates/sunaba-core/src/world/neighbor_queries.rs:48-66 | One callback per loaded orthogonal neighbour, in the order (0,1), (1,0), (0,-1), (-1,0), at most four. |
| `NeighborQueries.LoneCornerEight` | crates/sunaba-core/src/world/neighbor_queries.rs:168-176 | At the corner (0,0) of a lone chunk only three of the eight neighbours are reported. |
| `NeighborQueries.NineCornerEight` | crates/sunaba-core/src/world/neighbor_queries.rs:179-187 | With the nine chunks around the origin loaded all eight neighbours are reported. |
| `NeighborQueries.LoneCornerOrthogonal` | crates/sunaba-core/src/world/neighbor_queries.rs:215-225 | At that corner only two orthogonal neighbours are visited. |
| `NeighborQueries.DiscInSquare` | crates/sunaba-core/src/world/neighbor_queries.rs:82-85 | A disc offset lies inside the scanned square, so the square scan misses no disc pixel. |
| `NeighborQueries.DiscMember` | crates/sunaba-core/src/world/neighbor_queries.rs:73-100 | Exactly the loaded pixels with dx²+dy² ≤ r² are returned, each with its material; a negative radius yields none. |
| `NeighborQueries.DiscSorted` | crates/sunaba-core/src/world/neighbor_queries.rs:82-96 | The pixels come in row-major order, so none is listed twice. |
| `NeighborQueries.GetPixelsInRadius` | crates/sunaba-core/src/world/neighbor_queries.rs:73-100 | The nested loop returns the disc. |
| `NeighborQueries.ScanDiscRow` | crates/sunaba-core/src/world/neighbor_queries.rs:83-95 | The inner loop appends one row of the disc. |
| `NeighborQueries.DiscRadiusZero` | crates/sunaba-core/src/world/neighbor_queries.rs:228-236 | Radius 0 yields only the centre. |
| `NeighborQueries.DiscRadiusOne` | crates/sunaba-core/src/world/neighbor_queries.rs:239-251 | Radius 1 yields five pixels. |
| `NeighborQueries.DiscRadiusTwo` | crates/sunaba-core/src/world/neighbor_queries.rs:269-282 | At radius 2 the diagonal (2,2) is outside and (2,0) inside. |
| `Electrical.GrewMeans` | crates/sunaba-core/src/world/electrical_system.rs:55-59 | One powering step keeps every flag bit but POWERED, never clears POWERED, and sets it only on a conductive pixel. |
| `Electrical.PowerAtEffect` | crates/sunaba-core/src/world/electrical_system.rs:37-62 | One neighbour step from a source or powered conductor only grows the chunk, and each change is explained by a spreading neighbour. That it does power the neighbour is `PowerAtPowers`. |
| `Electrical.UpdateEffect` | crates/sunaba-core/src/world/electrical_system.rs:13-33 | The pass never changes a material id or the coarse grids, and changes a flag word only by adding POWERED to a conductive pixel. Every changed pixel has a spreading eight-neighbour after the pass. This is the safety half; that power does spread is `UpdateSpreads`. |
| `Electrical.PowerNeighborsPowers` | crates/sunaba-core/src/world/electrical_system.rs:36-62 | Around a spreading pixel, `power_neighbors` leaves every conductive eight-neighbour inside the chunk powered. |
| `Electrical.PowerAtPowers` | crates/sunaba-core/src/world/electrical_system.rs:51-59 | One neighbour step leaves a conductive in-chunk neighbour powered. |
| `Electrical.UpdateSpreads` | crates/sunaba-core/src/world/electrical_system.rs:13-33 | Power spreads: after one pass, every conductive in-chunk eight-neighbour of a pixel that was a spark source or a powered conductor is powered. |
| `Electrical.QuietChunkUnchanged` | crates/sunaba-core/src/world/electrical_system.rs:22-30 | A chunk with no spark source and no powered conductor comes out unchanged, dirty state included. |
| `Electrical.UpdateChunk` | crates/sunaba-core/src/world/electrical_system.rs:13-33 | The in-place nested scan leaves the chunk equal to `Update` of its old value. |
| `Electrical.UpdateRow` | crates/sunaba-core/src/world/electrical_system.rs:19-31 | The inner loop scans one row. |
| `Electrical.PowerNeighborsAt` | crates/sunaba-core/src/world/electrical_system.rs:36-63 | `power_neighbors` leaves the chunk equal to `PowerNeighbors` of its old value. |
| `Electrical.PowerNeighborRow` | crates/sunaba-core/src/world/electrical_system.rs:38-61 | The inner loop handles one row of the 3×3 neighbourhood. |
| `SpecialBehaviors.DirectionRoundTrip` | crates/sunaba-core/src/world/special_behaviors_system.rs:383-399 | Writing a direction 0..3 into the flags and reading it back gives that direction. |
| `SpecialBehaviors.WithDirectionKeepsOtherBits` | crates/sunaba-core/src/world/special_behaviors_system.rs:390-399 | Writing a direction changes only the two direction bits. |
| `SpecialBehaviors.DirectionRewrite` | crates/sunaba-core/src/world/special_behaviors_system.rs:383-399 | Rewriting the direction a flag word already holds leaves it unchanged. |
| `SpecialBehaviors.DirectionOffsets` | crates/sunaba-core/src/world/special_behaviors_system.rs:402-410 | Directions 0..3 are four distinct unit steps; any other value is no step. |
| `SpecialBehaviors.NeighborPos` | crates/sunaba-core/src/world/special_behaviors_system.rs:413-436 | The local coordinates returned are always inside a chunk. |
| `SpecialBehaviors.NeighborPosSameWorld` | crates/sunaba-core/src/world/special_behaviors_system.rs:413-436 | One step outside the chunk at most, the result names the same world pixel in a chunk at most one away; inside the chunk the position is kept. |
| `SpecialBehaviors.NeighborPosMoves` | crates/sunaba-core/src/world/special_behaviors_system.rs:413-436 | A step from an in-chunk pixel never lands on the same pixel. |
| `SpecialBehaviors.CollectMember` | crates/sunaba-core/src/world/special_behaviors_system.rs:59-76 | A position is collected exactly when its chunk is listed and loaded and its pixel passes the selection. |
| `SpecialBehaviors.CollectSpots` | crates/sunaba-core/src/world/special_behaviors_system.rs:59-76 | The collection loops return the collected positions in chunk, row, cell order. |
| `SpecialBehaviors.PutEffect` | crates/sunaba-core/src/world/special_behaviors_system.rs:103-106 | A write through `set_pixel` changes only the written cell, and only when its chunk is loaded. |
| `SpecialBehaviors.FuseCandidatesInChunk` | crates/sunaba-core/src/world/special_behaviors_system.rs:66-71 | Every collected burning fuse is inside its chunk and carries a direction below 4. |
| `SpecialBehaviors.FuseStepEffect` | crates/sunaba-core/src/world/special_behaviors_system.rs:85-116 | An advancing fuse becomes plain ASH. |
| `SpecialBehaviors.FuseStepLights` | crates/sunaba-core/src/world/special_behaviors_system.rs:92-116 | The next cell, when it is fuse or flammable, keeps its material, gains BURNING and carries the fuse's direction. |
| `SpecialBehaviors.FuseStepElsewhere` | crates/sunaba-core/src/world/special_behaviors_system.rs:85-116 | Every other cell keeps its pixel. |
| `SpecialBehaviors.FuseStepIdle` | crates/sunaba-core/src/world/special_behaviors_system.rs:80-83 | A failed roll changes nothing. |
| `SpecialBehaviors.ProcessFuses` | crates/sunaba-core/src/world/special_behaviors_system.rs:79-117 | The processing loop equals the fold of fuse steps over the collected fuses. |
| `SpecialBehaviors.LitPixel` | crates/sunaba-core/src/world/special_behaviors_system.rs:110-113 | A lit pixel keeps its material, is BURNING and holds the direction. |
| `SpecialBehaviors.VineStepGrows` | crates/sunaba-core/src/world/special_behaviors_system.rs:170-185 | A tip grows into the loaded AIR cell it drew, which becomes a fresh active vine. |
| `SpecialBehaviors.VineStepEffect` | crates/sunaba-core/src/world/special_behaviors_system.rs:146-197 | A vine step changes at most two cells: the AIR cell grown into, now a fresh tip, and the old tip, which keeps its material and loses only BEHAVIOR_ACTIVE. |
| `SpecialBehaviors.DormantPixel` | crates/sunaba-core/src/world/special_behaviors_system.rs:191-193 | A deactivated tip keeps its material and every bit but BEHAVIOR_ACTIVE, which is clear. |
| `SpecialBehaviors.ProcessVines` | crates/sunaba-core/src/world/special_behaviors_system.rs:146-197 | The processing loop equals the fold of vine steps. |
| `SpecialBehaviors.VirusStepEffect` | crates/sunaba-core/src/world/special_behaviors_system.rs:224-264 | A virus step marks at most one loaded neighbour that is not air, bedrock, virus or a conductor with INFECTED, keeping its material. |
| `SpecialBehaviors.MarkedPixel` | crates/sunaba-core/src/world/special_behaviors_system.rs:258-260 | A marked pixel keeps its material and every bit, and has INFECTED set. |
| `SpecialBehaviors.ProcessViruses` | crates/sunaba-core/src/world/special_behaviors_system.rs:224-264 | The spreading loop equals the fold of virus steps. |
| `SpecialBehaviors.TransformAllCells` | crates/sunaba-core/src/world/special_behaviors_system.rs:266-283 | Every pixel of a listed, loaded chunk is its transformed self; other chunks are untouched. |
| `SpecialBehaviors.NoInfectionLeft` | crates/sunaba-core/src/world/special_behaviors_system.rs:266-283 | No pixel of a listed chunk stays INFECTED, and an infected one becomes a fresh VIRUS pixel. |
| `SpecialBehaviors.TransformChunks` | crates/sunaba-core/src/world/special_behaviors_system.rs:267-283 | The in-place loop over the listed chunks equals `TransformAll`. |
| `SpecialBehaviors.SourceFrom` | crates/sunaba-core/src/world/special_behaviors_system.rs:316-345 | A source found is a copyable material: not AIR, CLONE or VIRUS. |
| `SpecialBehaviors.TargetFrom` | crates/sunaba-core/src/world/special_behaviors_system.rs:350-375 | A target found is a loaded neighbour holding AIR. |
| `SpecialBehaviors.CloneStepEffect` | crates/sunaba-core/src/world/special_behaviors_system.rs:310-376 | A clone changes at most one cell, a neighbouring AIR cell, into a copy of the first copyable neighbour; nothing happens when either search fails. |
| `SpecialBehaviors.CloneStepMethod` | crates/sunaba-core/src/world/special_behaviors_system.rs:316-376 | The two nested neighbour loops compute the clone step. |
| `SpecialBehaviors.CloneAsWrittenOneCopy` | crates/sunaba-core/src/world/special_behaviors_system.rs:371 | As written, a whole clone pass changes at most one cell, because the first copy returns from the whole pass. |
| `SpecialBehaviors.CloneEarlyReturnWitness` | crates/sunaba-core/src/world/special_behaviors_system.rs:371 | Two clones that can both copy: as written only the first copies; the intended pass copies at both. |
| `SpecialBehaviors.CloneStaysDone` | crates/sunaba-core/src/world/special_behaviors_system.rs:371 | Once the as-written pass has copied, later clones change nothing. |
| `SpecialBehaviors.ProcessClonesAsWritten` | crates/sunaba-core/src/world/special_behaviors_system.rs:310-377 | The processing loop, with its early return, equals the as-written fold. |
| `SpecialBehaviors.ProcessClones` | crates/sunaba-core/src/world/special_behaviors_system.rs:310-377 | The corrected loop, one copy per clone, equals the fold of clone steps. |
| `SpecialBehaviors.UpdateAll` | crates/sunaba-core/src/world/special_behaviors_system.rs:38-49 | Fuse, vine, virus and clone passes run in that order, each on the map the previous one left. |
| `SpecialBehaviors.FuseNext` | crates/sunaba-core/src/world/special_behaviors_system.rs:85-90 | The cell a fuse burns towards is a cell in range. |
| `SpecialBehaviors.VineNext` | crates/sunaba-core/src/world/special_behaviors_system.rs:146-169 | The cell a tip grows towards is a cell in range. |
| `SpecialBehaviors.VirusNext` | crates/sunaba-core/src/world/special_behaviors_system.rs:224-235 | The neighbour a virus draws is a cell in range. |
| `SpecialBehaviors.LightEffect` | crates/sunaba-core/src/world/special_behaviors_system.rs:110-113 | Lighting changes only the target cell, when it is loaded, to the lit fuse facing the direction. |
| `SpecialBehaviors.DeactivateEffect` | crates/sunaba-core/src/world/special_behaviors_system.rs:191-193 | Deactivating changes only the tip's cell, to its dormant form. |
| `SpecialBehaviors.TransformChunk` | crates/sunaba-core/src/world/special_behaviors_system.rs:267-283 | The nested loop leaves the chunk equal to the transformation function applied to it. |
| `PixelEntities.OffsetRoundTrip` | crates/sunaba-core/src/world/pixel_entity_system.rs:573-594 | `offset_to_direction` inverts `direction_to_offset` on the four directions. |
| `PixelEntities.DirectionRoundTrip` | crates/sunaba-core/src/world/pixel_entity_system.rs:573-594 | `direction_to_offset` inverts `offset_to_direction` on the four unit steps. |
| `PixelEntities.CarryEffect` | crates/sunaba-core/src/world/pixel_entity_system.rs:146-166 | A move writes the left-behind pixel at the source and the moved pixel, with its new heading, at a loaded target; every other cell is unchanged. |
| `PixelEntities.HeadedPixel` | crates/sunaba-core/src/world/pixel_entity_system.rs:151-158 | Rewriting the heading keeps the material and stores the direction. |
| `PixelEntities.AntOffset` | crates/sunaba-core/src/world/pixel_entity_system.rs:84-120 | An ant tries one step right, one left, or one down. |
| `PixelEntities.AntTargetsMove` | crates/sunaba-core/src/world/pixel_entity_system.rs:122-171 | The walk target and the climb target differ from the ant's own cell. |
| `PixelEntities.AntStepEffect` | crates/sunaba-core/src/world/pixel_entity_system.rs:78-203 | An ant step changes the ant's cell and at most one other: a loaded cell that held AIR, or a gas other than water, now holds the ant and the ant's cell is AIR. A turn changes only the ant's own cell. |
| `PixelEntities.AntCountKept` | crates/sunaba-core/src/world/pixel_entity_system.rs:146-201 | The number of ants is kept: a changed cell other than the ant's own held no ant and now holds the ant, and the ant's cell holds none. |
| `PixelEntities.StepTargetMoves` | crates/sunaba-core/src/world/pixel_entity_system.rs:323-326 | The cell a bird or fish steps to is never its own cell. |
| `PixelEntities.BirdStepEffect` | crates/sunaba-core/src/world/pixel_entity_system.rs:314-354 | A bird moves only into AIR or a gas other than a bird, leaves AIR and heads the way it moved; nothing else changes. |
| `PixelEntities.WaterCountIsSize` | crates/sunaba-core/src/world/pixel_entity_system.rs:528-546 | The counting loop counts the water neighbours. |
| `PixelEntities.InWaterMeans` | crates/sunaba-core/src/world/pixel_entity_system.rs:521-549 | A pixel is in water exactly when at least three of its eight neighbours are loaded WATER. |
| `PixelEntities.IsPixelInWater` | crates/sunaba-core/src/world/pixel_entity_system.rs:521-549 | The loop computes `InWater`. |
| `PixelEntities.FishSwims` | crates/sunaba-core/src/world/pixel_entity_system.rs:485-506 | A swimming fish moves only into WATER, leaves WATER behind and heads the way it swam. |
| `PixelEntities.FishTurns` | crates/sunaba-core/src/world/pixel_entity_system.rs:507-516 | A blocked fish in water stays, turns to (dir + 2) mod 4, and nothing else changes. |
| `PixelEntities.FishCountKept` | crates/sunaba-core/src/world/pixel_entity_system.rs:394-516 | Every fish branch keeps the number of fish: the cell entered held AIR or WATER and now holds the fish. |
| `PixelEntities.FishCandidates` | crates/sunaba-core/src/world/pixel_entity_system.rs:366-380 | Every collected fish is in its chunk with a direction below 4. |
| `PixelEntities.ProcessAnts` | crates/sunaba-core/src/world/pixel_entity_system.rs:78-203 | The ant loop equals the fold of ant steps. |
| `PixelEntities.MoveAnt` | crates/sunaba-core/src/world/pixel_entity_system.rs:84-202 | The loop body computes one ant step. |
| `PixelEntities.ProcessBirds` | crates/sunaba-core/src/world/pixel_entity_system.rs:231-355 | The bird loop equals the fold of bird steps. |
| `PixelEntities.MoveBird` | crates/sunaba-core/src/world/pixel_entity_system.rs:323-353 | The loop body computes one bird step. |
| `PixelEntities.ProcessFish` | crates/sunaba-core/src/world/pixel_entity_system.rs:383-517 | The fish loop equals the fold of fish steps. |
| `PixelEntities.MoveFish` | crates/sunaba-core/src/world/pixel_entity_system.rs:391-516 | The loop body computes one fish step. |
| `PixelEntities.UpdateAll` | crates/sunaba-core/src/world/pixel_entity_system.rs:42-52 | Ants, then birds, then fish, each on the map the previous pass left. |
| `PixelEntities.AntTarget` | crates/sunaba-core/src/world/pixel_entity_system.rs:122-125 | The ant's step leads to a cell in range. |
| `PixelEntities.ClimbTarget` | crates/sunaba-core/src/world/pixel_entity_system.rs:172-175 | The climb leads to a cell in range. |
| `PixelEntities.TurnEffect` | crates/sunaba-core/src/world/pixel_entity_system.rs:151-158 | Turning changes only the entity's own cell, to the same pixel with the new heading. |
| `FallingChunks.RoundIsNearest` | crates/sunaba-core/src/simulation/falling_chunks.rs:63 | `round` picks an integer within one half of its argument. |
| `FallingChunks.CeilBounds` | crates/sunaba-core/src/simulation/falling_chunks.rs:110 | `ceil` is the least integer not below its argument, and at least 1 for a positive one. |
| `FallingChunks.MeanWithin` | crates/sunaba-core/src/simulation/falling_chunks.rs:178-187 | The mean of a coordinate over a non-empty set lies within that coordinate's range. |
| `FallingChunks.CalculateCenter` | crates/sunaba-core/src/simulation/falling_chunks.rs:178-187 | The centre is the mean pixel position, or (0, 0) for no pixels. |
| `FallingChunks.RelativeSize` | crates/sunaba-core/src/simulation/falling_chunks.rs:64-67 | Re-keying by the rounded centre keeps one entry per pixel. |
| `FallingChunks.RelativeRoundTrip` | crates/sunaba-core/src/simulation/falling_chunks.rs:63-67 | Adding the centre back to each relative key gives the original pixel and material, and every pixel has a relative key. |
| `FallingChunks.CanMoveChunk` | crates/sunaba-core/src/simulation/falling_chunks.rs:160-175 | The scan, stopping at the first collision, is true exactly when no shifted pixel is solid. |
| `FallingChunks.MovesGuarded` | crates/sunaba-core/src/simulation/falling_chunks.rs:113-122 | Every one-pixel descent is guarded: each step taken was clear, and the step after them, if any, was blocked. |
| `FallingChunks.Descend` | crates/sunaba-core/src/simulation/falling_chunks.rs:110-122 | The descent loop takes `Moves` steps and yields the body lowered that far, with velocity 0 when blocked. |
| `FallingChunks.SettlesIff` | crates/sunaba-core/src/simulation/falling_chunks.rs:103-134 | A body settles exactly when it moves down this frame and its first step is already blocked. |
| `FallingChunks.StepKeeps` | crates/sunaba-core/src/simulation/falling_chunks.rs:99-137 | After a frame the velocity is the accelerated one or 0, never below the terminal velocity. The body keeps its pixels, id and horizontal position and has not risen. |
| `FallingChunks.FrameSizes` | crates/sunaba-core/src/simulation/falling_chunks.rs:96-140 | Every body is kept or settled. |
| `FallingChunks.FramePartitions` | crates/sunaba-core/src/simulation/falling_chunks.rs:96-140 | A frame splits the ids: each is kept or settled, none is both, none is invented, and the kept ones stay distinct. |
| `FallingChunks.FrameKeepsValid` | crates/sunaba-core/src/simulation/falling_chunks.rs:91-141 | A frame keeps ids distinct and below the next id and every kept body no faster than the terminal velocity. |
| `FallingChunks.RenderData` | crates/sunaba-core/src/simulation/falling_chunks.rs:144-152 | One entry per body, holding its centre and pixels. |
| `FallingChunks.NewBodyHolds` | crates/sunaba-core/src/simulation/falling_chunks.rs:59-85 | A new body holds exactly the given pixels: put back around the rounded centre they are the input. |
| `FallingChunks.FallingChunkSystem.constructor` | crates/sunaba-core/src/simulation/falling_chunks.rs:45-50 | No bodies, next id 0. |
| `FallingChunks.FallingChunkSystem.CreateChunk` | crates/sunaba-core/src/simulation/falling_chunks.rs:54-88 | No pixels gives id 0 and no change. Otherwise a new body at rest is appended under a fresh id, the next id grows by one and the count by one. |
| `FallingChunks.FallingChunkSystem.Update` | crates/sunaba-core/src/simulation/falling_chunks.rs:91-141 | Every body falls for one frame. Settled bodies are removed and returned in order, the rest stay in order, the count drops by the number settled, and every kept body is no faster than the terminal velocity. |
| `FallingChunks.Frame` | crates/sunaba-core/src/simulation/falling_chunks.rs:99-138 | The removal loop leaves the kept bodies and returns the settled ones. |
| `FallingChunks.StepChunk` | crates/sunaba-core/src/simulation/falling_chunks.rs:100-134 | The loop body computes one body's frame. |
| `FallingChunks.NewBody` | crates/sunaba-core/src/simulation/falling_chunks.rs:59-85 | A new body is at rest at the computed centre, with the given id. |
| `Regeneration.SpawnPassPixels` | src/simulation/regeneration.rs:47-94 | A pass puts FRUIT exactly into the AIR cells directly after a plant whose roll succeeded, and leaves every other cell as it was. |
| `Regeneration.SpawnOnlyFillsAir` | src/simulation/regeneration.rs:66-91 | A pass changes only AIR to FRUIT, next to the plant that caused it, so nothing else is overwritten and each plant makes at most one fruit. |
| `Regeneration.NoFruitPastBlockedCell` | src/simulation/regeneration.rs:86-90 | As written the search never looks past the first cell: with a non-air cell there, AIR two cells on stays AIR. |
| `Regeneration.NearestAirBelow` | src/simulation/regeneration.rs:66-91 | The intended search finds the nearest AIR cell among the next three, stopping at the chunk edge, with no AIR before it; none means no AIR there. |
| `Regeneration.FruitBelowNearestEffect` | src/simulation/regeneration.rs:66-91 | The intended search writes FRUIT into that nearest AIR cell and nowhere else, and replaces only AIR. |
| `Regeneration.NearestAirScene` | src/simulation/regeneration.rs:187-210 | The nearest-air test scene (STONE, then AIR): as written no fruit appears; the intended search fills the AIR and keeps the STONE. |
| `Regeneration.SpawnFruitInChunk` | src/simulation/regeneration.rs:47-94 | The in-place nested scan leaves the chunk equal to `SpawnPass` of its old value. |
| `Regeneration.SpawnFruitInRow` | src/simulation/regeneration.rs:53-92 | The inner loop scans one row. |
| `Regeneration.SpawnFruitAt` | src/simulation/regeneration.rs:54-91 | One cell of the scan, with the search as written. |
| `Regeneration.SpawnActiveFrame` | src/simulation/regeneration.rs:39-43 | The passes keep the loaded chunks and change only listed ones. |
| `Regeneration.SpawnActiveKeepsNonAir` | src/simulation/regeneration.rs:39-43 | A pixel that is not AIR is never changed by the passes. |
| `Regeneration.SpawnInActiveChunks` | src/simulation/regeneration.rs:39-43 | The loop over the active positions equals the passes. |
| `Regeneration.RegenerationSystem.constructor` | src/simulation/regeneration.rs:18-22 | The accumulator starts at 0. |
| `Regeneration.RegenerationSystem.Update` | src/simulation/regeneration.rs:27-44 | Below the 5-second interval only time accumulates. At the interval the interval is subtracted and every loaded active chunk gets one pass. |
| `LevelBuilding.PaintPixels` | crates/sunaba-core/src/levels/builder.rs:287-295 | A paint writes a fresh pixel of the brush's material exactly at the rectangle's cells where the brush gives one. Every other cell and the chunk's position are kept. |
| `LevelBuilding.PaintArea` | crates/sunaba-core/src/levels/builder.rs:288-294 | The nested fill loops compute `Paint`. |
| `LevelBuilding.FillRectCells` | crates/sunaba-core/src/levels/builder.rs:287-295 | The chunk builder's rectangle fill writes the material into the rectangle's in-chunk cells only. |
| `LevelBuilding.FillCircleCells` | crates/sunaba-core/src/levels/builder.rs:303-316 | Exactly the cells with dx² + dy² ≤ r² receive the material. |
| `LevelBuilding.FillPatternCells` | crates/sunaba-core/src/levels/builder.rs:333-347 | A cell the pattern maps to AIR is left alone, so the pattern fill never writes AIR. |
| `LevelBuilding.RunCommandsKeepsPosition` | crates/sunaba-core/src/levels/builder.rs:264-348 | The chunk builder's calls edit pixels only; the chunk keeps its position. |
| `LevelBuilding.ChunkBuilder.constructor` | crates/sunaba-core/src/levels/builder.rs:164-165 | The handle wraps the chunk. |
| `LevelBuilding.ChunkBuilder.SetMaterial` | crates/sunaba-core/src/levels/builder.rs:275-279 | One cell gets the material, and coordinates outside the chunk are ignored. |
| `LevelBuilding.ChunkBuilder.FillRect` | crates/sunaba-core/src/levels/builder.rs:287-295 | The chunk becomes the rectangle paint of its old value. |
| `LevelBuilding.ChunkBuilder.FillCircle` | crates/sunaba-core/src/levels/builder.rs:303-316 | The chunk becomes the disc paint of its old value. |
| `LevelBuilding.ChunkBuilder.FillPattern` | crates/sunaba-core/src/levels/builder.rs:333-347 | The chunk becomes the pattern paint of its old value. |
| `LevelBuilding.ChunkBuilder.Run` | crates/sunaba-core/src/levels/builder.rs:160-167 | The closure's calls run in order on the chunk. |
| `LevelBuilding.FillChunkPixels` | crates/sunaba-core/src/levels/builder.rs:62-150 | A grid fill sets exactly its covered cells of a chunk to a fresh pixel of its material. |
| `LevelBuilding.SkippedHasNoCover` | crates/sunaba-core/src/levels/builder.rs:127-133 | A chunk the rectangle does not overlap has no covered cell. |
| `LevelBuilding.GetOrCreateIdempotent` | crates/sunaba-core/src/levels/builder.rs:250-254 | Getting or creating a chunk twice is getting or creating it once. |
| `LevelBuilding.VisitGetsOrCreates` | crates/sunaba-core/src/levels/builder.rs:141-146 | A visit is `get_or_create_chunk` followed by the fill, at a visited chunk only. |
| `LevelBuilding.GridSweepFilled` | crates/sunaba-core/src/levels/builder.rs:119-148 | Sweeping the grid fills the visited grid chunks and nothing else. |
| `LevelBuilding.Sweep` | crates/sunaba-core/src/levels/builder.rs:119-148 | The nested loops over the grid's rows and columns compute the sweep. |
| `LevelBuilding.SweepRow` | crates/sunaba-core/src/levels/builder.rs:120-147 | One row of the sweep. |
| `LevelBuilding.SweepKeyed` | crates/sunaba-core/src/levels/builder.rs:250-254 | A sweep keeps every chunk under its own position. |
| `LevelBuilding.SweepLook` | crates/sunaba-core/src/levels/builder.rs:118-150 | At a world pixel after a sweep, a covered cell of a grid chunk holds the material. An uncovered cell keeps what it had, or AIR in a newly created chunk. |
| `LevelBuilding.RectWrites` | crates/sunaba-core/src/levels/builder.rs:118-150 | Inside the world rectangle, within the grid, every pixel is the material. |
| `LevelBuilding.RectKeeps` | crates/sunaba-core/src/levels/builder.rs:118-150 | Outside the rectangle a loaded chunk stays loaded and keeps its pixel. |
| `LevelBuilding.RectCovers` | crates/sunaba-core/src/levels/builder.rs:122-146 | The clipped local ranges cover a cell exactly when its world position lies in the rectangle. |
| `LevelBuilding.FoundationLook` | crates/sunaba-core/src/levels/builder.rs:62-85 | World rows -128 to -57 of the grid are bedrock. |
| `LevelBuilding.LayerLook` | crates/sunaba-core/src/levels/builder.rs:93-107 | Local rows y0..y1 of every grid chunk hold the material. |
| `LevelBuilding.FillsAt` | crates/sunaba-core/src/levels/builder.rs:176-235 | After a sequence of fills every cell holds the material of the last fill covering it. |
| `LevelBuilding.FillsLook` | crates/sunaba-core/src/levels/builder.rs:176-235 | What `get_pixel` sees after a sequence of fills. |
| `LevelBuilding.ChamberCovers` | crates/sunaba-core/src/levels/builder.rs:176-214 | The chamber's four fills cover a cell exactly when it lies in one of the walls. |
| `LevelBuilding.ChamberLook` | crates/sunaba-core/src/levels/builder.rs:176-214 | Within the grid the walls are the material, and a loaded cell off the walls, the hollow inside included, is untouched. |
| `LevelBuilding.PyramidCovers` | crates/sunaba-core/src/levels/builder.rs:222-235 | The layer fills cover a cell exactly when it lies in the pyramid. |
| `LevelBuilding.PyramidLook` | crates/sunaba-core/src/levels/builder.rs:222-235 | Within the grid the pyramid is the material, and a loaded cell outside it is untouched. |
| `LevelBuilding.PyramidNarrows` | crates/sunaba-core/src/levels/builder.rs:223-233 | Every layer cell above the base stands on a cell of the layer below. |
| `LevelBuilding.LevelBuilder.constructor` | crates/sunaba-core/src/levels/builder.rs:34-40 | The standard 5×5 grid with no chunks yet. |
| `LevelBuilding.LevelBuilder.ChunkGrid` | crates/sunaba-core/src/levels/builder.rs:48-56 | Sets the inclusive chunk ranges and keeps the chunks. |
| `LevelBuilding.LevelBuilder.Apply` | crates/sunaba-core/src/levels/builder.rs:119-148 | One fill swept over the grid, creating every chunk it visits. |
| `LevelBuilding.LevelBuilder.BedrockFoundation` | crates/sunaba-core/src/levels/builder.rs:62-85 | Row -2 all bedrock, row -1 bedrock in its bottom 8 rows, every grid chunk created. |
| `LevelBuilding.LevelBuilder.FillLayer` | crates/sunaba-core/src/levels/builder.rs:93-107 | Local rows y0..y1 of every grid chunk, creating missing chunks. |
| `LevelBuilding.LevelBuilder.FillRect` | crates/sunaba-core/src/levels/builder.rs:118-150 | The world rectangle [xs, xe) × [ys, ye), clipped to each grid chunk it overlaps. |
| `LevelBuilding.LevelBuilder.InChunk` | crates/sunaba-core/src/levels/builder.rs:160-168 | The closure's calls run on the chunk at (cx, cy), created if missing. |
| `LevelBuilding.LevelBuilder.Chamber` | crates/sunaba-core/src/levels/builder.rs:176-214 | Floor, ceiling, left wall, right wall, each a rectangle fill of the given thickness. |
| `LevelBuilding.LevelBuilder.Pyramid` | crates/sunaba-core/src/levels/builder.rs:222-235 | One one-row fill per layer from the base up, each narrower than the one below. |
| `LevelBuilding.LevelBuilder.Build` | crates/sunaba-core/src/levels/builder.rs:240-247 | The world is cleared and ends with exactly the built chunks; those near the player become active. |
| `LevelBuilding.ChamberOps` | crates/sunaba-core/src/levels/builder.rs:176-214 | A chamber is four fills of its material. |
| `LevelBuilding.PyramidOps` | crates/sunaba-core/src/levels/builder.rs:222-235 | A pyramid is one fill of its material per layer. |
| `LevelBuilding.LayeredSolid` | crates/sunaba-core/src/levels/builder.rs:93-150 | After fills of one material, a covered cell holds it and every other cell keeps its pixel. |
| `StructureTemplates.NewBuilder` | crates/sunaba-core/src/world/structure_templates.rs:16-22 | A new builder has its name and anchor and no pixels. |
| `StructureTemplates.AddPixel` | crates/sunaba-core/src/world/structure_templates.rs:25-28 | Appends one triple and changes nothing else. |
| `StructureTemplates.RowShape` | crates/sunaba-core/src/world/structure_templates.rs:37-42 | A horizontal line from a to b holds b - a + 1 pixels, exactly the cells of row y in that span, in order. |
| `StructureTemplates.ColumnShape` | crates/sunaba-core/src/world/structure_templates.rs:51-56 | A vertical line holds exactly the cells of its column span, in order. |
| `StructureTemplates.RectShape` | crates/sunaba-core/src/world/structure_templates.rs:66-73 | A rectangle holds (xe - xs + 1)(ye - ys + 1) pixels, exactly the cells of the box. |
| `StructureTemplates.HLine` | crates/sunaba-core/src/world/structure_templates.rs:37-42 | The builder gains the row's pixels at its end. |
| `StructureTemplates.VLine` | crates/sunaba-core/src/world/structure_templates.rs:51-56 | The builder gains the column's pixels at its end. |
| `StructureTemplates.Rect` | crates/sunaba-core/src/world/structure_templates.rs:66-73 | The builder gains the rectangle's pixels, row by row. |
| `StructureTemplates.BoundsTight` | crates/sunaba-core/src/world/structure_templates.rs:96-114 | The bounds contain every pixel, and each side of the box touches a pixel. |
| `StructureTemplates.CalculateBounds` | crates/sunaba-core/src/world/structure_templates.rs:96-114 | The min/max loop computes the bounds, and (0,0,0,0) for no pixels. |
| `StructureTemplates.Build` | crates/sunaba-core/src/world/structure_templates.rs:76-85 | The template keeps name, pixels and anchor, gets the computed bounds and no support columns. |
| `StructureTemplates.BuildWithSupports` | crates/sunaba-core/src/world/structure_templates.rs:88-92 | `build` with the support columns replaced. |
| `StructureTemplates.BuiltContainsPixels` | crates/sunaba-core/src/world/structure_templates.rs:76-85 | Every pixel of a built template lies inside its bounds. |
| `StructureTemplates.BuiltinKeys` | crates/sunaba-core/src/world/structure_templates.rs:117-132 | The built-in set has exactly the five structure kinds. |
| `StructureTemplates.BridgeFacts` | crates/sunaba-core/src/world/structure_templates.rs:134-157 | Three bridge variants; the first is the 16-wide bridge with supports at -8 and 7. |
| `StructureTemplates.VariantCounts` | crates/sunaba-core/src/world/structure_templates.rs:159-230 | Two normal trees, one marker tree, one ruin wall, one ruin pillar. |
| `StructureTemplates.MarkerTreeIsTall` | crates/sunaba-core/src/world/structure_templates.rs:182-197 | The marker tree is more than 15 tall, both in true size and in the `i8` height the source computes. |
| `StructureTemplates.BuilderExamples` | crates/sunaba-core/src/world/structure_templates.rs:256-284 | The source's examples: a 3×3 rectangle gives 9 pixels, a line from -2 to 2 gives 5. |
| `Structures.Len` | crates/sunaba-core/src/world/structures.rs:96-98 | Zero exactly for no variants. |
| `Structures.IsEmpty` | crates/sunaba-core/src/world/structures.rs:101-103 | Empty exactly when the length is 0. |
| `Structures.CheckedI8` | crates/sunaba-core/src/world/structures.rs:35-42 | An `i8` result exists exactly when the value fits in `i8`. |
| `Structures.WidthCountsColumns` | crates/sunaba-core/src/world/structures.rs:35-37 | The width counts the columns of the box. |
| `Structures.HeightCountsRows` | crates/sunaba-core/src/world/structures.rs:40-42 | The height counts the rows of the box. |
| `Structures.I8SizesAgree` | crates/sunaba-core/src/world/structures.rs:35-42 | Where the `i8` arithmetic does not overflow, the width and height computed in `i8` are the true ones, and it overflows exactly when the true size lies outside [-127, 127]. |
| `Structures.WideTemplateOverflows` | crates/sunaba-core/src/world/structures.rs:35-37 | A box from x = -64 to 64 is 129 wide, and the `i8` subtraction overflows. |
| `Structures.ElevenByEleven` | crates/sunaba-core/src/world/structures.rs:111-122 | The source's example box (-5,-3,5,7) is 11 × 11. |
| `Structures.Normalized` | crates/sunaba-core/src/world/structures.rs:90 | Noise in [-1,1] maps into [0,1], clamped. |
| `Structures.SelectIndex` | crates/sunaba-core/src/world/structures.rs:89-92 | The index is the normalised noise times the length, truncated and capped at the last index. |
| `Structures.SelectVariant` | crates/sunaba-core/src/world/structures.rs:84-93 | Without variants the source panics, so that is required. Otherwise the result is the variant at the selected index. |
| `Structures.SelectIndexMonotone` | crates/sunaba-core/src/world/structures.rs:89-92 | More noise never selects an earlier variant. |
| `Structures.SelectIndexEnds` | crates/sunaba-core/src/world/structures.rs:89-92 | Noise -1 or less selects the first variant, 1 or more the last. |
| `Structures.SelectMiddleOfThree` | crates/sunaba-core/src/world/structures.rs:142-175 | With three variants noise 0 selects the middle one. |
| `StructureTemplates.MarkerTreeTrunk` | crates/sunaba-core/src/world/structure_templates.rs:182-197 | The marker tree's trunk runs from height 1 to height 20. |
| `StructureTemplates.ExtentContains` | crates/sunaba-core/src/world/structure_templates.rs:96-114 | Every pixel lies inside the computed extent. |
| `Features.RowWidth` | crates/sunaba-core/src/world/features.rs:148-154 | A tapered row is at least 1 wide and never wider than the base width. |
| `Features.TaperBounds` | crates/sunaba-core/src/world/features.rs:150-151 | The taper factor lies in (0, 1], so the tapered width stays at or below the base width. |
| `Features.StampAt` | crates/sunaba-core/src/world/features.rs:166-171 | Placing one cell changes only that local cell: AIR becomes STONE, anything else stays. |
| `Features.StampRowOutside` | crates/sunaba-core/src/world/features.rs:157-172 | A row leaves every cell outside its span as it was. |
| `Features.StampRowInside` | crates/sunaba-core/src/world/features.rs:157-172 | A row touches each cell of its span once. |
| `Features.StampRowAt` | crates/sunaba-core/src/world/features.rs:157-172 | The row at height py covers exactly the cells within width/2 of world_x, inside the chunk. |
| `Features.InTopRowsStep` | crates/sunaba-core/src/world/features.rs:146-147 | The first k rows are the first k-1 rows plus row k-1, and the two never share a cell. |
| `Features.StampRowsAt` | crates/sunaba-core/src/world/features.rs:146-173 | After k rows, a cell in one of those rows is touched once, and every other cell is as it was. |
| `Features.StalactiteAt` | crates/sunaba-core/src/world/features.rs:133-174 | A local cell becomes STONE exactly when it lies in a row world_y - dy for 0 <= dy < length and within width/2 of world_x, and it was AIR. Every other cell is unchanged, and nothing outside [0,64)² is written. |
| `Features.AirToStoneTrans` | crates/sunaba-core/src/world/features.rs:168-170 | Turning AIR into STONE twice is still turning AIR into STONE. |
| `Features.StalactiteAirToStone` | crates/sunaba-core/src/world/features.rs:168-170 | A stalactite only turns AIR into STONE and never changes a non-air pixel. |
| `Features.NoAirNoChange` | crates/sunaba-core/src/world/features.rs:483-500 | The source's example: on a chunk with no AIR, a stalactite changes nothing. |
| `Features.TaperedWithinBase` | crates/sunaba-core/src/world/features.rs:146-160 | A tapered stalactite lies within base_width/2 columns of world_x and within length rows above world_y. |
| `Features.StampCell` | crates/sunaba-core/src/world/features.rs:166-171 | The chunk afterwards is the cell-placement function applied to the old chunk. |
| `Features.DrawRow` | crates/sunaba-core/src/world/features.rs:157-172 | The inner dx loop leaves the chunk equal to the row function applied to the old chunk. |
| `Features.DrawStalactite` | crates/sunaba-core/src/world/features.rs:133-174 | The nested loops leave the chunk equal to the stalactite function applied to the old chunk. |
| `Features.LengthInRange` | crates/sunaba-core/src/world/features.rs:119-124 | For noise in [-1, 1], the length lies between min_length and max_length. |
| `Features.ShareInRange` | crates/sunaba-core/src/world/features.rs:123-124 | The noise share of the length range lies between 0 and the range. |
| `Features.TruncatedShare` | crates/sunaba-core/src/world/features.rs:124 | Casting a share in [0, range] to i32 gives a value in [0, range]. |
| `Features.SamplePoint` | crates/sunaba-core/src/world/features.rs:102-128 | One sample point only turns AIR into STONE, and a point the predicate or the placement noise rejects changes nothing. |
| `Features.AirToStoneRefl` | crates/sunaba-core/src/world/features.rs:168-170 | A chunk is AIR-to-STONE related to itself. |
| `Features.SampleRow` | crates/sunaba-core/src/world/features.rs:101-129 | A sample row only turns AIR into STONE. |
| `Features.GenerateStalactites` | crates/sunaba-core/src/world/features.rs:65-130 | A chunk whose chunk_y * 64 exceeds min_depth is left unchanged. Otherwise the chunk only gains STONE where it had AIR. |
| `Features.DetectCaveBelow` | crates/sunaba-core/src/world/features.rs:320-340 | True exactly when some dy in [1, scan_depth] has AIR at y - dy with non-AIR directly above and below it. |
| `BiomeZones.AllZoneTypes` | crates/sunaba-core/src/world/biome_zones.rs:30-38 | Five distinct zone types, from shallow caves down to the abyss. |
| `BiomeZones.AllZoneTypesComplete` | crates/sunaba-core/src/world/biome_zones.rs:30-38 | Every zone type is in the list. |
| `BiomeZones.ZoneNamesDistinct` | crates/sunaba-core/src/world/biome_zones.rs:41-50 | Two zone types have the same name exactly when they are the same type. |
| `BiomeZones.GrottoBounds` | crates/sunaba-core/src/world/biome_zones.rs:414-421 | The source's examples: the grotto's top bound is inclusive and its bottom bound exclusive. |
| `BiomeZones.DepthFactor` | crates/sunaba-core/src/world/biome_zones.rs:182-193 | The factor is 0 outside the zone and at its top, and lies in [0, 1) inside it. |
| `BiomeZones.DepthFactorMonotone` | crates/sunaba-core/src/world/biome_zones.rs:182-193 | Deeper inside a zone, the factor is never smaller. |
| `BiomeZones.GrottoDepthFactor` | crates/sunaba-core/src/world/biome_zones.rs:424-439 | The source's example: the grotto's factor is 0 at its top and 0.5 half-way down. |
| `BiomeZones.FirstIndex` | crates/sunaba-core/src/world/biome_zones.rs:245-250 | The result is the index of the first element satisfying the predicate, or None when no element does. |
| `BiomeZones.ZoneAt` | crates/sunaba-core/src/world/biome_zones.rs:245-250 | None when the registry is disabled. Otherwise it is the first zone containing y, and None only when no zone contains y. |
| `BiomeZones.ZoneOfType` | crates/sunaba-core/src/world/biome_zones.rs:253-256 | None exactly when no zone has the type. Otherwise it is a zone of that type. |
| `BiomeZones.Fallbacks` | crates/sunaba-core/src/world/biome_zones.rs:264-313 | With no zone found, each query gives its fallback: STONE, STONE, no feature, multipliers 1.0, light 0. |
| `BiomeZones.AnswersFromZone` | crates/sunaba-core/src/world/biome_zones.rs:264-313 | Inside a zone, each query answers from that zone's fields. |
| `BiomeZones.DefaultZonesPartition` | crates/sunaba-core/src/world/biome_zones.rs:210-222 | Each y in (-4000, 0] lies in exactly one default zone. Every other y lies in none. |
| `BiomeZones.DefaultZoneAt` | crates/sunaba-core/src/world/biome_zones.rs:210-250 | With the defaults enabled, the zone at y is the zone of y's depth band. |
| `BiomeZones.DefaultSamples` | crates/sunaba-core/src/world/biome_zones.rs:484-510 | The source's examples: stone, mossy stone and basalt at their sample heights, and no zone at y = 100. |
| `BiomeZones.ReplaceFirstOnly` | crates/sunaba-core/src/world/biome_zones.rs:325-330 | Only the first zone of the type is replaced, the length is kept, and nothing changes when no zone has the type. |
| `BiomeZones.BiomeZoneRegistry.constructor` | crates/sunaba-core/src/world/biome_zones.rs:210-222 | Starts with the five default zones, enabled, and without surface influence. |
| `BiomeZones.BiomeZoneRegistry.SetEnabled` | crates/sunaba-core/src/world/biome_zones.rs:230-232 | Sets the flag and leaves the zones and the surface flag alone. |
| `BiomeZones.BiomeZoneRegistry.SetSurfaceInfluence` | crates/sunaba-core/src/world/biome_zones.rs:240-242 | Sets the surface flag and leaves everything else alone. |
| `BiomeZones.BiomeZoneRegistry.UpdateZone` | crates/sunaba-core/src/world/biome_zones.rs:325-330 | The scan overwrites the first zone of the type with the new config and changes no flag. |
| `BiomeZones.DisabledRegistryIsSilent` | crates/sunaba-core/src/world/biome_zones.rs:513-519 | Turning the registry off silences every lookup, whatever the zones. |
| `BiomeZones.CalculateBlend` | crates/sunaba-core/src/world/biome_zones.rs:354-378 | The weights are non-negative and sum to 1. They are (1,0) at or above the band start and (0,1) at or below the band end, and strictly between inside the band. |
| `BiomeZones.BlendMonotone` | crates/sunaba-core/src/world/biome_zones.rs:354-378 | The weight of zone 2 never falls as y goes down. |
| `BiomeZones.EvenBlendAtBoundary` | crates/sunaba-core/src/world/biome_zones.rs:522-541 | The source's example: with a 32-pixel band the boundary is an even blend, and the points 100 above and below are pure. |
| `BiomeZones.BlendKeepsFullZones` | crates/sunaba-core/src/world/biome_zones.rs:381-399 | For noise in [-1, 1], a cell outside the band always takes its own zone's stone. |
| `Generation.MaterialLayers` | src/world/generation.rs:50-94 | BEDROCK exactly at and below y = -96, whatever the noise. AIR exactly above y = 32 or where the cave noise exceeds 0.2. SAND exactly in the solid cells less than 8 below the surface. METAL and STONE exactly in the deeper solid cells, split by ore noise above 0.7. |
| `Generation.MaterialKinds` | src/world/generation.rs:50-94 | Generation yields only bedrock, air, sand, metal or stone. |
| `Generation.SeedsAgreeInLowBits` | src/world/generation.rs:13-21 | The noise is seeded with `seed as u32` and `(seed + 1) as u32`, so seeds equal modulo 2^32 produce the same terrain. |
| `Generation.ProgressStep` | src/world/generation.rs:34-41 | Writing the next cell's material advances the progress by one cell. |
| `Generation.ProgressNextRow` | src/world/generation.rs:34-41 | A finished row is the start of the next one. |
| `Generation.GenerateRow` | src/world/generation.rs:35-41 | The inner loop sets each cell of the row to its material. |
| `Generation.GenerateChunk` | src/world/generation.rs:31-47 | Returns a new chunk at the requested position, every cell holding get_material_at of its world position, not dirty. |
| `Generation.PixelsDetermined` | src/world/generation.rs:31-47 | Two chunks that agree on every cell have the same pixels. |
| `Generation.GenerationDeterministic` | src/world/generation.rs:102-121 | The same seed, noise and position always generate the same chunk. |
| `Generation.BedrockChunk` | src/world/generation.rs:124-139 | Rows 0 to 32 of chunk row -2 are bedrock for any seed. |
| `Inventories.CanAddWrapsAround` | src/entity/inventory.rs:59-64 | The u32 sum in `can_add` wraps, so a stack of 1 with an amount of 2^32 - 1 passes the check although `add` would hand most of it back. |
| `Inventories.CanAddMeansNoOverflow` | src/entity/inventory.rs:59-77 | The intended `can_add` holds exactly when `add` would take the whole amount. |
| `Inventories.StackAdd` | src/entity/inventory.rs:67-77 | A material stack is filled up to 999 and the remainder handed back, so the amount is conserved. A tool takes nothing. |
| `Inventories.StackRemove` | src/entity/inventory.rs:80-96 | A material stack loses min(amount, count). A tool reports 1 for any positive amount and 0 otherwise, and stays. |
| `Inventories.AddThenRemove` | src/entity/inventory.rs:67-96 | Removing what `add` took restores the stack. |
| `Inventories.StackDamage` | src/entity/inventory.rs:114-122 | A tool's durability drops by the damage, saturating at 0, and the result is true exactly when it is then empty. A material stack is untouched and gives false. |
| `Inventories.StackExamples` | src/entity/inventory.rs:335-377 | The source's single-stack examples: 10 + 5, 15 - 7, 990 + 20 overflowing by 11, and tool wear 50 → 20 → 0. |
| `Inventories.EmptySlotsBound` | src/entity/inventory.rs:299-302 | The empty-slot count is at most the slot count, and equals it exactly when every slot is empty. |
| `Inventories.FirstEmpty` | src/entity/inventory.rs:294-297 | The result is the first empty slot, or None when every slot is occupied. |
| `Inventories.FirstTool` | src/entity/inventory.rs:222-237 | The result is the first slot holding the tool, or None when there is none. |
| `Inventories.ToolDurability` | src/entity/inventory.rs:259-271 | None exactly when no slot holds the tool. |
| `Inventories.OnlyTouchesKeepsOthers` | src/entity/inventory.rs:143-220 | Changing only stacks of one material keeps every other material's count and every tool slot. |
| `Inventories.TopUpSlot` | src/entity/inventory.rs:147-158 | Topping up stack i conserves the total: the count grows by what the stack took. |
| `Inventories.OpenSlot` | src/entity/inventory.rs:161-172 | A new stack in an empty slot adds its count to the total. |
| `Inventories.TakeFromSlot` | src/entity/inventory.rs:193-216 | Taking from stack i lowers the count by what was taken, and an exhausted stack's slot becomes empty. |
| `Inventories.Inventory.constructor` | src/entity/inventory.rs:134-141 | Starts with max_slots empty slots, holding nothing. |
| `Inventories.Inventory.AddItem` | src/entity/inventory.rs:143-175 | The leftover is at most the amount. The count of the material grows by the amount minus the leftover, nothing else changes, and a positive leftover means no slot is empty. |
| `Inventories.Inventory.RemoveItem` | src/entity/inventory.rs:189-220 | Removes min(amount, count) of the material, and nothing else changes. |
| `Inventories.Inventory.AddTool` | src/entity/inventory.rs:177-187 | The tool goes into the first empty slot. The result is true exactly when one existed, and otherwise nothing changes. |
| `Inventories.Inventory.RemoveTool` | src/entity/inventory.rs:222-237 | Empties the first slot holding the tool. The result is true exactly when there was one. |
| `Inventories.Inventory.DamageTool` | src/entity/inventory.rs:273-292 | Wears the first such tool, removes it and gives true when it breaks, and does nothing when the tool is absent. |
| `Inventories.Inventory.Clear` | src/entity/inventory.rs:309-312 | Every slot is empty and no material is held. |
| `Inventories.EmptyNone` | src/entity/inventory.rs:294-302 | With no empty slot found, the empty-slot count is 0. |
| `Inventories.UsedSlotsCountsOccupied` | src/entity/inventory.rs:304-307 | In a valid inventory the used count lies in [0, max_slots] and counts the occupied slots. |
| `Inventories.SlotsSplit` | src/entity/inventory.rs:299-307 | Empty plus occupied slots make up all slots. |
| `Inventories.TotalUpdate` | src/entity/inventory.rs:244-257 | Replacing one slot changes the total by the difference at that slot. |
| `Inventories.TotalZero` | src/entity/inventory.rs:244-257 | A total is zero exactly when every term is. |
| `Crafting.CanCraft` | crates/sunaba-core/src/entity/crafting.rs:131-136 | The scan returns true exactly when the inventory has every input in its required amount. |
| `Crafting.Craftable` | crates/sunaba-core/src/entity/crafting.rs:123-128 | The result contains exactly the registered recipes the inventory can craft. |
| `Crafting.CraftableConcat` | crates/sunaba-core/src/entity/crafting.rs:123-128 | The filter keeps registration order. |
| `Crafting.GetRecipe` | crates/sunaba-core/src/entity/crafting.rs:163-165 | The result is the first recipe with the id, or None exactly when no recipe has it. |
| `Crafting.TryCraft` | crates/sunaba-core/src/entity/crafting.rs:140-160 | Without every input it returns None and changes nothing. Any Some result is the recipe's output. With the inputs held and distinct, it returns the output and each input's count drops by exactly its amount. |
| `Crafting.DefaultRegistry` | crates/sunaba-core/src/entity/crafting.rs:47-111 | Five recipes with ids 0, 1, 2, 100 and 101, each with distinct inputs, found by id. An unknown id finds nothing. |
| `Crafting.WoodPickaxeExamples` | crates/sunaba-core/src/entity/crafting.rs:186-206 | The source's examples: five wood craft the wood pickaxe, four do not, and an empty inventory crafts nothing. |
| `ValidatedTypes.NewMaterialId` | crates/sunaba/src/scenario/validated_types.rs:22-31 | Accepts exactly ids 0 to 37, keeps the id, and otherwise gives the out-of-range error. |
| `ValidatedTypes.NewSlotIndex` | crates/sunaba/src/scenario/validated_types.rs:66-75 | Accepts exactly slots 0 to 49, keeping the slot. |
| `ValidatedTypes.NewRadius` | crates/sunaba/src/scenario/validated_types.rs:111-123 | Accepts exactly radii 1 to 1000. Below 1 gives the too-small error, above 1000 the too-large error. |
| `ValidatedTypes.NewVital` | crates/sunaba/src/scenario/validated_types.rs:162-223 | Health and hunger accept exactly finite values in [0, 100]. Otherwise the error is, in order: not finite, negative, too high. |
| `ValidatedTypes.RangeExamples` | crates/sunaba/src/scenario/validated_types.rs:372-406 | The source's accept/reject examples at each bound. |
| `ValidatedTypes.Lower` | crates/sunaba/src/scenario/validated_types.rs:269-271 | Lower-casing keeps the length and maps each character. |
| `ValidatedTypes.LowerIdempotent` | crates/sunaba/src/scenario/validated_types.rs:269-271 | Lower-casing twice is lower-casing once. |
| `ValidatedTypes.ParseKey` | crates/sunaba/src/scenario/validated_types.rs:269-282 | A rejected name reports the original text. |
| `ValidatedTypes.KeyRoundTrip` | crates/sunaba/src/scenario/validated_types.rs:269-295 | Parsing a key's `as_str` name gives the key back. |
| `ValidatedTypes.KeyCaseInsensitive` | crates/sunaba/src/scenario/validated_types.rs:269-282 | A string parses exactly when its lower-cased form does, and to the same key. |
| `ValidatedTypes.KeyAccepted` | crates/sunaba/src/scenario/validated_types.rs:269-282 | Exactly w, a, s, d and space, in any case, are accepted. |
| `ValidatedTypes.KeyExamples` | crates/sunaba/src/scenario/validated_types.rs:408-422 | The source's examples: "W" is W, "space" is Space, and "x" is refused. |
| `ValidatedTypes.ParseArchetype` | crates/sunaba/src/scenario/validated_types.rs:321-336 | "evolved" in any case gets its own refusal. |
| `ValidatedTypes.KelvinSignSnake` | crates/sunaba/src/scenario/validated_types.rs:321-336 | `to_lowercase` maps the Kelvin sign U+212A to 'k', so "sna" + U+212A + "e" parses as the snake. |
| `ValidatedTypes.ArchetypeRoundTrip` | crates/sunaba/src/scenario/validated_types.rs:321-348 | Parsing an archetype's `as_str` name gives the archetype back. |
| `ValidatedTypes.ArchetypeAccepted` | crates/sunaba/src/scenario/validated_types.rs:321-336 | Exactly spider, snake, worm and flyer, in any case, are accepted, and "Evolved" is refused as not spawnable. |
| `ScenarioDefinitions.AsI32` | crates/sunaba/src/scenario/definition.rs:76 | `width as i32` yields a value in the i32 range that is congruent to the u32 modulo 2^32. |
| `ScenarioDefinitions.New` | crates/sunaba/src/scenario/definition.rs:169-178 | Keeps the name, with an empty description and empty action lists. |
| `ScenarioDefinitions.WithDescription` | crates/sunaba/src/scenario/definition.rs:181-184 | Only the description changes. |
| `ScenarioDefinitions.WithPlatform` | crates/sunaba/src/scenario/definition.rs:75-85 | One action is appended to setup and nothing else changes. |
| `ScenarioDefinitions.PlatformShape` | crates/sunaba/src/scenario/definition.rs:75-85 | The platform is a FillRect symmetric about x = 0, five rows high from y, and as wide as the width rounded down to even when the width fits in i32. |
| `ScenarioDefinitions.WithSpawn` | crates/sunaba/src/scenario/definition.rs:96-99 | One TeleportPlayer is appended to setup and nothing else changes. |
| `ScenarioDefinitions.ChamberWalls` | crates/sunaba/src/scenario/definition.rs:110-160 | Four FillRect walls of the given material. |
| `ScenarioDefinitions.WithChamber` | crates/sunaba/src/scenario/definition.rs:110-160 | The four walls are appended to setup and nothing else changes. |
| `ScenarioDefinitions.ChamberFrame` | crates/sunaba/src/scenario/definition.rs:110-160 | When the thickness fits both extents, a point lies in some wall exactly when it is in the chamber box and within the thickness of one of its sides. |
| `ScenarioDefinitions.AddAction` | crates/sunaba/src/scenario/definition.rs:187-190 | Appends to the main actions only. |
| `ScenarioDefinitions.AddVerification` | crates/sunaba/src/scenario/definition.rs:193-196 | Appends to the verification conditions only. |
| `ScenarioDefinitions.AddCleanup` | crates/sunaba/src/scenario/definition.rs:199-202 | Appends to the cleanup actions only. |
| `ScenarioDefinitions.HelpersCommute` | crates/sunaba/src/scenario/definition.rs:181-202 | Helpers that append to different lists commute, and a later description replaces an earlier one. |
| `ScenarioDefinitions.CompositionExamples` | crates/sunaba/src/scenario/definition.rs:241-330 | The source's platform, chamber and builder-pattern compositions give the expected lists. |
| `Levels.DemoLevels` | src/levels/level_def.rs:21-127 | Sixteen levels, in order, with each level's id equal to its position. |
| `Levels.NextIndex` | src/levels/level_def.rs:141 | The index stays in range, and wraps to 0 exactly from the last level. |
| `Levels.PrevIndex` | src/levels/level_def.rs:148-152 | The index stays in range. |
| `Levels.StepsInverse` | src/levels/level_def.rs:140-155 | `prev_level` undoes `next_level` and vice versa, and stepping back is (i + n - 1) mod n. |
| `Levels.Forward` | src/levels/level_def.rs:141 | k steps forward stay in range. |
| `Levels.ForwardIsModular` | src/levels/level_def.rs:141 | k steps forward land on (i + k) mod n, so n steps return to the start. |
| `Levels.LevelManager.constructor` | src/levels/level_def.rs:21-127 | Starts with the sixteen demo levels at level 0. |
| `Levels.LevelManager.CurrentLevelName` | src/levels/level_def.rs:130-132 | The name of the current level. |
| `Levels.LevelManager.CurrentLevelDescription` | src/levels/level_def.rs:135-137 | The description of the current level. |
| `Levels.LevelManager.NextLevel` | src/levels/level_def.rs:140-144 | Moves one level forward, wrapping, and loads that level. |
| `Levels.LevelManager.PrevLevel` | src/levels/level_def.rs:147-155 | Moves one level back, wrapping from 0 to the last, and loads that level. |
| `Levels.DemoExamples` | src/levels/level_def.rs:21-127 | A new manager is on "Basic Physics Playground", one step back is "Stress Test", and one step forward from the last level wraps to 0. |
| `DeterministicRngs.SeedState` | crates/sunaba-creature/src/deterministic_rng.rs:14-18 | The state is never zero, and equals any nonzero seed. |
| `DeterministicRngs.XorshiftNonzero` | crates/sunaba-creature/src/deterministic_rng.rs:21-28 | The xorshift step (13, 7, 17 on 64 bits) keeps a nonzero state nonzero, so zero is never reached. |
| `DeterministicRngs.Top24` | crates/sunaba-creature/src/deterministic_rng.rs:33 | The top 24 bits lie in [0, 2^24). |
| `DeterministicRngs.UnitOf` | crates/sunaba-creature/src/deterministic_rng.rs:31-35 | The fraction lies in [0, 1). |
| `DeterministicRngs.Draws` | crates/sunaba-creature/src/deterministic_rng.rs:31-35 | k draws give k fractions. |
| `DeterministicRngs.DrawsInUnit` | crates/sunaba-creature/src/deterministic_rng.rs:31-35 | Every drawn fraction lies in [0, 1). |
| `DeterministicRngs.SeedsShareStateOnlyAtZero` | crates/sunaba-creature/src/deterministic_rng.rs:14-18 | Two seeds give the same generator exactly when they are equal or are 0 and 1. |
| `DeterministicRngs.DeterministicRng.constructor` | crates/sunaba-creature/src/deterministic_rng.rs:14-18 | The state is the seed, with 0 replaced by 1. |
| `DeterministicRngs.DeterministicRng.NextU64` | crates/sunaba-creature/src/deterministic_rng.rs:21-28 | Advances the state by one xorshift step and returns the new state. |
| `DeterministicRngs.DeterministicRng.GenF32` | crates/sunaba-creature/src/deterministic_rng.rs:31-35 | Advances once and returns the new state's top 24 bits over 2^24. |
| `DeterministicRngs.DeterministicRng.GenRangeF32` | crates/sunaba-creature/src/deterministic_rng.rs:38-40 | Advances once and returns min plus the fraction of (max - min), which lies in [min, max) when min < max. |
| `DeterministicRngs.ScaledBelow` | crates/sunaba-creature/src/deterministic_rng.rs:38-40 | A fraction in [0, 1) of a positive width lies in [0, width). |
| `DeterministicRngs.InRange` | crates/sunaba-creature/src/deterministic_rng.rs:38-40 | lo plus such a share of hi - lo lies in [lo, hi). |
| `DeterministicRngs.DrawMany` | crates/sunaba-creature/src/deterministic_rng.rs:31-35 | k draws yield the specified fraction sequence and leave the generator k steps on. |
| `DeterministicRngs.SameSeedSameDraws` | crates/sunaba-creature/src/deterministic_rng.rs:48-56 | Two generators from the same seed draw the same fractions. |
| `DeterministicRngs.DifferentSeedsDiffer` | crates/sunaba-creature/src/deterministic_rng.rs:74-80 | Seeds 12345 and 67890 already differ in their first fraction. |
| `WorldTicks.SatSub` | crates/sunaba-server/src/reducers/world_ticks.rs:168 | `saturating_sub` is the difference when a >= b and 0 otherwise. |
| `WorldTicks.IdleUpdate` | crates/sunaba-server/src/reducers/world_ticks.rs:160-181 | Activity records the new tick and wakes the world. Without activity the old activity tick is kept and the world is idle exactly when more than 60 ticks have passed. |
| `WorldTicks.WorldTick` | crates/sunaba-server/src/reducers/world_ticks.rs:55-269 | A paused world is left alone. Otherwise only the tick count and the idle fields change, and the count grows by 1. With no one online the world is not simulated and the next tick is 100 ms away. With players online it simulates exactly when it is awake or loaded chunks, ticks at 100 ms when idle and 16 ms otherwise, samples metrics every 10th tick and prunes every 600th. |
| `WorldTicks.QuietWorldGoesIdle` | crates/sunaba-server/src/reducers/world_ticks.rs:134-181 | From activity at the current tick, quiet ticks keep counting, keep the activity tick, and make the world idle exactly from the 61st quiet tick on. |
| `WorldTicks.LoadingWakesTheWorld` | crates/sunaba-server/src/reducers/world_ticks.rs:138-181 | A world that loads a chunk is simulated, wakes at once and ticks again in 16 ms. |
| `WorldTicks.WorldTickKeepsIdleConsistent` | crates/sunaba-server/src/reducers/world_ticks.rs:160-187 | Every tick keeps the idle flag consistent with the activity tick. |
| `WorldTicks.IdleWorldStaysIdle` | crates/sunaba-server/src/reducers/world_ticks.rs:141-264 | An idle world with nothing loaded is not simulated, stays idle while players are online, and ticks every 100 ms. |
| `WorldTicks.SettleTick` | crates/sunaba-server/src/reducers/world_ticks.rs:397-491 | A finished settlement stops rescheduling, and with no one online it waits 1000 ms. Otherwise it settles ring settlement_progress, advances the progress by one, completes after the radius, and reschedules in 100 ms. |
| `WorldTicks.SettlementRuns` | crates/sunaba-server/src/reducers/world_ticks.rs:397-491 | From ring 0 each tick settles the next ring, settlement completes exactly after ring radius, and later ticks change nothing. |
| `WorldTicks.SettleBurst` | crates/sunaba-server/src/reducers/world_ticks.rs:499-575 | Ends complete, with the progress at radius + 1. |
| `WorldTicks.BurstMatchesTicks` | crates/sunaba-server/src/reducers/world_ticks.rs:397-575 | The burst ends in the state the ring-by-ring ticks reach. |
| `WorldTicks.CreatureVitals` | crates/sunaba-server/src/reducers/world_ticks.rs:353-363 | Hunger falls by rate times dt, floored at 0. Health drops by 5·dt while starving. The creature is alive exactly while health is positive. |
| `WorldTicks.VitalsBounds` | crates/sunaba-server/src/reducers/world_ticks.rs:353-363 | Hunger never goes negative or rises, and health drops exactly while starving. |
| `WorldTicks.InsertByTick` | crates/sunaba-server/src/reducers/world_ticks.rs:591 | Inserting into a tick-sorted list keeps it sorted and adds exactly the one sample. |
| `WorldTicks.SortByTick` | crates/sunaba-server/src/reducers/world_ticks.rs:591 | The result is sorted by tick and is a permutation of the input. |
| `WorldTicks.CleanupOldMetrics` | crates/sunaba-server/src/reducers/world_ticks.rs:585-605 | Up to 3600 samples, nothing is deleted. Beyond that, exactly the excess is deleted, the rest is kept, and every deleted sample is no later than every kept one. |
| `WorldTicks.PartFeatures` | crates/sunaba-server/src/reducers/world_ticks.rs:607-656 | Each body part's block has the block size, with the ray distances in place after the nine motion and position values. |
| `WorldTicks.ExtractCreatureFeatures` | crates/sunaba-server/src/reducers/world_ticks.rs:607-656 | The loop yields one block per body part, parts × block size values in all. |
| `WorldTicks.FeaturesMatchBrain` | crates/sunaba-server/src/reducers/world_ticks.rs:607-656 | With at most eight rays there are 22 values per part, matching the brain's input size. |
| `WorldTicks.FeaturesLength` | crates/sunaba-server/src/reducers/world_ticks.rs:607-656 | n blocks give n × block size values. |
| `WorldAccess.WorldToChunk` | crates/sunaba-server/src/world_access.rs:45-51 | The local offsets lie in [0, 64), and chunk × 64 + local gives back the world coordinate. |
| `WorldAccess.WorldToChunkInverse` | crates/sunaba-server/src/world_access.rs:45-51 | A chunk and an offset in [0, 64) are split back into exactly themselves. |
| `WorldAccess.WorldToChunkInjective` | crates/sunaba-server/src/world_access.rs:45-51 | Distinct world positions land on distinct (chunk, offset) pairs. |
| `WorldAccess.FindRow` | crates/sunaba-server/src/world_access.rs:60-65 | Some exactly when a row for the chunk exists, and then it is the first such row. |
| `WorldAccess.AirPixels` | crates/sunaba-server/src/world_access.rs:80-86 | 4096 air pixels. |
| `WorldAccess.LoadedEntry` | crates/sunaba-server/src/world_access.rs:67-86 | The entry is always clean. It holds the decoded row with that row's id, or an all-air chunk with id 0 when the row is missing or does not decode. |
| `WorldAccess.LocalIndex` | crates/sunaba-server/src/world_access.rs:104 | A local offset's row-major index lies below 4096. |
| `WorldAccess.EntryPixel` | crates/sunaba-server/src/world_access.rs:102-107 | The pixel at the index, or air beyond the pixel vector. |
| `WorldAccess.EntryWritten` | crates/sunaba-server/src/world_access.rs:121-127 | An index inside the pixels is written and marks the chunk dirty. Otherwise the entry is unchanged. |
| `WorldAccess.WriteThenRead` | crates/sunaba-server/src/world_access.rs:95-129 | A write then a read at the same in-range index returns the written pixel, and other indices read as before. |
| `WorldAccess.IsBlockingMaterial` | crates/sunaba-server/src/world_access.rs:170-179 | Air never blocks. Any other id blocks exactly when its material is solid or powder. |
| `WorldAccess.DefaultBlocking` | crates/sunaba-server/src/world_access.rs:170-179 | Over the engine's own default table (the one `Materials.DefaultDefs` builds), stone, sand and bedrock block, and water, fire and air do not. |
| `WorldAccess.SpacetimeWorldAccess.constructor` | crates/sunaba-server/src/world_access.rs:36-42 | Starts with the given material table, which must be non-empty, and an empty cache. |
| `WorldAccess.SpacetimeWorldAccess.LoadChunk` | crates/sunaba-server/src/world_access.rs:54-92 | Always returns true with the chunk cached. A cached chunk is untouched, and otherwise the loaded entry is added. |
| `WorldAccess.SpacetimeWorldAccess.GetCachedPixel` | crates/sunaba-server/src/world_access.rs:95-108 | Loads the chunk, then returns the entry's pixel at the local index, never None. |
| `WorldAccess.SpacetimeWorldAccess.SetCachedPixel` | crates/sunaba-server/src/world_access.rs:111-129 | Loads the chunk, then writes the pixel and marks the chunk dirty. |
| `WorldAccess.SpacetimeWorldAccess.GetPixel` | crates/sunaba-server/src/world_access.rs:183-186 | Always Some. It is the cached pixel at the world position. A cached chunk stays as it was; an uncached one is loaded as its database row, or as all air when the row is missing or empty, so the pixel is that row's pixel. |
| `WorldAccess.SpacetimeWorldAccess.IsSolidAt` | crates/sunaba-server/src/world_access.rs:200-206 | True exactly when the pixel's material is blocking, where the pixel is read through the cache after the chunk is loaded from its database row (or as all air). The out-of-bounds branch cannot happen. |
| `WorldAccess.SpacetimeWorldAccess.SetPixelFull` | crates/sunaba-server/src/world_access.rs:287-290 | Splits the world position and writes the pixel into its loaded chunk. |
| `WorldAccess.SpacetimeWorldAccess.SetPixel` | crates/sunaba-server/src/world_access.rs:283-285 | Writes a fresh pixel of the material. |
| `WorldAccess.PixelIn` | crates/sunaba-server/src/world_access.rs:183-186 | Some exactly when the position's chunk is cached. |
| `WorldAccess.WriteThenReadWorld` | crates/sunaba-server/src/world_access.rs:183-290 | Writing a world pixel makes it read back, and every other world position reads as before. |
| `WorldAccess.MissingRowIsAir` | crates/sunaba-server/src/world_access.rs:80-86 | A chunk made from a missing or undecodable row is all air, clean, with id 0. |

## Left out

- Worlds.World.StepSimulation: does not run `check_chunk_state_changes` (src/world/world.rs:190-193). That step depends on the state-change system, which is not part of this model.
- Worlds.World.StepSimulation: passes the active list to the temperature update and diffuses only active chunks. This follows `TemperatureSimulator::update` in crates/sunaba-core/src/simulation/temperature.rs:27-41. The call at src/world/world.rs:188 passes only the chunk map, so it belongs to a different version of that simulator.
- Worlds.World.constructor: starts with no chunks. `generate_test_world` (src/world/world.rs:49-50) is fixed development content and is left out.
- Worlds.World.Update: the fixed-timestep accumulator and the statistics collector are left out. The accumulator is `real` without `f32` rounding, and the collector only counts.
- Structural.CheckPosition: regions of 50 or more pixels are returned rather than handed to `create_debris`, and their pixels are left as they were. The rigid-body system behind `create_debris` is not part of this model. Log output is left out as well.
- Features.GenerateStalactites: requires `spacing > 0`, because `step_by(0)` panics in the source. The same holds for Features.SampleRow.
- Features.GenerateStalactites: the context scanner's placement predicate and both noise fields are parameters.
- Features: `apply_features` and the bridge, tree and ruin placement (crates/sunaba-core/src/world/features.rs:14-62, 177-415) are not part of this model. They rely on noise and on the context scanner.
- LevelBuilding.LevelBuilder.FillLayer: requires that rows at 64 or beyond are not reached, because `set_material` would index past the chunk's pixel vector (src/world/chunk.rs:106) and panic.
- WorldTicks.SettleTick: the early return with no world instance is not modelled. The model settles whenever players are online.
- WorldTicks.WorldTick: a missing configuration row, timer rows, database writes, chunk sync and metric samples are left out. The numbers the database and the simulation produce are parameters.
- WorldTicks: `creature_tick` is modelled only for its hunger and health step. Brain inference and physics are not part of this model.
- Integer widths: coordinates are unbounded `int` where the source uses `i32`. Overflow at the i32 range is not modelled. This covers `y + 5` in ScenarioDefinitions.WithPlatform, the wall coordinates in ScenarioDefinitions.WithChamber, and the world coordinates in every module.
- FallingChunks.FallingChunkSystem.CreateChunk: `next_id` is a `nat` and does not wrap at 2^64.
- Inventories.CountItem: the count is a `nat` sum. The source's `u32` sum over several full stacks could overflow, but that needs more than 4 million full slots.
- Floating point: `f32` and `f64` values are `real`. This covers the falling-chunk centre and velocity, the time accumulators, the temperatures, the biome multipliers and blend weights, the stalactite taper and the noise values. Rounding, NaN and infinities are not modelled, except where the scenario validators test them explicitly.
- DeterministicRngs.DeterministicRng.GenRangeF32: is proved to stay below `max`. In `f32` the product and sum can round up to `max` itself.
- Randomness: `thread_rng` and the other generators are replaced by draws passed in. This covers one draw per cell in the world pass, per collected position in the special and entity passes, and per plant pixel in regrowth.
- PixelEntities.ProcessBirds and PixelEntities.ProcessFish: the boids and schooling force sums (crates/sunaba-core/src/world/pixel_entity_system.rs:244-321, 425-478) end in one of four unit steps. That step is a heading draw passed in.
- CoreIds: the material ids and flag bits of the engine crate's own material list are stand-ins. They are distinct from each other and from the built-in ids. No property depends on their values.
- ValidatedTypes.LowerChar: maps ASCII letters and the Kelvin sign U+212A. The other non-ASCII case mappings of `to_lowercase` are not modelled, so a key or archetype name spelled with another non-ASCII capital that lower-cases to ASCII is refused by the model.
- Generation.MaterialAt: the fractal Perlin and Perlin noise fields are parameters, functions of a 32-bit seed and a sample point.
- Chunks.Decode: the bincode layout is reduced to the length checks on the pixel vector and the coarse grids.
- WorldAccess.SpacetimeWorldAccess.constructor: the server installs the simulation crate's `Materials::default()`. That crate's material list is not part of this model, so the table is a constructor parameter. Which ids block is then only as right as the table the caller passes; the engine's own 15-entry table would send ids 15 to 37 to AIR.
- WorldAccess: `commit_changes`, `check_circle_collision`, `raycast`, the grounded test and the constant temperature, light and pressure queries are left out. They write to the database or use floating-point geometry.
- Level content: the sixteen demo level generators (src/levels/demo_levels.rs) are represented by their index.
- ScenarioDefinitions: `from_file` and `to_file` do file and RON I/O and are not part of this model.
- UI, rendering, networking, the database reducers, the global server mutex and logging are not part of this model.

## Findings

| source | as written | input that shows it | evidently intended | confidence | as-written member | corrected member |
|---|---|---|---|---|---|---|
| src/world/world.rs:577-585 | `update_fire` first moves the fire like a gas, then writes SMOKE at the fire's original coordinates. | A fire with air above it and a smoke roll below 0.02: SMOKE appears below and the fire lives on one cell up. | The fire turns into smoke where it is. | not executed | `Worlds.FireOutlivesSmokeRoll` | `Worlds.UpdateFireCorrectedEndsFire` |
| crates/sunaba-simulation/src/reactions.rs:816-850 | `soapy_bubble_create` (soapy water + air, no condition) is registered before `soapy_pressure_bubble` (the same pair, pressure ≥ 10), and the lookup returns the first match. | Soapy water next to air at pressure 10: the lookup returns the plain rule with probability 0.01. | High pressure selects the pressure rule. | not executed | `Reactions.SoapyPressureBubbleUnreachable` | `Reactions.CorrectedSoapyBubbles` |
| crates/sunaba-core/src/world/special_behaviors_system.rs:371 | After the first successful copy, `return` leaves the whole clone pass. | Two clones with a source above and air beside each: only the first clone copies. | One copy per clone per pass. | not executed | `SpecialBehaviors.CloneEarlyReturnWitness` | `SpecialBehaviors.ProcessClones` |
| src/entity/inventory.rs:59-64 | `can_add` compares the `u32` sum `count + amount` with 999. In a release build the sum wraps; a debug build panics. | A stack of 1 and an amount of 2^32 - 1: the sum wraps to 0 and the check passes. | True only when the stack can take the whole amount. | not executed | `Inventories.CanAddWrapsAround` | `Inventories.CanAddMeansNoOverflow` |
| crates/sunaba-core/src/world/structures.rs:35-42 | `width` and `height` subtract and add 1 in `i8` before widening to `i32`. | Bounds from x = -64 to 64: 64 - (-64) overflows `i8`, although the true width 129 fits in `i32`. | The size computed in `i32`. | not executed | `Structures.WideTemplateOverflows` | `Structures.WidthCountsColumns` |
| src/simulation/regeneration.rs:66-91 | Both branches of the `dy in 1..=3` search end it at the first cell, so only the cell directly below a plant is examined. | A plant above STONE above AIR: no fruit appears, although the source's own test expects one in the AIR. | The nearest AIR among the three cells below gets the fruit. | not executed | `Regeneration.NoFruitPastBlockedCell` | `Regeneration.FruitBelowNearestEffect` |

Every operation uses the behaviour as written: `UpdateFire`, the registration order of the reaction table, the early-returning clone pass, the wrapping `can_add`, the `i8` sizes and the one-cell fruit search. The corrected definitions stand beside them, with the intended property proved.
