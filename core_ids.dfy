/**
 * Material ids and pixel flag bits of the engine crate beyond those of the
 * fifteen built-in materials (ids 0..14, `Materials`) and the three flags
 * UPDATED, BURNING and FALLING (`Chunks`). The crate that defines these
 * values is not part of this model: the numbers below are stand-ins that are
 * pairwise distinct, distinct from the built-in ids, and single bits for the
 * flags. OBSIDIAN is 37, the highest id the scenario validator accepts; the
 * ores, ingots and other materials that only the reaction table or the biome
 * zones mention come after it. No property proved here depends on a particular value.
 */
module CoreIds {
  import opened Ints

  const PLANT_MATTER: U16 := 15
  const FRUIT: U16 := 16
  const ASH: U16 := 17
  const VIRUS: U16 := 18
  const VINE: U16 := 19
  const FUSE: U16 := 20
  const CLONE: U16 := 21
  const ANT: U16 := 22
  const BIRD: U16 := 23
  const FISH: U16 := 24
  const SPARK: U16 := 25
  const THUNDER: U16 := 26
  const LASER: U16 := 27
  const C_4: U16 := 28
  const BOMB: U16 := 29
  const NITRO: U16 := 30
  const DIRT: U16 := 31
  const GUNPOWDER: U16 := 32
  const BASALT: U16 := 33
  const POISON_GAS: U16 := 34
  const SALT: U16 := 35
  const SEAWATER: U16 := 36
  const OBSIDIAN: U16 := 37
  const IRON_ORE: U16 := 38
  const IRON_INGOT: U16 := 39
  const COPPER_ORE: U16 := 40
  const COPPER_INGOT: U16 := 41
  const GOLD_ORE: U16 := 42
  const GOLD_INGOT: U16 := 43
  const COAL_ORE: U16 := 44
  const FLESH: U16 := 45
  const BONE: U16 := 46
  const FERTILIZER: U16 := 47
  const MAGMA: U16 := 48
  const SOAPY_WATER: U16 := 49
  const BUBBLE: U16 := 50
  const MERCURY: U16 := 51
  const MOSSY_STONE: U16 := 52
  const GLOWING_MUSHROOM: U16 := 53
  const CRYSTAL: U16 := 54

  const SPARK_SOURCE: bv16 := 8
  const POWERED: bv16 := 16
  const CONDUCTIVE: bv16 := 32
  const INFECTED: bv16 := 64
  const BEHAVIOR_ACTIVE: bv16 := 128
  const DIRECTION_BIT0: bv16 := 256
  const DIRECTION_BIT1: bv16 := 512
  const PLAYER_PLACED: bv16 := 1024
}
