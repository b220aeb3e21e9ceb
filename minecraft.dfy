/** Small failure-compatible wrapper used where the Java code returns null or throws. */
module Wrappers {
  datatype Option<+T> = None | Some(value: T)
}

/**
 * The game-side values the world-generation core reads: biome identities and
 * their registry facts, the enumerations it branches on, block states and the
 * per-location terrain sample. Everything the game computes (registries,
 * surface configs, material tables) is an uninterpreted function carried in a
 * record, so every operation of the core is a function of its inputs.
 */
module Minecraft {
  import opened Wrappers

  /** `Biome.Category` of the game. */
  datatype Category =
    | NoCategory | Taiga | ExtremeHills | Jungle | Mesa | Plains | Savanna | Icy | TheEnd
    | Beach | Forest | Ocean | Desert | River | Swamp | Mushroom | Nether

  /** `Biome.TemperatureGroup`, in declaration order: OCEAN has ordinal 0. */
  datatype TemperatureGroup = OceanGroup | Cold | Medium | Warm
  {
    function Ordinal(): nat {
      match this
      case OceanGroup => 0
      case Cold => 1
      case Medium => 2
      case Warm => 3
    }

    /** `Enum.name()`, used as the key of the diagnostic export. */
    function Name(): string {
      match this
      case OceanGroup => "OCEAN"
      case Cold => "COLD"
      case Medium => "MEDIUM"
      case Warm => "WARM"
    }
  }

  /** TerraForged's `BiomeType`, in declaration order. */
  datatype BiomeType =
    | TropicalRainforest | Savanna | Desert | TemperateRainforest | TemperateForest
    | Grassland | ColdSteppe | Steppe | TaigaType | Tundra | Alpine
  {
    function Ordinal(): nat {
      match this
      case TropicalRainforest => 0
      case Savanna => 1
      case Desert => 2
      case TemperateRainforest => 3
      case TemperateForest => 4
      case Grassland => 5
      case ColdSteppe => 6
      case Steppe => 7
      case TaigaType => 8
      case Tundra => 9
      case Alpine => 10
    }
  }

  /** Every biome type, in declaration order. */
  const AllBiomeTypes: seq<BiomeType> :=
    [ TropicalRainforest, BiomeType.Savanna, BiomeType.Desert, TemperateRainforest, TemperateForest,
      Grassland, ColdSteppe, Steppe, TaigaType, Tundra, Alpine ]

  lemma AllBiomeTypesComplete(t: BiomeType)
    ensures t in AllBiomeTypes
  {
  }

  /**
   * Biome identity. The biomes the core names directly (the vanilla `Biomes`
   * constants and TerraForged's `ModBiomes`) are constructors; every other
   * biome is `Other(handle)`. Java compares biomes by reference, which is
   * equality here.
   */
  datatype Biome =
    | SnowyBeach | BeachBiome | WarmBeach | StoneShore
    | FrozenRiver | RiverBiome
    | TaigaScrub | SnowyTaigaScrub | SavannaScrub | Marshland
    | FrozenOcean | OceanBiome | WarmOcean
    | DeepFrozenOcean | DeepOcean | DeepWarmOcean
    | PlainsBiome | FlowerForest | Badlands
    | Other(handle: nat)

  /** The ocean-ruin structure variant a biome's feature config names. */
  datatype OceanRuinType = WarmRuins | ColdRuins

  /**
   * Registry facts about biomes, read from the game: the registry id
   * (`None` when the biome is not registered), its category, whether it has a
   * parent biome, the game's own temperature group, the ocean-ruin config and
   * the top block of its surface config; `biomes` is the registry's content.
   */
  datatype Registry = Registry(
    id: Biome -> Option<string>,
    category: Biome -> Category,
    hasParent: Biome -> bool,
    temperatureGroup: Biome -> TemperatureGroup,
    oceanRuin: Biome -> Option<OceanRuinType>,
    topBlock: Biome -> BlockState,
    biomes: set<Biome>)

  /** Block states the core names; every other state is `OtherBlock(handle)`. */
  datatype BlockState =
    | Air | Stone | Dirt | CoarseDirt | Gravel | GrassBlock
    | Sand | RedSand | Sandstone | RedSandstone
    | OtherBlock(handle: nat)

  /** The game's `Material` of a block state (only the ones the core tests are named). */
  datatype Material = Organic | Rock | Earth | SandMaterial | OtherMaterial(handle: nat)

  /**
   * Block classification the core consults: the game's `getMaterial()` and
   * TerraForged's `MaterialHelper` / `Materials` category tests.
   */
  datatype Materials = Materials(
    material: BlockState -> Material,
    isAir: BlockState -> bool,
    isGrass: BlockState -> bool,
    isSand: BlockState -> bool,
    isStone: BlockState -> bool,
    isEarth: BlockState -> bool,
    isClay: BlockState -> bool,
    isSediment: BlockState -> bool,
    isErodible: BlockState -> bool)

  /** A block position. */
  datatype BlockPos = BlockPos(x: int, y: int, z: int)

  /** A terrain tag of the height generator (`Terrain` instances compare by reference). */
  datatype Terrain = Terrain(id: nat)

  /**
   * The per-location terrain sample `Cell<Terrain>`: normalised height
   * (`value`), steepness, sediment, continentalness, the terrain tag and the
   * climate's biome type.
   */
  datatype Cell = Cell(
    value: real, steepness: real, sediment: real, continent: real,
    tag: Terrain, biome: BiomeType)

  /** A freshly allocated `new Cell<>()`. */
  const EmptyCell := Cell(0.0, 0.0, 0.0, 0.0, Terrain(0), TropicalRainforest)

  /**
   * Reading a chunk column at height `y`: positions outside the column read
   * as air, as the game's chunks do.
   */
  function BlockAt(column: seq<BlockState>, y: int): BlockState {
    if 0 <= y < |column| then column[y] else Air
  }
}
