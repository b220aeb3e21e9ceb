# TerraForged world-generation core, modelled in Dafny

This project models the parts of the TerraForged world generator (Fabric port) that decide biomes and reshape terrain columns:

- **Biome lookup tables** (`AbstractBiomeMap`). These tables pick a beach, river, wetland, ocean or deep-ocean biome from the temperature and a shape value. They fall back to temperature-based defaults.
- **How the tables are populated** (`BiomeHelper`). This covers:
  - which table each biome joins;
  - the biome's weight;
  - its temperature group;
  - its id;
  - the biome types its predicates accept.
- **The biome modifier chain** (`BiomeModifierManager`, `DesertColorModifier`, `SandBiomeModifier`). It is a priority-sorted list of rewrites applied to the running biome.
- **Erosion of a terrain column** (`ErosionDecorator`). Steep or high ground exposes rock or a ground material, and scree settles on slopes.
- **The carver's view of a chunk** (`ChunkCarverFix`). It canonicalises block states before the vanilla cave carver sees them.
- **The `/terra locate` search** (`Search`, `BiomeSearchTask`, `TerrainSearchTask`). It is a square spiral walk over a spacing grid around a centre, with a minimum and maximum radius and a deadline.

Files:

| file | module(s) | models |
|---|---|---|
| `minecraft.dfy` | `Wrappers`, `Minecraft` | The game's value types: biomes, categories, temperature groups, biome types, block states, materials, cells and block positions. Also the records of external lookups: the biome `Registry` and the `Materials` classifier. |
| `strings.dfy` | `Seqs`, `Strings` | Duplicate removal. The lexicographic order of `String.compareTo`. Sorting. `String.contains`. |
| `biome_map.dfy` | `BiomeMap` | `AbstractBiomeMap` |
| `biome_helper.dfy` | `BiomeHelper` | `BiomeHelper`, plus the builder calls it makes |
| `modifiers.dfy` | `Modifiers`, `DesertColor`, `Sand` | `BiomeModifierManager`, `DesertColorModifier`, `SandBiomeModifier` |
| `erosion.dfy` | `Erosion` | `ErosionDecorator` |
| `carver_fix.dfy` | `CarverFix` | `ChunkCarverFix.getBlockState` |
| `search.dfy` | `SpiralSearch`, `BiomeSearch`, `TerrainSearch` | `Search`, `BiomeSearchTask`, `TerrainSearchTask` |

Modelling conventions:

- **External game state becomes parameters.** The biome registry, the block-material predicates, the climate's random field, the noise function, the world's stored biomes, the heightmap generator and the wall clock are all uninterpreted functions passed in:
  - `Registry`, `Materials` and `rand`;
  - `getNoise`, `storedBiome` and `heightmap`;
  - `timedOut(i)`, which tells whether the deadline has passed at iteration `i`.
- **Floats become `real`.** The thresholds are the source's constants.
- **Java integer operations are written out:**
  - `>> 2` is floor division by 4;
  - `minRadius * minRadius` wraps to 32 bits (`Wrap32`).
- **Terrain columns are mutable `array<BlockState>` values.** The decorator writes into them with `SetBlock`/`FillDown`. Reads outside the column give air, and writes outside it are ignored.
- **Exceptions become `None` results.** `collect`, `getOceanBiomes`, `getDeepOceanBiomes` and `getRivers` throw on a missing or null table row; in the model they return `None`.

All paths below are relative to `TerraForgedMod-fabric/src/main/java/com/terraforged/mod/` in the repository. The table cites them in full.

## Model

| member | source | states |
|---|---|---|
| BiomeMap.GetCategory | TerraForgedMod-fabric/src/main/java/com/terraforged/mod/biome/map/AbstractBiomeMap.java:135-143 | COLD exactly below 0.25, WARM exactly above 0.75, MEDIUM exactly in between. The result always indexes one of the three table rows. |
| BiomeMap.GetCategoryMonotone | TerraForgedMod-fabric/src/main/java/com/terraforged/mod/biome/map/AbstractBiomeMap.java:135-143 | A warmer temperature never gives a colder group. |
| BiomeMap.DefaultBeach | TerraForgedMod-fabric/src/main/java/com/terraforged/mod/biome/map/AbstractBiomeMap.java:145-153 | Snowy beach exactly below 0.25, warm beach exactly above 0.75, plain beach in between. |
| BiomeMap.DefaultRiver | TerraForgedMod-fabric/src/main/java/com/terraforged/mod/biome/map/AbstractBiomeMap.java:155-160 | Frozen river exactly below 0.15, otherwise river. |
| BiomeMap.DefaultWetland | TerraForgedMod-fabric/src/main/java/com/terraforged/mod/biome/map/AbstractBiomeMap.java:162-167 | Taiga scrub exactly below 0.15, otherwise marshland. |
| BiomeMap.DefaultOcean | TerraForgedMod-fabric/src/main/java/com/terraforged/mod/biome/map/AbstractBiomeMap.java:169-177 | Frozen ocean exactly below 0.3, warm ocean exactly above 0.7, ocean in between. |
| BiomeMap.DefaultDeepOcean | TerraForgedMod-fabric/src/main/java/com/terraforged/mod/biome/map/AbstractBiomeMap.java:179-187 | Deep frozen ocean exactly below 0.3, deep warm ocean exactly above 0.7, deep ocean in between. |
| BiomeMap.DefaultLand | TerraForgedMod-fabric/src/main/java/com/terraforged/mod/biome/map/AbstractBiomeMap.java:189-197 | Taiga scrub exactly below 0.3, savanna scrub exactly above 0.7, plains in between. |
| BiomeMap.DefaultBeachFollowsCategory | TerraForgedMod-fabric/src/main/java/com/terraforged/mod/biome/map/AbstractBiomeMap.java:135-153 | The default beach is snowy exactly when the group is COLD, and warm exactly when it is WARM. |
| BiomeMap.RiverDefaultColderThanCategory | TerraForgedMod-fabric/src/main/java/com/terraforged/mod/biome/map/AbstractBiomeMap.java:135-167 | A frozen default river or taiga-scrub wetland implies the COLD group. The converse fails (at 0.2). |
| BiomeMap.OceanDefaultCutoffsDiffer | TerraForgedMod-fabric/src/main/java/com/terraforged/mod/biome/map/AbstractBiomeMap.java:135-187 | The ocean defaults use other cutoffs than the groups: at 0.27 the group is MEDIUM but the default ocean is frozen; at 0.72 the default deep ocean is warm. |
| BiomeMap.Round | TerraForgedMod-fabric/src/main/java/com/terraforged/mod/biome/map/AbstractBiomeMap.java:217 | Rounding to nearest: the result lies within half a unit of the argument and is non-negative. |
| BiomeMap.PickIndex | TerraForgedMod-fabric/src/main/java/com/terraforged/mod/biome/map/AbstractBiomeMap.java:217-218 | `round((length - 1) * shape)` is a valid index into a non-empty row. |
| BiomeMap.PickIndexMonotone | TerraForgedMod-fabric/src/main/java/com/terraforged/mod/biome/map/AbstractBiomeMap.java:217 | A larger shape never picks an earlier entry. |
| BiomeMap.PickIndexEnds | TerraForgedMod-fabric/src/main/java/com/terraforged/mod/biome/map/AbstractBiomeMap.java:217 | Shape 0 picks the first entry and shape 1 the last. |
| BiomeMap.Get | TerraForgedMod-fabric/src/main/java/com/terraforged/mod/biome/map/AbstractBiomeMap.java:207-219 | A row index past the table, or a null or empty row, gives the default for the temperature. Otherwise the result is the row's entry at the rounded index. |
| BiomeMap.GetByGroup | TerraForgedMod-fabric/src/main/java/com/terraforged/mod/biome/map/AbstractBiomeMap.java:199-201 | When the group's row (`ordinal - 1`) exists and is non-empty, the result is that row's entry at the picked index. Otherwise it is the default. |
| BiomeMap.GetByType | TerraForgedMod-fabric/src/main/java/com/terraforged/mod/biome/map/AbstractBiomeMap.java:203-205 | When the type's row (`ordinal`) exists and is non-empty, the result is that row's entry at the picked index. Otherwise it is the default. |
| BiomeMap.GetBeach | TerraForgedMod-fabric/src/main/java/com/terraforged/mod/biome/map/AbstractBiomeMap.java:65-68 | When the beach row of the temperature's group is non-empty, the result is its entry at the index the shape picks. Otherwise it is the beach default for the temperature. |
| BiomeMap.GetRiver | TerraForgedMod-fabric/src/main/java/com/terraforged/mod/biome/map/AbstractBiomeMap.java:70-73 | The same for the river table and river default. |
| BiomeMap.GetWetland | TerraForgedMod-fabric/src/main/java/com/terraforged/mod/biome/map/AbstractBiomeMap.java:75-78 | The same for the wetland table and wetland default. |
| BiomeMap.GetOcean | TerraForgedMod-fabric/src/main/java/com/terraforged/mod/biome/map/AbstractBiomeMap.java:80-83 | The same for the ocean table and ocean default. |
| BiomeMap.GetDeepOcean | TerraForgedMod-fabric/src/main/java/com/terraforged/mod/biome/map/AbstractBiomeMap.java:85-88 | The same for the deep-ocean table and deep-ocean default. |
| BiomeMap.LookupsIgnoreMoisture | TerraForgedMod-fabric/src/main/java/com/terraforged/mod/biome/map/AbstractBiomeMap.java:65-88 | None of the five lookups depends on moisture. |
| BiomeMap.BucketSet | TerraForgedMod-fabric/src/main/java/com/terraforged/mod/biome/map/AbstractBiomeMap.java:90-103 | A set exists exactly when the group is not OCEAN and its row exists and is non-null. That set holds exactly the row's biomes. |
| BiomeMap.GetOceanBiomes | TerraForgedMod-fabric/src/main/java/com/terraforged/mod/biome/map/AbstractBiomeMap.java:90-93 | The set of the ocean row for the group. |
| BiomeMap.GetDeepOceanBiomes | TerraForgedMod-fabric/src/main/java/com/terraforged/mod/biome/map/AbstractBiomeMap.java:95-98 | The set of the deep-ocean row for the group. |
| BiomeMap.GetRivers | TerraForgedMod-fabric/src/main/java/com/terraforged/mod/biome/map/AbstractBiomeMap.java:100-103 | The set of the river row for the group. |
| BiomeMap.SortedIdsSpec | TerraForgedMod-fabric/src/main/java/com/terraforged/mod/biome/map/AbstractBiomeMap.java:124-127 | The ids of a row's distinct biomes: sorted, one per distinct biome, and containing exactly the ids of the row's biomes. Duplicate-free when the registry names biomes apart. |
| BiomeMap.UnregisteredIdsRepeat | TerraForgedMod-fabric/src/main/java/com/terraforged/mod/biome/map/AbstractBiomeMap.java:124-127 | Two unregistered biomes both appear, as "unknown" twice. |
| BiomeMap.Collect | TerraForgedMod-fabric/src/main/java/com/terraforged/mod/biome/map/AbstractBiomeMap.java:116-132 | The result is defined exactly when the table has the three rows. It then has keys COLD, MEDIUM and WARM, in that order, each with the sorted ids of its row (empty for a null row). |
| BiomeMap.ToJson | TerraForgedMod-fabric/src/main/java/com/terraforged/mod/biome/map/AbstractBiomeMap.java:105-114 | Defined exactly when every table has three rows. The keys are rivers, wetland, beaches, oceans, deepOceans, each collected from its table. |
| BiomeHelper.GetId | TerraForgedMod-fabric/src/main/java/com/terraforged/mod/biome/provider/BiomeHelper.java:178-184 | The registry id, or "unknown" when the registry has none. |
| BiomeHelper.GetIdInjective | TerraForgedMod-fabric/src/main/java/com/terraforged/mod/biome/provider/BiomeHelper.java:178-184 | Distinct registered biomes get distinct ids. |
| BiomeHelper.GetTemperatureGroup | TerraForgedMod-fabric/src/main/java/com/terraforged/mod/biome/provider/BiomeHelper.java:155-176 | For an ocean: WARM when it carries warm ocean ruins; otherwise COLD exactly when its id contains "cold" or "frozen"; MEDIUM exactly in the remaining case. An ocean always lands in a table row. Other biomes keep the game's group. |
| BiomeHelper.MountainOnlyAlpine | TerraForgedMod-fabric/src/main/java/com/terraforged/mod/biome/provider/BiomeHelper.java:56-73 | A mountain biome qualifies only as ALPINE or TROPICAL_RAINFOREST. |
| BiomeHelper.Accepts | TerraForgedMod-fabric/src/main/java/com/terraforged/mod/biome/provider/BiomeHelper.java:56-73 | Definition of the `PREDICATES` table. Its properties are in `MountainOnlyAlpine`, `TaigaTundraExclusive` and `GetTypes`. |
| BiomeHelper.TaigaTundraExclusive | TerraForgedMod-fabric/src/main/java/com/terraforged/mod/biome/provider/BiomeHelper.java:69-71 | No biome qualifies as both TAIGA and TUNDRA. |
| BiomeHelper.GetTypes | TerraForgedMod-fabric/src/main/java/com/terraforged/mod/biome/provider/BiomeHelper.java:186-194 | A type is in the result exactly when its predicate accepts the biome. |
| BiomeHelper.AcceptedTypes | TerraForgedMod-fabric/src/main/java/com/terraforged/mod/biome/provider/BiomeHelper.java:186-194 | The accepting types of a list, in list order and without repeats. |
| BiomeHelper.BiomeMapBuilder.Basic | TerraForgedMod-fabric/src/main/java/com/terraforged/mod/biome/provider/BiomeHelper.java:75-77 | A builder over the biome list with no entries yet. |
| BiomeHelper.BiomeMapBuilder.AddOcean | TerraForgedMod-fabric/src/main/java/com/terraforged/mod/biome/provider/BiomeHelper.java:106 | Appends an ocean-table entry and nothing else. |
| BiomeHelper.BiomeMapBuilder.AddRiver | TerraForgedMod-fabric/src/main/java/com/terraforged/mod/biome/provider/BiomeHelper.java:108 | Appends a river-table entry and nothing else. |
| BiomeHelper.BiomeMapBuilder.AddBeach | TerraForgedMod-fabric/src/main/java/com/terraforged/mod/biome/provider/BiomeHelper.java:110 | Appends a beach-table entry and nothing else. |
| BiomeHelper.BiomeMapBuilder.AddWetland | TerraForgedMod-fabric/src/main/java/com/terraforged/mod/biome/provider/BiomeHelper.java:112 | Appends a wetland-table entry and nothing else. |
| BiomeHelper.BiomeMapBuilder.AddBiome | TerraForgedMod-fabric/src/main/java/com/terraforged/mod/biome/provider/BiomeHelper.java:116 | Appends an entry for the type's table and nothing else. |
| BiomeHelper.DefaultWeight | TerraForgedMod-fabric/src/main/java/com/terraforged/mod/biome/provider/BiomeHelper.java:83-96 | Weight 5 for forests, 1 for mushroom fields, 10 otherwise. |
| BiomeHelper.TypeEntries | TerraForgedMod-fabric/src/main/java/com/terraforged/mod/biome/provider/BiomeHelper.java:115-117 | One entry per type, in order, with the biome and its weight. |
| BiomeHelper.EntriesForSpec | TerraForgedMod-fabric/src/main/java/com/terraforged/mod/biome/provider/BiomeHelper.java:84-118 | A hills variant with a parent adds nothing. Oceans, rivers, beaches (and stone shore) and swamps add one entry to their table, with the category weight. Every other biome adds one entry per accepted type, each type once. |
| BiomeHelper.LoopEntriesJustified | TerraForgedMod-fabric/src/main/java/com/terraforged/mod/biome/provider/BiomeHelper.java:82-119 | Every entry the loop adds comes from a listed biome, by the rules above. |
| BiomeHelper.DefaultEntriesEndWithFixed | TerraForgedMod-fabric/src/main/java/com/terraforged/mod/biome/provider/BiomeHelper.java:121-125 | After the loop come the five fixed entries (plains, flower forest, plains, snowy taiga scrub, taiga scrub) with their weights. |
| BiomeHelper.AddDefaultEntries | TerraForgedMod-fabric/src/main/java/com/terraforged/mod/biome/provider/BiomeHelper.java:84-118 | The builder gains exactly the entries the rules give for one biome. |
| BiomeHelper.AddTypeEntries | TerraForgedMod-fabric/src/main/java/com/terraforged/mod/biome/provider/BiomeHelper.java:114-117 | The builder gains one entry per accepted type, in type order, with the biome and its weight, and nothing else. |
| BiomeHelper.GetDefaultBiomeMap | TerraForgedMod-fabric/src/main/java/com/terraforged/mod/biome/provider/BiomeHelper.java:79-128 | A fresh builder holding exactly the loop's entries followed by the fixed ones. |
| BiomeHelper.FindByName | TerraForgedMod-fabric/src/main/java/com/terraforged/mod/biome/provider/BiomeHelper.java:133-140 | A listed biome with that name, or none when no listed biome has it. |
| BiomeHelper.SettingsEntriesKnown | TerraForgedMod-fabric/src/main/java/com/terraforged/mod/biome/provider/BiomeHelper.java:135-143 | A call is in the settings entries exactly when some configured weight's id names a listed biome. The call adds that biome under the group's type, with the configured weight. |
| BiomeHelper.GroupEntriesKnown | TerraForgedMod-fabric/src/main/java/com/terraforged/mod/biome/provider/BiomeHelper.java:136-142 | The same for one group, in both directions. Unknown ids add nothing. |
| BiomeHelper.FindByNameUnique | TerraForgedMod-fabric/src/main/java/com/terraforged/mod/biome/provider/BiomeHelper.java:133-138 | With distinct names, looking up a listed biome's name returns that biome. |
| BiomeHelper.OceanRiverEntriesSpec | TerraForgedMod-fabric/src/main/java/com/terraforged/mod/biome/provider/BiomeHelper.java:144-151 | An entry is present exactly for each listed ocean (ocean table) and river (river table), with weight 10. |
| BiomeHelper.GetBiomeMap | TerraForgedMod-fabric/src/main/java/com/terraforged/mod/biome/provider/BiomeHelper.java:130-153 | A fresh builder holding the settings entries followed by the ocean and river entries. |
| BiomeHelper.AddGroupEntries | TerraForgedMod-fabric/src/main/java/com/terraforged/mod/biome/provider/BiomeHelper.java:136-142 | The builder gains exactly the group's settings entries, in order, and nothing else. |
| BiomeHelper.AddOceanRiverEntries | TerraForgedMod-fabric/src/main/java/com/terraforged/mod/biome/provider/BiomeHelper.java:144-151 | The builder gains exactly the ocean and river entries of the listed biomes, in order, and nothing else. |
| Modifiers.Apply | TerraForgedMod-fabric/src/main/java/com/terraforged/mod/biome/modifier/BiomeModifierManager.java:81-89 | Definition of the manager's loop as a fold. Its properties are in `ApplyConcat`, `TestSeesRunningBiome`, `ApplyNoneAccepts` and `BiomeModifierManager.Modify`. |
| Modifiers.ApplyConcat | TerraForgedMod-fabric/src/main/java/com/terraforged/mod/biome/modifier/BiomeModifierManager.java:81-89 | Running two chains in turn is running their concatenation. |
| Modifiers.TestSeesRunningBiome | TerraForgedMod-fabric/src/main/java/com/terraforged/mod/biome/modifier/BiomeModifierManager.java:83-86 | Each modifier tests the biome left by its predecessors, not the original. |
| Modifiers.ApplyNoneAccepts | TerraForgedMod-fabric/src/main/java/com/terraforged/mod/biome/modifier/BiomeModifierManager.java:81-89 | When no modifier accepts the biome, it passes through unchanged. |
| Modifiers.UpperBound | TerraForgedMod-fabric/src/main/java/com/terraforged/mod/biome/modifier/BiomeModifierManager.java:61-65 | In a sorted chain: the first position whose priority exceeds the given one. |
| Modifiers.InsertedSpec | TerraForgedMod-fabric/src/main/java/com/terraforged/mod/biome/modifier/BiomeModifierManager.java:61-65 | Insertion keeps the chain sorted and adds exactly the new modifier. Removing it gives the old chain back. |
| Modifiers.InsertedSorted | TerraForgedMod-fabric/src/main/java/com/terraforged/mod/biome/modifier/BiomeModifierManager.java:61-65 | Insertion after equal priorities keeps a sorted chain sorted. |
| Modifiers.StableSort | TerraForgedMod-fabric/src/main/java/com/terraforged/mod/biome/modifier/BiomeModifierManager.java:58 | `Collections.sort` result: sorted by priority, same length. |
| Modifiers.StableSortPermutes | TerraForgedMod-fabric/src/main/java/com/terraforged/mod/biome/modifier/BiomeModifierManager.java:58-64 | The sorted chain is a permutation of the input through an injective index map, and modifiers of equal priority keep their relative order. |
| Modifiers.InsertedPositions | TerraForgedMod-fabric/src/main/java/com/terraforged/mod/biome/modifier/BiomeModifierManager.java:58-64 | Inserting one modifier after every equal priority extends the index map injectively and keeps ties in order. |
| Modifiers.StableSortSorted | TerraForgedMod-fabric/src/main/java/com/terraforged/mod/biome/modifier/BiomeModifierManager.java:58 | Sorting an already sorted chain leaves it as it is. |
| Modifiers.RegisterIsStableSort | TerraForgedMod-fabric/src/main/java/com/terraforged/mod/biome/modifier/BiomeModifierManager.java:61-65 | Appending and then stable-sorting equals inserting after the last modifier of equal or lower priority. |
| Modifiers.BiomeModifierManager.constructor | TerraForgedMod-fabric/src/main/java/com/terraforged/mod/biome/modifier/BiomeModifierManager.java:47-59 | The beach, desert-colour and sand modifiers, stable-sorted by priority. |
| Modifiers.BiomeModifierManager.Register | TerraForgedMod-fabric/src/main/java/com/terraforged/mod/biome/modifier/BiomeModifierManager.java:61-65 | The chain becomes the stable sort of the old chain plus the new modifier, which equals inserting it after its equal-priority peers. The chain stays sorted. |
| Modifiers.BiomeModifierManager.Priority | TerraForgedMod-fabric/src/main/java/com/terraforged/mod/biome/modifier/BiomeModifierManager.java:71-74 | Exactly -1, so the manager sorts before every non-negative modifier. |
| Modifiers.BiomeModifierManager.Modify | TerraForgedMod-fabric/src/main/java/com/terraforged/mod/biome/modifier/BiomeModifierManager.java:81-89 | The loop's result is the chain applied in order to the running biome. |
| Modifiers.BiomeModifierManager.AsModifier | TerraForgedMod-fabric/src/main/java/com/terraforged/mod/biome/modifier/BiomeModifierManager.java:71-79 | Seen as a modifier, the manager has its priority, accepts every biome, and its transform runs its own chain. |
| Modifiers.ManagerRunsFirst | TerraForgedMod-fabric/src/main/java/com/terraforged/mod/biome/modifier/BiomeModifierManager.java:61-89 | Registered, through its modifier view, into a chain of non-negative priorities, a manager goes first and runs its whole chain before the rest. |
| Modifiers.DefaultOrder | TerraForgedMod-fabric/src/main/java/com/terraforged/mod/biome/modifier/BiomeModifierManager.java:47-59 | The initial order for each possible beach priority: beach first up to 0, between desert colour and sand up to 1, last above 1. |
| Modifiers.RegisterOrderExample | TerraForgedMod-fabric/src/main/java/com/terraforged/mod/biome/modifier/BiomeModifierManager.java:61-65 | Registering priorities 5, -2 and 0 in turn gives the order -2, 0, 5. |
| DesertColor.Test | TerraForgedMod-fabric/src/main/java/com/terraforged/mod/biome/modifier/DesertColorModifier.java:47-50 | Definition: exactly the desert-category biomes. `DesertColor.AsModifier` and `Sand.DesertChain` use it. |
| DesertColor.Modify | TerraForgedMod-fabric/src/main/java/com/terraforged/mod/biome/modifier/DesertColorModifier.java:52-62 | A red desert on continent value at most 0.5 becomes the white desert for the cell's climate biome. A non-red desert above 0.5 becomes the red one. Otherwise the biome is kept. |
| DesertColor.ModifyColourFollowsContinent | TerraForgedMod-fabric/src/main/java/com/terraforged/mod/biome/modifier/DesertColorModifier.java:52-62 | Given consistent desert tables, the result is red exactly when the continent value exceeds 0.5. |
| DesertColor.ModifyIdempotent | TerraForgedMod-fabric/src/main/java/com/terraforged/mod/biome/modifier/DesertColorModifier.java:52-62 | Recolouring twice is recolouring once. |
| DesertColor.ReplacementIgnoresInput | TerraForgedMod-fabric/src/main/java/com/terraforged/mod/biome/modifier/DesertColorModifier.java:52-62 | A replacement depends only on the cell, not on which desert of that colour came in. |
| DesertColor.ThresholdIsWhite | TerraForgedMod-fabric/src/main/java/com/terraforged/mod/biome/modifier/DesertColorModifier.java:55 | At exactly 0.5 a red desert turns white. |
| DesertColor.AsModifier | TerraForgedMod-fabric/src/main/java/com/terraforged/mod/biome/modifier/DesertColorModifier.java:42-50 | Priority 0. Accepts exactly the desert-category biomes. Its transform is `Modify`. |
| Sand.SandBiomes | TerraForgedMod-fabric/src/main/java/com/terraforged/mod/biome/modifier/SandBiomeModifier.java:48-50 | Exactly the registered biomes whose top block is sand. |
| Sand.GetModifiedBiomeConstant | TerraForgedMod-fabric/src/main/java/com/terraforged/mod/biome/modifier/SandBiomeModifier.java:63-66 | The replacement is badlands whatever the input, cell, position and offset. |
| Sand.Modify | TerraForgedMod-fabric/src/main/java/com/terraforged/mod/biome/modifier/SandBiomeModifier.java:63-66 | The biome is kept or becomes badlands. It is badlands exactly when the height gate fires or it already was. |
| Sand.Test | TerraForgedMod-fabric/src/main/java/com/terraforged/mod/biome/modifier/SandBiomeModifier.java:58-61 | Definition: a desert-category biome or a member of the sand set. `Sand.AsModifier` states it as the modifier's test. |
| Sand.AsModifier | TerraForgedMod-fabric/src/main/java/com/terraforged/mod/biome/modifier/SandBiomeModifier.java:53-61 | Priority 1. Accepts exactly the desert-category biomes and the sand-topped ones. Its transform is `Modify` under the height gate. |
| Sand.DesertChain | TerraForgedMod-fabric/src/main/java/com/terraforged/mod/biome/modifier/SandBiomeModifier.java:58-66 | A desert passed through desert colour, then sand: badlands when the gate fires, else the recoloured desert. |
| Erosion.Rock | TerraForgedMod-fabric/src/main/java/com/terraforged/mod/decorator/base/ErosionDecorator.java:166-171 | A rock-material state is kept. Anything else becomes stone. |
| Erosion.RockIsRockMaterial | TerraForgedMod-fabric/src/main/java/com/terraforged/mod/decorator/base/ErosionDecorator.java:166-171 | The result is always rock material. |
| Erosion.Ground | TerraForgedMod-fabric/src/main/java/com/terraforged/mod/decorator/base/ErosionDecorator.java:173-192 | Organic gives dirt, rock gives gravel, earth is kept, sand and red sand give their sandstones, everything else gives coarse dirt. |
| Erosion.ErodeRock | TerraForgedMod-fabric/src/main/java/com/terraforged/mod/decorator/base/ErosionDecorator.java:143-145 | Definition of the public `erodeRock`: steeper than the rock cutoff, or higher than the rock noise. `GetMaterial` states its role. |
| Erosion.ErodeDirt | TerraForgedMod-fabric/src/main/java/com/terraforged/mod/decorator/base/ErosionDecorator.java:147-149 | Definition of the public `erodeDirt`: steeper than the dirt cutoff and higher than the dirt noise. `GetMaterial` states its role. |
| Erosion.GetMaterial | TerraForgedMod-fabric/src/main/java/com/terraforged/mod/decorator/base/ErosionDecorator.java:143-164 | Rock of the under-block exactly when the public `erodeRock` holds at the perturbed steepness and height. Otherwise the ground of the top block when `erodeDirt` holds. Otherwise the top block. |
| Erosion.Fill | TerraForgedMod-fabric/src/main/java/com/terraforged/mod/decorator/base/ErosionDecorator.java:124-127 | Layers in the range take the block. All others are unchanged. |
| Erosion.FillExtendDown | TerraForgedMod-fabric/src/main/java/com/terraforged/mod/decorator/base/ErosionDecorator.java:124-127 | Setting the layer just below a filled range extends the range by one. |
| Erosion.SetBlock | TerraForgedMod-fabric/src/main/java/com/terraforged/mod/decorator/base/ErosionDecorator.java:126 | Exactly one layer changes, or none outside the column. |
| Erosion.FillDown | TerraForgedMod-fabric/src/main/java/com/terraforged/mod/decorator/base/ErosionDecorator.java:102 | Layers from `from` down to just above `to` take the block. Nothing else changes. |
| Erosion.FindRock | TerraForgedMod-fabric/src/main/java/com/terraforged/mod/decorator/base/ErosionDecorator.java:110-121 | The first stone at depth 3 to 31 below the surface, with depth one past it. Gravel and depth 32 when there is no such stone. |
| Erosion.FindRockDepth | TerraForgedMod-fabric/src/main/java/com/terraforged/mod/decorator/base/ErosionDecorator.java:110-121 | The fill depth is between 4 and 32. |
| Erosion.ScanRock | TerraForgedMod-fabric/src/main/java/com/terraforged/mod/decorator/base/ErosionDecorator.java:110-121 | The scan loop (with its early exit) yields exactly the depth and material the rock search specifies. |
| Erosion.ErodeRockColumn | TerraForgedMod-fabric/src/main/java/com/terraforged/mod/decorator/base/ErosionDecorator.java:109-128 | The column becomes the found material from the surface down through the found depth. |
| Erosion.ScreeSpecBounds | TerraForgedMod-fabric/src/main/java/com/terraforged/mod/decorator/base/ErosionDecorator.java:130-141 | Below scree steepness nothing changes. Otherwise at most the two top layers turn to gravel. |
| Erosion.PlaceScree | TerraForgedMod-fabric/src/main/java/com/terraforged/mod/decorator/base/ErosionDecorator.java:130-141 | The column after scree: gravel in the top two layers when steepness and sediment plus noise pass their thresholds. |
| Erosion.SurfaceY | TerraForgedMod-fabric/src/main/java/com/terraforged/mod/decorator/base/ErosionDecorator.java:86-89 | The height is raised to the heightmap top exactly when that lies more than one above `y`. It is never lowered. |
| Erosion.Decorate | TerraForgedMod-fabric/src/main/java/com/terraforged/mod/decorator/base/ErosionDecorator.java:76-107 | The column after `decorate` is the specified one (skip, rock erosion, or ground fill then scree). |
| Erosion.DecorateSkips | TerraForgedMod-fabric/src/main/java/com/terraforged/mod/decorator/base/ErosionDecorator.java:78-95 | Cells below the minimum height, rivers, river banks, volcano pipes and non-erodible top blocks leave the column untouched. |
| Erosion.DecorateRock | TerraForgedMod-fabric/src/main/java/com/terraforged/mod/decorator/base/ErosionDecorator.java:96-100 | When the chosen material is stone, exactly the 4 to 32 layers from the surface down take the found rock. |
| Erosion.DecorateGround | TerraForgedMod-fabric/src/main/java/com/terraforged/mod/decorator/base/ErosionDecorator.java:96-105 | When the chosen material is not stone, the four top layers take it. The top two may then turn to gravel. Nothing else changes. |
| CarverFix.Remap | TerraForgedMod-fabric/src/main/java/com/terraforged/mod/chunk/fix/ChunkCarverFix.java:52-73 | First match wins: air is kept, grass gives grass block, stone gives stone, earth or clay gives dirt, sediment gives sand, anything else is kept. |
| CarverFix.GetBlockState | TerraForgedMod-fabric/src/main/java/com/terraforged/mod/chunk/fix/ChunkCarverFix.java:51-73 | The carver sees either the stored state or one of the four canonical blocks. Air is never replaced. |
| CarverFix.RemapIdempotent | TerraForgedMod-fabric/src/main/java/com/terraforged/mod/chunk/fix/ChunkCarverFix.java:52-73 | When the canonical blocks classify as themselves, remapping twice is remapping once. |
| CarverFix.RemapChanges | TerraForgedMod-fabric/src/main/java/com/terraforged/mod/chunk/fix/ChunkCarverFix.java:52-73 | A changed state was non-air and matched one of the five classes, and became a canonical block. |
| CarverFix.EarthAndClayReadAsDirt | TerraForgedMod-fabric/src/main/java/com/terraforged/mod/chunk/fix/ChunkCarverFix.java:63-68 | Earth and clay both read as dirt. |
| SpiralSearch.Wrap32 | TerraForgedMod-fabric/src/main/java/com/terraforged/mod/command/search/Search.java:29 | The result is a 32-bit int congruent to the argument modulo 2^32, so equal to it when it already is one. |
| SpiralSearch.SquareFitsInt32 | TerraForgedMod-fabric/src/main/java/com/terraforged/mod/command/search/Search.java:29 | Squares of radii up to 46340 do not overflow. |
| SpiralSearch.Create | TerraForgedMod-fabric/src/main/java/com/terraforged/mod/command/search/Search.java:26-31 | The maximum radius is capped at 24000 (kept when within it). The squared minimum radius is the 32-bit int congruent to `minRadius²` modulo 2^32, and exact whenever it fits. |
| SpiralSearch.CreateDefault | TerraForgedMod-fabric/src/main/java/com/terraforged/mod/command/search/Search.java:10-24 | Radii 128 and 24000 and spacing 16; the squared minimum radius is 128². |
| SpiralSearch.MinRadiusSquareWraps | TerraForgedMod-fabric/src/main/java/com/terraforged/mod/command/search/Search.java:29 | A minimum radius of 46341 wraps the square to a negative bound. |
| SpiralSearch.Step | TerraForgedMod-fabric/src/main/java/com/terraforged/mod/command/search/Search.java:68-75 | At a corner the heading turns a quarter (`(dx, dz)` becomes `(-dz, dx)`), otherwise it is kept. The offset then advances by the heading. |
| SpiralSearch.WalkAtUnitHeading | TerraForgedMod-fabric/src/main/java/com/terraforged/mod/command/search/Search.java:45-75 | The heading is always a unit direction, so the walk moves one grid cell per iteration. |
| SpiralSearch.Candidate | TerraForgedMod-fabric/src/main/java/com/terraforged/mod/command/search/Search.java:60 | The tested position is `spacing` times the grid offset from the centre, at the centre's height. |
| SpiralSearch.SquaredDistance4 | TerraForgedMod-fabric/src/main/java/com/terraforged/mod/command/search/Search.java:61 | Four times the distance from the middle of the centre block: a sum of three odd squares, at least 3. |
| SpiralSearch.CentreOffsetDecides | TerraForgedMod-fabric/src/main/java/com/terraforged/mod/command/search/Search.java:61 | The half-block offset decides the boundary: a cell 16400 whole blocks² away measures 16220.75 and is rejected by the 128² bound. |
| SpiralSearch.Iterations | TerraForgedMod-fabric/src/main/java/com/terraforged/mod/command/search/Search.java:49-50 | `(2r + 1)²` iterations. |
| SpiralSearch.Find | TerraForgedMod-fabric/src/main/java/com/terraforged/mod/command/search/Search.java:54-80 | Definition of the loop as a recursion over the iteration count. Its properties are in `FindSound`, `FindFirstAccepted`, `FindPresent` and `FindNothingAccepted`, and `Get` equals it. |
| SpiralSearch.FindSound | TerraForgedMod-fabric/src/main/java/com/terraforged/mod/command/search/Search.java:54-76 | A result other than ORIGIN passes the test. It is at least the minimum radius from the centre, at the centre's height, and on the grid within the maximum radius. |
| SpiralSearch.FindNothingAccepted | TerraForgedMod-fabric/src/main/java/com/terraforged/mod/command/search/Search.java:54-80 | A test that accepts nothing gives ORIGIN, however the clock behaves. |
| SpiralSearch.TimeoutLooksLikeExhaustion | TerraForgedMod-fabric/src/main/java/com/terraforged/mod/command/search/Search.java:54-80 | With nothing accepted, an expired clock and an unlimited one give the same ORIGIN. |
| SpiralSearch.FindFirstAccepted | TerraForgedMod-fabric/src/main/java/com/terraforged/mod/command/search/Search.java:54-76 | When the state after k steps is the first accepted one and the clock has not expired by then, the search returns that state's position. |
| SpiralSearch.FindPresent | TerraForgedMod-fabric/src/main/java/com/terraforged/mod/command/search/Search.java:54-76 | When some state within the iterations is accepted and the clock has not expired by then, the search returns the position of an accepted state no later than it. |
| SpiralSearch.FindFirst | TerraForgedMod-fabric/src/main/java/com/terraforged/mod/command/search/Search.java:54-65 | A position accepted at the first step is returned unless the deadline has already passed (the case k = 0 of `FindFirstAccepted`). |
| SpiralSearch.Get | TerraForgedMod-fabric/src/main/java/com/terraforged/mod/command/search/Search.java:41-81 | The loop returns what the recursive search specifies, so the lemmas above apply to it. |
| BiomeSearch.Create | TerraForgedMod-fabric/src/main/java/com/terraforged/mod/command/search/BiomeSearchTask.java:12-21 | Minimum radius 128, maximum 24000, spacing 10. |
| BiomeSearch.Shr2 | TerraForgedMod-fabric/src/main/java/com/terraforged/mod/command/search/BiomeSearchTask.java:25 | `v >> 2` is the floor of a quarter: `4r <= v < 4r + 4`. |
| BiomeSearch.Shr2Negative | TerraForgedMod-fabric/src/main/java/com/terraforged/mod/command/search/BiomeSearchTask.java:25 | Negative coordinates round down (`-1 >> 2` is -1), unlike division. |
| BiomeSearch.Test | TerraForgedMod-fabric/src/main/java/com/terraforged/mod/command/search/BiomeSearchTask.java:23-26 | Definition: the stored biome at `(x >> 2, y, z >> 2)` is the target. Its properties are in `TestQuarterCell` and `FoundHasBiome`. |
| BiomeSearch.TestQuarterCell | TerraForgedMod-fabric/src/main/java/com/terraforged/mod/command/search/BiomeSearchTask.java:23-26 | Positions in the same 4×4 quarter cell at the same height test alike. |
| BiomeSearch.FoundHasBiome | TerraForgedMod-fabric/src/main/java/com/terraforged/mod/command/search/BiomeSearchTask.java:23-26 | A found position stores the target biome at its quarter cell and lies at least 128 blocks from the centre. |
| TerrainSearch.TerrainSearchTask.constructor | TerraForgedMod-fabric/src/main/java/com/terraforged/mod/command/search/TerrainSearchTask.java:12-23 | Minimum radius 256, maximum 24000, spacing 20, and an empty scratch cell. |
| TerrainSearch.TerrainSearchTask.Test | TerraForgedMod-fabric/src/main/java/com/terraforged/mod/command/search/TerrainSearchTask.java:25-29 | The scratch cell now holds the heightmap at the position's (x, z). The answer is whether its terrain tag is the target. |
| TerrainSearch.TerrainSearchTask.Get | TerraForgedMod-fabric/src/main/java/com/terraforged/mod/command/search/Search.java:41-81 | A found position has the target terrain and is at least the minimum radius from the centre. |

## Left out

- **Data model:**
  - The biome builder's own weighting and array layout (`BiomeMapBuilder.build`) are not part of this model. The builder records its `add*` calls in order; that is all `BiomeHelper` decides.
  - `getAllBiomeData`, `getRange` and `filter` (the min/max normalisation of float climate values, and the registry filter) are not part of this model. The biome list is a parameter.
  - `getBuilder` is modelled by the constructor `BiomeMapBuilder.Basic`.
  - The `BeachModifier`, the `DesertBiomes` tables and the `AbstractMaxHeightModifier` height test belong to other classes:
    - the beach modifier is a `Modifier` value with any priority;
    - the desert tables are functions (`isRedDesert`, `whiteDesert`, `redDesert`);
    - the height test is a gate returning the offset when it fires.
  - `getDesertBiomes`, and the random draws in the decorator's and modifiers' constructors (seeds are fields), are not modelled as operations.
- BiomeMap.Get: shapes outside [0, 1] are excluded by a precondition. The source also accepts such a shape when the rounded index stays in range, and throws otherwise. `NoiseUtil.round` is not part of this model; it is taken as rounding halves up for non-negative arguments.
- BiomeMap.GetByGroup: requires a group other than `OCEAN`. For `OCEAN` the source indexes row `-1` and throws. `getCategory` never returns `OCEAN`, so no `get*` lookup reaches that case.
- BiomeMap.Collect: the HashSet that deduplicates a row is modelled as the row's distinct biomes. Only the sorted id list is observable, so its iteration order does not matter.
- BiomeHelper.GetBiomeMap: `settings.asMap()` is modelled as a list of groups, in the map's iteration order. `Collectors.toMap` throws on duplicate biome names; that case is excluded by the `DistinctNames` precondition instead of being modelled as an error.
- BiomeHelper.Accepts: `BiomePredicate` is not part of this model. Its `a.or(b)` is read as `a || b`, and `.not(c)` as `&& !c`, applied left to right. The type table rests on that reading of `BiomeHelper.java` lines 57-72.
- BiomeHelper.GetTypes: `PREDICATES` is a `HashMap`, so the order in which `getDefaultBiomeMap` adds type entries is the HashSet's iteration order. The model uses the enum order, so entry order within one biome is not tied to the JVM.
- Modifiers.StableSort: `Collections.sort` with `compareTo` on `priority()` is modelled as a stable insertion sort. That `compareTo` is not in the core; it is assumed to compare priorities.
- Modifiers.BiomeModifierManager.AsModifier: the manager's `modify` is stated as a function of the biome, cell and position. The `BiomeModifier` interface is modelled as a `Modifier` record, not as Java dispatch.
- Sand.Modify: the gate stands for the height and noise test of the max-height modifier, which is not part of this model.
- **Erosion:**
  - `getNoise` and the climate's `rand` are uninterpreted.
  - The `minY` level is a field.
  - Float arithmetic is exact real arithmetic.
  - `fillDown(from, to)` is taken to write the layers from `from` down to `to + 1`, as its uses at `y - 4` and `y - 2` imply.
- **Search:**
  - The wall clock and the 30-second deadline are the `timedOut` parameter.
  - The `println` of the last position is output only.
- Erosion.Decorate: a column is one (x, z) column of the chunk; positions outside it read as air, and writes to them are dropped. The protected `erodeRock` writes through the shared `context.pos`, whose x and z the caller sets, and never reads its own `dx`/`dz` parameters. The model takes that position to be the decorated column. It leaves `context.pos.y` at `y - depth + 1`, a side effect on the shared context that the model does not keep.
- SpiralSearch.SquaredDistance4: the `double` arithmetic of `getSquaredDistance` is taken as exact. The model compares four times the distance with `4 * minRadius2` in integers. Offsets stay within 24000 cells of spacing at most 20, so every double involved is a multiple of a quarter well inside the exact range.
- SpiralSearch.Create: 32-bit overflow of `radius + 1 + radius`, of `-radius`, and of the centre plus `x * spacing` is not modelled. Only the wrap of `minRadius * minRadius` is, and the contract states its value modulo 2^32.
- SpiralSearch.Get: the model does not prove that the spiral visits every grid cell of the square within `(2r + 1)²` steps. The soundness lemmas hold without it.
- SpiralSearch.FindSound: a position found at the origin itself cannot be told from "not found", as in the source; the lemma speaks only of results other than ORIGIN.
- TerrainSearch.TerrainSearchTask.Get: the scratch cell's final contents after a search are not stated. The search is specified with the pure `Matches` test, which is what `Test` returns.
