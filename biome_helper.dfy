/**
 * BiomeHelper: the rules that decide which lookup table each biome joins and
 * with what weight, the temperature group of a biome, its id and the set of
 * biome types it qualifies for. The table builder itself (weight expansion
 * into arrays) is external; `BiomeMapBuilder` records the `add*` calls made on
 * it, in order, which is everything these rules decide.
 */
module BiomeHelper {
  import opened Wrappers
  import opened Minecraft
  import opened Seqs
  import opened Strings

  /** `getId`: the registry id, or "unknown" for a biome the registry does not hold. */
  function GetId(reg: Registry, biome: Biome): (id: string)
    ensures reg.id(biome).None? ==> id == "unknown"
    ensures reg.id(biome).Some? ==> id == reg.id(biome).value
  {
    match reg.id(biome)
    case None => "unknown"
    case Some(name) => name
  }

  /** Registered biomes carry distinct ids and none of them is "unknown". */
  ghost predicate UniqueIds(reg: Registry, biomes: set<Biome>) {
    (forall b :: b in biomes ==> reg.id(b).Some? && reg.id(b).value != "unknown") &&
    (forall b1, b2 :: b1 in biomes && b2 in biomes && reg.id(b1) == reg.id(b2) ==> b1 == b2)
  }

  /** Distinct biomes get distinct ids exactly when the registry names them apart. */
  lemma GetIdInjective(reg: Registry, biomes: set<Biome>, b1: Biome, b2: Biome)
    requires UniqueIds(reg, biomes)
    requires b1 in biomes && b2 in biomes && b1 != b2
    ensures GetId(reg, b1) != GetId(reg, b2)
  {
  }

  /**
   * `getTemperatureGroup`: an ocean is WARM when its ocean-ruin config is the
   * warm variant, else COLD when its id mentions "cold" or "frozen", else
   * MEDIUM; any other biome keeps the game's own group.
   */
  function GetTemperatureGroup(reg: Registry, biome: Biome): (g: TemperatureGroup)
    ensures reg.category(biome) != Category.Ocean ==> g == reg.temperatureGroup(biome)
    ensures reg.category(biome) == Category.Ocean ==>
      && (reg.oceanRuin(biome) == Some(WarmRuins) ==> g == Warm)
      && (reg.oceanRuin(biome) != Some(WarmRuins) ==>
            (g == Cold <==> Contains(GetId(reg, biome), "cold") || Contains(GetId(reg, biome), "frozen")))
      && (g == Medium <==> (reg.oceanRuin(biome) != Some(WarmRuins) &&
            !Contains(GetId(reg, biome), "cold") && !Contains(GetId(reg, biome), "frozen")))
    // an ocean always lands in one of the three lookup buckets
    ensures reg.category(biome) == Category.Ocean ==> 1 <= g.Ordinal() <= 3
  {
    if reg.category(biome) == Category.Ocean then
      var config := reg.oceanRuin(biome);
      if config.Some? && config.value == WarmRuins then Warm
      else if Contains(GetId(reg, biome), "cold") || Contains(GetId(reg, biome), "frozen") then Cold
      else Medium
    else reg.temperatureGroup(biome)
  }

  /** What the builder knows about a biome: `BiomeData` (the climate values are normalised floats). */
  datatype BiomeData = BiomeData(name: string, biome: Biome, color: int, moisture: real, temperature: real)

  /** The base `BiomePredicate`s the type table is composed from. */
  datatype BiomePredicate =
    | TropicalRainforestP | SavannaP | MesaP | DesertP | SteppeP | CoastP | MountainP
    | WetlandP | TemperateRainforestP | TemperateForestP | GrasslandP | ColdSteppeP | TaigaP | TundraP

  /**
   * The `PREDICATES` table: for each biome type, the composite predicate a
   * biome must pass to be listed under it (`a.or(b)` is a || b, `a.not(b)` is
   * a && !b). `base` evaluates one base predicate on the biome's data.
   */
  predicate Accepts(base: (BiomePredicate, BiomeData) -> bool, t: BiomeType, d: BiomeData) {
    var coast := base(CoastP, d);
    var mountain := base(MountainP, d);
    var wetland := base(WetlandP, d);
    match t
    case TropicalRainforest => base(TropicalRainforestP, d)
    case Savanna =>
      (base(SavannaP, d) || base(MesaP, d)) && !base(DesertP, d) && !base(SteppeP, d)
      && !coast && !mountain && !wetland
    case Desert => (base(DesertP, d) || base(MesaP, d)) && !coast && !mountain && !wetland
    case TemperateRainforest => base(TemperateRainforestP, d) && !coast && !mountain
    case TemperateForest => base(TemperateForestP, d) && !coast && !mountain && !wetland
    case Grassland => base(GrasslandP, d) && !wetland && !coast && !mountain
    case ColdSteppe => base(ColdSteppeP, d) && !coast && !mountain
    case Steppe => base(SteppeP, d) && !coast && !mountain
    case TaigaType => base(TaigaP, d) && !base(TundraP, d) && !base(ColdSteppeP, d) && !coast && !mountain
    case Tundra => base(TundraP, d) && !base(TaigaP, d) && !coast && !mountain
    case Alpine => mountain
  }

  /** A mountain biome is listed only as ALPINE, or as TROPICAL_RAINFOREST whose predicate does not exclude mountains. */
  lemma MountainOnlyAlpine(base: (BiomePredicate, BiomeData) -> bool, d: BiomeData, t: BiomeType)
    requires base(MountainP, d)
    ensures Accepts(base, t, d) ==> t == Alpine || t == TropicalRainforest
  {
  }

  /** No biome is listed both under TAIGA and under TUNDRA. */
  lemma TaigaTundraExclusive(base: (BiomePredicate, BiomeData) -> bool, d: BiomeData)
    ensures !(Accepts(base, TaigaType, d) && Accepts(base, Tundra, d))
  {
  }

  /** `getTypes`: the set of biome types whose predicate accepts the biome. */
  method GetTypes(base: (BiomePredicate, BiomeData) -> bool, d: BiomeData) returns (types: set<BiomeType>)
    ensures forall t :: t in types <==> Accepts(base, t, d)
  {
    types := {};
    for i := 0 to |AllBiomeTypes|
      invariant forall t :: t in types <==> t in AllBiomeTypes[..i] && Accepts(base, t, d)
    {
      if Accepts(base, AllBiomeTypes[i], d) {
        types := types + {AllBiomeTypes[i]};
      }
    }
    assert AllBiomeTypes[..|AllBiomeTypes|] == AllBiomeTypes;
    forall t ensures t in AllBiomeTypes {
      AllBiomeTypesComplete(t);
    }
  }

  /** The types of `ts` that accept the biome, in the order of `ts`. */
  function AcceptedTypes(base: (BiomePredicate, BiomeData) -> bool, d: BiomeData, ts: seq<BiomeType>): (r: seq<BiomeType>)
    ensures forall t :: t in r <==> t in ts && Accepts(base, t, d)
    ensures Distinct(ts) ==> Distinct(r)
  {
    if ts == [] then []
    else
      var init := AcceptedTypes(base, d, ts[..|ts| - 1]);
      var last := ts[|ts| - 1];
      assert forall t :: t in ts <==> t in ts[..|ts| - 1] || t == last;
      assert Distinct(ts) ==> Distinct(ts[..|ts| - 1]) && last !in ts[..|ts| - 1];
      if Accepts(base, last, d) then init + [last] else init
  }

  /** The tables of the lookup being built. */
  datatype Table = OceanTable | RiverTable | BeachTable | WetlandTable | TypeTable(biomeType: BiomeType)

  /** One `add*` call on the builder. */
  datatype Entry = Entry(table: Table, biome: Biome, weight: int)

  /** The builder as the sequence of `add*` calls made on it. */
  class BiomeMapBuilder {
    const biomes: seq<BiomeData>
    var entries: seq<Entry>

    /** `BiomeMapBuilder.basic(biomes)`. */
    constructor Basic(biomes: seq<BiomeData>)
      ensures this.biomes == biomes && entries == []
    {
      this.biomes := biomes;
      entries := [];
    }

    method AddOcean(biome: Biome, weight: int)
      modifies this
      ensures entries == old(entries) + [Entry(OceanTable, biome, weight)]
    {
      entries := entries + [Entry(OceanTable, biome, weight)];
    }

    method AddRiver(biome: Biome, weight: int)
      modifies this
      ensures entries == old(entries) + [Entry(RiverTable, biome, weight)]
    {
      entries := entries + [Entry(RiverTable, biome, weight)];
    }

    method AddBeach(biome: Biome, weight: int)
      modifies this
      ensures entries == old(entries) + [Entry(BeachTable, biome, weight)]
    {
      entries := entries + [Entry(BeachTable, biome, weight)];
    }

    method AddWetland(biome: Biome, weight: int)
      modifies this
      ensures entries == old(entries) + [Entry(WetlandTable, biome, weight)]
    {
      entries := entries + [Entry(WetlandTable, biome, weight)];
    }

    method AddBiome(t: BiomeType, biome: Biome, weight: int)
      modifies this
      ensures entries == old(entries) + [Entry(TypeTable(t), biome, weight)]
    {
      entries := entries + [Entry(TypeTable(t), biome, weight)];
    }
  }

  /** The weight a biome gets in the default map: 10, FOREST 5, MUSHROOM 1. */
  function DefaultWeight(category: Category): (w: int)
    ensures category == Forest ==> w == 5
    ensures category == Mushroom ==> w == 1
    ensures category != Forest && category != Mushroom ==> w == 10
  {
    if category == Mushroom then 1 else if category == Forest then 5 else 10
  }

  /** A hills variant: a biome with a parent whose id mentions "hills". */
  predicate IsHillsVariant(reg: Registry, biome: Biome) {
    reg.hasParent(biome) && Contains(GetId(reg, biome), "hills")
  }

  /** The one structural table a biome of this category goes to, if any. */
  function StructuralTable(reg: Registry, biome: Biome): Option<Table> {
    var category := reg.category(biome);
    if category == Category.Ocean then Some(OceanTable)
    else if category == Category.River then Some(RiverTable)
    else if category == Category.Beach || biome == StoneShore then Some(BeachTable)
    else if category == Swamp then Some(WetlandTable)
    else None
  }

  /** `addBiome(type, biome, weight)` once for each type of `ts`, in order. */
  function TypeEntries(ts: seq<BiomeType>, biome: Biome, weight: int): (r: seq<Entry>)
    ensures |r| == |ts|
    ensures forall i :: 0 <= i < |ts| ==> r[i] == Entry(TypeTable(ts[i]), biome, weight)
  {
    Map(t => Entry(TypeTable(t), biome, weight), ts)
  }

  /** The calls one iteration of the main loop of `getDefaultBiomeMap` makes for one biome. */
  function EntriesFor(reg: Registry, base: (BiomePredicate, BiomeData) -> bool, d: BiomeData): seq<Entry> {
    var biome := d.biome;
    if IsHillsVariant(reg, biome) then []
    else
      var weight := DefaultWeight(reg.category(biome));
      match StructuralTable(reg, biome)
      case Some(table) => [Entry(table, biome, weight)]
      case None => TypeEntries(AcceptedTypes(base, d, AllBiomeTypes), biome, weight)
  }

  /**
   * What one iteration adds for one biome: nothing for a hills variant;
   * exactly one entry into its structural table; otherwise one entry under
   * every accepted biome type, each type once, and nothing else.
   */
  lemma EntriesForSpec(reg: Registry, base: (BiomePredicate, BiomeData) -> bool, d: BiomeData)
    ensures var r := EntriesFor(reg, base, d);
      && (IsHillsVariant(reg, d.biome) ==> r == [])
      && (!IsHillsVariant(reg, d.biome) && StructuralTable(reg, d.biome).Some? ==>
            r == [Entry(StructuralTable(reg, d.biome).value, d.biome, DefaultWeight(reg.category(d.biome)))])
      && (!IsHillsVariant(reg, d.biome) && StructuralTable(reg, d.biome).None? ==>
            && Distinct(r)
            && (forall e :: e in r ==> e.biome == d.biome && e.weight == DefaultWeight(reg.category(d.biome)))
            && (forall e :: e in r ==> e.table.TypeTable?)
            && (forall t :: Entry(TypeTable(t), d.biome, DefaultWeight(reg.category(d.biome))) in r <==> Accepts(base, t, d)))
  {
    var biome := d.biome;
    var weight := DefaultWeight(reg.category(biome));
    if !IsHillsVariant(reg, biome) && StructuralTable(reg, biome).None? {
      var ts := AcceptedTypes(base, d, AllBiomeTypes);
      var r := TypeEntries(ts, biome, weight);
      assert r == EntriesFor(reg, base, d);
      assert Distinct(r) by {
        assert Distinct(AllBiomeTypes);
        forall i, j | 0 <= i < j < |r| ensures r[i] != r[j] {
          assert r[i].table.biomeType == ts[i] && r[j].table.biomeType == ts[j];
        }
      }
      forall t ensures t in AllBiomeTypes {
        AllBiomeTypesComplete(t);
      }
      forall t ensures Entry(TypeTable(t), biome, weight) in r <==> t in ts {
        if t in ts {
          var i :| 0 <= i < |ts| && ts[i] == t;
          assert r[i] == Entry(TypeTable(t), biome, weight);
        }
      }
    }
  }

  /** The calls the main loop of `getDefaultBiomeMap` makes for `biomes`, in order. */
  function LoopEntries(reg: Registry, base: (BiomePredicate, BiomeData) -> bool, biomes: seq<BiomeData>): seq<Entry> {
    if biomes == [] then []
    else LoopEntries(reg, base, biomes[..|biomes| - 1]) + EntriesFor(reg, base, biomes[|biomes| - 1])
  }

  /** The five entries appended after the loop. */
  const FixedEntries: seq<Entry> := [
    Entry(TypeTable(TemperateRainforest), PlainsBiome, 10),
    Entry(TypeTable(TemperateForest), FlowerForest, 3),
    Entry(TypeTable(TemperateForest), PlainsBiome, 10),
    Entry(TypeTable(Tundra), SnowyTaigaScrub, 5),
    Entry(TypeTable(TaigaType), TaigaScrub, 5)
  ]

  /** Every call of `getDefaultBiomeMap`, in order. */
  function DefaultEntries(reg: Registry, base: (BiomePredicate, BiomeData) -> bool, biomes: seq<BiomeData>): seq<Entry> {
    LoopEntries(reg, base, biomes) + FixedEntries
  }

  /** `e` is a call the loop may make for the biome data `d`. */
  ghost predicate Justified(reg: Registry, base: (BiomePredicate, BiomeData) -> bool, d: BiomeData, e: Entry) {
    && e.biome == d.biome
    && !IsHillsVariant(reg, d.biome)
    && e.weight == DefaultWeight(reg.category(d.biome))
    && match StructuralTable(reg, d.biome)
       case Some(table) => e.table == table
       case None => e.table.TypeTable? && Accepts(base, e.table.biomeType, d)
  }

  /**
   * Every call the loop makes belongs to some listed biome that is not a
   * hills variant, carries that biome's category weight, and names its
   * structural table or one of its accepted types.
   */
  lemma {:induction false} LoopEntriesJustified(reg: Registry, base: (BiomePredicate, BiomeData) -> bool, biomes: seq<BiomeData>)
    ensures forall e :: e in LoopEntries(reg, base, biomes) ==>
      exists d :: d in biomes && Justified(reg, base, d, e)
  {
    if biomes != [] {
      var init := biomes[..|biomes| - 1];
      var last := biomes[|biomes| - 1];
      LoopEntriesJustified(reg, base, init);
      forall e | e in LoopEntries(reg, base, biomes)
        ensures exists d :: d in biomes && Justified(reg, base, d, e)
      {
        if e in LoopEntries(reg, base, init) {
          var d :| d in init && Justified(reg, base, d, e);
          assert d in biomes;
        } else {
          assert e in EntriesFor(reg, base, last);
          EntriesForSpec(reg, base, last);
          assert Justified(reg, base, last, e);
        }
      }
    }
  }

  /** The default map ends with exactly the five fixed entries. */
  lemma DefaultEntriesEndWithFixed(reg: Registry, base: (BiomePredicate, BiomeData) -> bool, biomes: seq<BiomeData>)
    ensures var all := DefaultEntries(reg, base, biomes);
      |all| >= 5 && all[|all| - 5..] == FixedEntries
  {
  }

  /** One iteration of the main loop of `getDefaultBiomeMap`, for the biome data `data`. */
  method AddDefaultEntries(reg: Registry, base: (BiomePredicate, BiomeData) -> bool,
                           builder: BiomeMapBuilder, data: BiomeData)
    modifies builder
    ensures builder.entries == old(builder.entries) + EntriesFor(reg, base, data)
  {
    var weight := 10;
    var biome := data.biome;

    if reg.hasParent(biome) && Contains(GetId(reg, biome), "hills") {
      return;
    }
    if reg.category(biome) == Forest {
      weight := 5;
    }
    if reg.category(biome) == Mushroom {
      weight := 1;
    }

    if reg.category(biome) == Category.Ocean {
      builder.AddOcean(biome, weight);
    } else if reg.category(biome) == Category.River {
      builder.AddRiver(biome, weight);
    } else if reg.category(biome) == Category.Beach || biome == StoneShore {
      builder.AddBeach(biome, weight);
    } else if reg.category(biome) == Swamp {
      builder.AddWetland(biome, weight);
    } else {
      AddTypeEntries(base, builder, data, weight);
    }
  }

  /** The inner loop of `getDefaultBiomeMap`: `addBiome` for every type of `getTypes`, in enum order. */
  method AddTypeEntries(base: (BiomePredicate, BiomeData) -> bool, builder: BiomeMapBuilder, data: BiomeData, weight: int)
    modifies builder
    ensures builder.entries == old(builder.entries) + TypeEntries(AcceptedTypes(base, data, AllBiomeTypes), data.biome, weight)
  {
    var types := GetTypes(base, data);
    ghost var before := builder.entries;
    for k := 0 to |AllBiomeTypes|
      invariant builder.entries == before + TypeEntries(AcceptedTypes(base, data, AllBiomeTypes[..k]), data.biome, weight)
    {
      assert AllBiomeTypes[..k + 1][..k] == AllBiomeTypes[..k];
      if AllBiomeTypes[k] in types {
        builder.AddBiome(AllBiomeTypes[k], data.biome, weight);
      }
    }
    assert AllBiomeTypes[..|AllBiomeTypes|] == AllBiomeTypes;
  }

  /** `getDefaultBiomeMap` (before `build()`): the builder receives exactly `DefaultEntries`. */
  method GetDefaultBiomeMap(reg: Registry, base: (BiomePredicate, BiomeData) -> bool, biomes: seq<BiomeData>)
    returns (builder: BiomeMapBuilder)
    ensures fresh(builder)
    ensures builder.entries == DefaultEntries(reg, base, biomes)
  {
    builder := new BiomeMapBuilder.Basic(biomes);
    for i := 0 to |biomes|
      invariant fresh(builder)
      invariant builder.entries == LoopEntries(reg, base, biomes[..i])
    {
      assert biomes[..i + 1][..i] == biomes[..i];
      assert LoopEntries(reg, base, biomes[..i + 1]) ==
        LoopEntries(reg, base, biomes[..i]) + EntriesFor(reg, base, biomes[i]);
      AddDefaultEntries(reg, base, builder, biomes[i]);
    }
    assert biomes[..|biomes|] == biomes;
    ghost var looped := builder.entries;
    assert looped == LoopEntries(reg, base, biomes);

    builder.AddBiome(TemperateRainforest, PlainsBiome, 10);
    builder.AddBiome(TemperateForest, FlowerForest, 3);
    builder.AddBiome(TemperateForest, PlainsBiome, 10);
    builder.AddBiome(Tundra, SnowyTaigaScrub, 5);
    builder.AddBiome(TaigaType, TaigaScrub, 5);
    assert builder.entries == looped + FixedEntries;
  }

  /** One configured biome of a settings group. */
  datatype BiomeWeight = BiomeWeight(id: string, weight: int)

  /** One entry of `settings.asMap()`: a biome type and its configured biomes. */
  datatype BiomeGroup = BiomeGroup(biomeType: BiomeType, biomes: seq<BiomeWeight>)

  /** Every biome name occurs once, as `Collectors.toMap` demands. */
  predicate DistinctNames(biomes: seq<BiomeData>) {
    forall i, j :: 0 <= i < j < |biomes| ==> biomes[i].name != biomes[j].name
  }

  /** `biomeMap.get(name)`: the biome data with that name, if any. */
  function FindByName(biomes: seq<BiomeData>, name: string): (r: Option<BiomeData>)
    ensures r.Some? ==> r.value in biomes && r.value.name == name
    ensures r.None? ==> forall d :: d in biomes ==> d.name != name
  {
    if biomes == [] then None
    else if biomes[0].name == name then Some(biomes[0])
    else FindByName(biomes[1..], name)
  }

  /** The calls made for one settings group: configured ids that name no biome are skipped. */
  function GroupEntries(biomes: seq<BiomeData>, t: BiomeType, weights: seq<BiomeWeight>): seq<Entry> {
    if weights == [] then []
    else
      var init := GroupEntries(biomes, t, weights[..|weights| - 1]);
      match FindByName(biomes, weights[|weights| - 1].id)
      case None => init
      case Some(data) => init + [Entry(TypeTable(t), data.biome, weights[|weights| - 1].weight)]
  }

  /** The calls of the settings loop of `getBiomeMap`, group by group. */
  function SettingsEntries(biomes: seq<BiomeData>, groups: seq<BiomeGroup>): seq<Entry> {
    if groups == [] then []
    else
      var last := groups[|groups| - 1];
      SettingsEntries(biomes, groups[..|groups| - 1]) + GroupEntries(biomes, last.biomeType, last.biomes)
  }

  /** The calls of the second loop of `getBiomeMap`: every ocean and river biome with weight 10. */
  function OceanRiverEntries(reg: Registry, biomes: seq<BiomeData>): seq<Entry> {
    if biomes == [] then []
    else
      var init := OceanRiverEntries(reg, biomes[..|biomes| - 1]);
      var biome := biomes[|biomes| - 1].biome;
      if reg.category(biome) == Category.Ocean then init + [Entry(OceanTable, biome, 10)]
      else if reg.category(biome) == Category.River then init + [Entry(RiverTable, biome, 10)]
      else init
  }

  /**
   * The settings phase adds exactly one call per configured biome weight
   * whose id names a listed biome: under its group's type, for the biome of
   * that name, with the configured weight.
   */
  lemma {:induction false} SettingsEntriesKnown(biomes: seq<BiomeData>, groups: seq<BiomeGroup>)
    ensures forall e :: e in SettingsEntries(biomes, groups) <==>
      exists g, w :: g in groups && w in g.biomes && FindByName(biomes, w.id).Some? &&
        e == Entry(TypeTable(g.biomeType), FindByName(biomes, w.id).value.biome, w.weight)
  {
    if groups != [] {
      var init := groups[..|groups| - 1];
      var last := groups[|groups| - 1];
      SettingsEntriesKnown(biomes, init);
      GroupEntriesKnown(biomes, last.biomeType, last.biomes);
      assert forall g :: g in groups <==> g in init || g == last;
    }
  }

  /** One group's calls: exactly its weights whose ids name a listed biome. */
  lemma {:induction false} GroupEntriesKnown(biomes: seq<BiomeData>, t: BiomeType, weights: seq<BiomeWeight>)
    ensures forall e :: e in GroupEntries(biomes, t, weights) <==>
      exists w :: w in weights && FindByName(biomes, w.id).Some? &&
        e == Entry(TypeTable(t), FindByName(biomes, w.id).value.biome, w.weight)
  {
    if weights != [] {
      var init := weights[..|weights| - 1];
      GroupEntriesKnown(biomes, t, init);
      assert forall w :: w in weights <==> w in init || w == weights[|weights| - 1];
    }
  }

  /** With distinct names, the biome a configured id names is the one `biomeMap.get` returns. */
  lemma {:induction false} FindByNameUnique(biomes: seq<BiomeData>, d: BiomeData)
    requires DistinctNames(biomes) && d in biomes
    ensures FindByName(biomes, d.name) == Some(d)
  {
    if biomes[0] != d {
      assert d in biomes[1..];
      assert DistinctNames(biomes[1..]) by {
        forall i, j | 0 <= i < j < |biomes| - 1 ensures biomes[1..][i].name != biomes[1..][j].name {
          assert biomes[1..][i] == biomes[i + 1] && biomes[1..][j] == biomes[j + 1];
        }
      }
      FindByNameUnique(biomes[1..], d);
      var k :| 0 < k < |biomes| && biomes[k] == d;
      assert biomes[0].name != d.name;
    }
  }

  /**
   * The second loop adds every listed ocean and river biome, each under its
   * own table and always with weight 10, and nothing else.
   */
  lemma {:induction false} OceanRiverEntriesSpec(reg: Registry, biomes: seq<BiomeData>)
    ensures forall e :: e in OceanRiverEntries(reg, biomes) <==>
      exists d :: d in biomes && e.biome == d.biome && e.weight == 10 &&
        ((reg.category(d.biome) == Category.Ocean && e.table == OceanTable) ||
         (reg.category(d.biome) == Category.River && e.table == RiverTable))
  {
    if biomes != [] {
      var init := biomes[..|biomes| - 1];
      var last := biomes[|biomes| - 1];
      OceanRiverEntriesSpec(reg, init);
      assert forall d :: d in biomes <==> d in init || d == last;
    }
  }

  /** `getBiomeMap` (before `build()`): the settings phase, then every ocean and river. */
  method GetBiomeMap(reg: Registry, biomes: seq<BiomeData>, groups: seq<BiomeGroup>)
    returns (builder: BiomeMapBuilder)
    requires DistinctNames(biomes)
    ensures fresh(builder)
    ensures builder.entries == SettingsEntries(biomes, groups) + OceanRiverEntries(reg, biomes)
  {
    builder := new BiomeMapBuilder.Basic(biomes);
    for i := 0 to |groups|
      invariant fresh(builder)
      invariant builder.entries == SettingsEntries(biomes, groups[..i])
    {
      assert groups[..i + 1][..i] == groups[..i];
      AddGroupEntries(builder, biomes, groups[i]);
    }
    assert groups[..|groups|] == groups;
    AddOceanRiverEntries(reg, builder, biomes);
  }

  /** The inner settings loop of `getBiomeMap`: `addBiome` for one group's weights whose ids name a listed biome. */
  method AddGroupEntries(builder: BiomeMapBuilder, biomes: seq<BiomeData>, group: BiomeGroup)
    modifies builder
    ensures builder.entries == old(builder.entries) + GroupEntries(biomes, group.biomeType, group.biomes)
  {
    ghost var before := builder.entries;
    for k := 0 to |group.biomes|
      invariant builder.entries == before + GroupEntries(biomes, group.biomeType, group.biomes[..k])
    {
      assert group.biomes[..k + 1][..k] == group.biomes[..k];
      var biomeWeight := group.biomes[k];
      var data := FindByName(biomes, biomeWeight.id);
      if data.None? {
        continue;
      }
      builder.AddBiome(group.biomeType, data.value.biome, biomeWeight.weight);
    }
    assert group.biomes[..|group.biomes|] == group.biomes;
  }

  /** The second loop of `getBiomeMap`: every ocean and river biome, with weight 10. */
  method AddOceanRiverEntries(reg: Registry, builder: BiomeMapBuilder, biomes: seq<BiomeData>)
    modifies builder
    ensures builder.entries == old(builder.entries) + OceanRiverEntries(reg, biomes)
  {
    ghost var settings := builder.entries;
    for i := 0 to |biomes|
      invariant builder.entries == settings + OceanRiverEntries(reg, biomes[..i])
    {
      assert biomes[..i + 1][..i] == biomes[..i];
      var biome := biomes[i].biome;
      if reg.category(biome) == Category.Ocean {
        builder.AddOcean(biome, 10);
      } else if reg.category(biome) == Category.River {
        builder.AddRiver(biome, 10);
      }
    }
    assert biomes[..|biomes|] == biomes;
  }
}
