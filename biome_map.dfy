/**
 * AbstractBiomeMap: climate-bucketed biome lookup. Each structural table
 * (beach, river, wetland, ocean, deep ocean) holds one bucket per non-ocean
 * temperature group; a temperature picks the bucket, `shape` picks an entry by
 * nearest index, and a per-table default re-thresholds on temperature when the
 * bucket is missing or empty. `ToJson` is the diagnostic export.
 */
module BiomeMap {
  import opened Wrappers
  import opened Minecraft
  import opened Seqs
  import opened Strings
  import BiomeHelper

  /** One row of a table; a `null` array is `None`. */
  type Bucket = Option<seq<Biome>>

  /** The five tables the builder hands to the constructor, indexed by `ordinal() - 1`. */
  datatype BiomeMap = BiomeMap(
    beach: seq<Bucket>, river: seq<Bucket>, wetland: seq<Bucket>,
    ocean: seq<Bucket>, deepOcean: seq<Bucket>)

  /** `getCategory`: COLD below 0.25, WARM above 0.75, MEDIUM otherwise; never OCEAN. */
  function GetCategory(value: real): (g: TemperatureGroup)
    ensures g == Cold <==> value < 0.25
    ensures g == Warm <==> value > 0.75
    ensures g == Medium <==> 0.25 <= value <= 0.75
    ensures 0 <= g.Ordinal() - 1 <= 2
  {
    if value < 0.25 then Cold
    else if value > 0.75 then Warm
    else Medium
  }

  /** A warmer temperature never lands in a colder bucket. */
  lemma GetCategoryMonotone(t1: real, t2: real)
    requires t1 <= t2
    ensures GetCategory(t1).Ordinal() <= GetCategory(t2).Ordinal()
  {
  }

  /** The default functions, one per table (`defaultBiome` serves the land tables). */
  datatype DefaultKind = LandDefault | BeachDefault | RiverDefault | WetlandDefault | OceanDefault | DeepOceanDefault

  function DefaultBeach(temperature: real): (b: Biome)
    ensures b == SnowyBeach <==> temperature < 0.25
    ensures b == WarmBeach <==> temperature > 0.75
    ensures b == BeachBiome <==> 0.25 <= temperature <= 0.75
  {
    if temperature < 0.25 then SnowyBeach
    else if temperature > 0.75 then WarmBeach
    else BeachBiome
  }

  function DefaultRiver(temperature: real): (b: Biome)
    ensures b == FrozenRiver <==> temperature < 0.15
    ensures b == RiverBiome <==> temperature >= 0.15
  {
    if temperature < 0.15 then FrozenRiver else RiverBiome
  }

  function DefaultWetland(temperature: real): (b: Biome)
    ensures b == TaigaScrub <==> temperature < 0.15
    ensures b == Marshland <==> temperature >= 0.15
  {
    if temperature < 0.15 then TaigaScrub else Marshland
  }

  function DefaultOcean(temperature: real): (b: Biome)
    ensures b == FrozenOcean <==> temperature < 0.3
    ensures b == WarmOcean <==> temperature > 0.7
    ensures b == OceanBiome <==> 0.3 <= temperature <= 0.7
  {
    if temperature < 0.3 then FrozenOcean
    else if temperature > 0.7 then WarmOcean
    else OceanBiome
  }

  function DefaultDeepOcean(temperature: real): (b: Biome)
    ensures b == DeepFrozenOcean <==> temperature < 0.3
    ensures b == DeepWarmOcean <==> temperature > 0.7
    ensures b == DeepOcean <==> 0.3 <= temperature <= 0.7
  {
    if temperature < 0.3 then DeepFrozenOcean
    else if temperature > 0.7 then DeepWarmOcean
    else DeepOcean
  }

  /** `defaultBiome`, the land default. */
  function DefaultLand(temperature: real): (b: Biome)
    ensures b == TaigaScrub <==> temperature < 0.3
    ensures b == SavannaScrub <==> temperature > 0.7
    ensures b == PlainsBiome <==> 0.3 <= temperature <= 0.7
  {
    if temperature < 0.3 then TaigaScrub
    else if temperature > 0.7 then SavannaScrub
    else PlainsBiome
  }

  /** `def.getDefaultBiome(temp)` for the default bound to a table. */
  function DefaultBiome(kind: DefaultKind, temperature: real): Biome {
    match kind
    case LandDefault => DefaultLand(temperature)
    case BeachDefault => DefaultBeach(temperature)
    case RiverDefault => DefaultRiver(temperature)
    case WetlandDefault => DefaultWetland(temperature)
    case OceanDefault => DefaultOcean(temperature)
    case DeepOceanDefault => DefaultDeepOcean(temperature)
  }

  /** The beach default re-thresholds exactly as the bucketing does. */
  lemma DefaultBeachFollowsCategory(temperature: real)
    ensures DefaultBeach(temperature) == SnowyBeach <==> GetCategory(temperature) == Cold
    ensures DefaultBeach(temperature) == WarmBeach <==> GetCategory(temperature) == Warm
  {
  }

  /**
   * The river and wetland defaults use a colder cut-off (0.15) than the
   * buckets: a frozen default implies the COLD bucket but not conversely.
   */
  lemma RiverDefaultColderThanCategory(temperature: real)
    ensures DefaultRiver(temperature) == FrozenRiver ==> GetCategory(temperature) == Cold
    ensures DefaultWetland(temperature) == TaigaScrub ==> GetCategory(temperature) == Cold
    ensures GetCategory(0.2) == Cold && DefaultRiver(0.2) == RiverBiome
  {
  }

  /**
   * The ocean defaults use 0.3 / 0.7 while the buckets use 0.25 / 0.75: a
   * MEDIUM temperature can still default to a frozen or warm ocean.
   */
  lemma OceanDefaultCutoffsDiffer()
    ensures GetCategory(0.27) == Medium && DefaultOcean(0.27) == FrozenOcean
    ensures GetCategory(0.72) == Medium && DefaultDeepOcean(0.72) == DeepWarmOcean
  {
  }

  /** `NoiseUtil.round` for a non-negative argument: to nearest, halves up. */
  function Round(v: real): (i: int)
    requires v >= 0.0
    ensures i as real - 0.5 <= v < i as real + 0.5
    ensures i >= 0
  {
    (v + 0.5).Floor
  }

  lemma MulNonNegative(a: real, b: real)
    requires a >= 0.0 && b >= 0.0
    ensures a * b >= 0.0
  {
  }

  /** The nearest index `round((n - 1) * shape)` into a bucket of `n` entries. */
  function PickIndex(n: nat, shape: real): (i: nat)
    requires n >= 1
    requires 0.0 <= shape <= 1.0
    ensures i < n
  {
    var scaled := (n - 1) as real * shape;
    assert 0.0 <= scaled by {
      MulNonNegative((n - 1) as real, shape);
    }
    assert scaled <= (n - 1) as real by {
      MulNonNegative((n - 1) as real, 1.0 - shape);
    }
    Round(scaled)
  }

  /** A larger shape never selects an earlier entry. */
  lemma PickIndexMonotone(n: nat, s1: real, s2: real)
    requires n >= 1
    requires 0.0 <= s1 <= s2 <= 1.0
    ensures PickIndex(n, s1) <= PickIndex(n, s2)
  {
    assert (n - 1) as real * s1 <= (n - 1) as real * s2 by {
      MulNonNegative((n - 1) as real, s2 - s1);
    }
    var x, y := (n - 1) as real * s1 + 0.5, (n - 1) as real * s2 + 0.5;
    assert x.Floor as real <= x <= y < y.Floor as real + 1.0;
  }

  /** Shape 0 picks the first entry and shape 1 the last. */
  lemma PickIndexEnds(n: nat)
    requires n >= 1
    ensures PickIndex(n, 0.0) == 0
    ensures PickIndex(n, 1.0) == n - 1
  {
  }

  predicate NonEmpty(bucket: Bucket) {
    bucket.Some? && |bucket.value| > 0
  }

  /**
   * `get(group, ordinal, shape, temp, def)`: the default when the ordinal is
   * past the table or the bucket is null or empty, otherwise the bucket entry
   * at the nearest index.
   */
  function Get(group: seq<Bucket>, ordinal: nat, shape: real, temperature: real, def: DefaultKind): (b: Biome)
    requires 0.0 <= shape <= 1.0
    ensures ordinal >= |group| ==> b == DefaultBiome(def, temperature)
    ensures ordinal < |group| && !NonEmpty(group[ordinal]) ==> b == DefaultBiome(def, temperature)
    ensures ordinal < |group| && NonEmpty(group[ordinal]) ==>
      var biomes := group[ordinal].value;
      b in biomes && b == biomes[PickIndex(|biomes|, shape)]
  {
    if ordinal >= |group| then DefaultBiome(def, temperature)
    else
      var biomes := group[ordinal];
      if biomes.None? || |biomes.value| == 0 then DefaultBiome(def, temperature)
      else biomes.value[PickIndex(|biomes.value|, shape)]
  }

  /**
   * What a lookup into row `ordinal` of `group` yields: the row's entry at the
   * rounded index when the row exists and is non-empty, otherwise the default.
   */
  ghost predicate Picked(group: seq<Bucket>, ordinal: int, shape: real, temperature: real, def: DefaultKind, b: Biome)
    requires 0.0 <= shape <= 1.0
  {
    if 0 <= ordinal < |group| && NonEmpty(group[ordinal]) then
      b == group[ordinal].value[PickIndex(|group[ordinal].value|, shape)]
    else
      b == DefaultBiome(def, temperature)
  }

  /** `get(group, TemperatureGroup category, ...)`: the bucket at `category.ordinal() - 1`. */
  function GetByGroup(group: seq<Bucket>, category: TemperatureGroup, shape: real, temperature: real, def: DefaultKind): (b: Biome)
    requires category != OceanGroup
    requires 0.0 <= shape <= 1.0
    ensures var row := category.Ordinal() - 1;
      row < |group| && NonEmpty(group[row]) ==> b == group[row].value[PickIndex(|group[row].value|, shape)]
    ensures var row := category.Ordinal() - 1;
      !(row < |group| && NonEmpty(group[row])) ==> b == DefaultBiome(def, temperature)
  {
    Get(group, category.Ordinal() - 1, shape, temperature, def)
  }

  /** `get(group, BiomeType type, ...)`: the bucket at `type.ordinal()`. */
  function GetByType(group: seq<Bucket>, t: BiomeType, shape: real, temperature: real, def: DefaultKind): (b: Biome)
    requires 0.0 <= shape <= 1.0
    ensures t.Ordinal() < |group| && NonEmpty(group[t.Ordinal()]) ==>
      b == group[t.Ordinal()].value[PickIndex(|group[t.Ordinal()].value|, shape)]
    ensures !(t.Ordinal() < |group| && NonEmpty(group[t.Ordinal()])) ==> b == DefaultBiome(def, temperature)
  {
    Get(group, t.Ordinal(), shape, temperature, def)
  }

  /**
   * The result of a structural lookup: the rounded-index entry of the row the
   * temperature's group selects when that row is non-empty, otherwise the
   * table's default for the temperature.
   */
  ghost predicate LookupResult(group: seq<Bucket>, temperature: real, shape: real, def: DefaultKind, b: Biome)
    requires 0.0 <= shape <= 1.0
  {
    Picked(group, GetCategory(temperature).Ordinal() - 1, shape, temperature, def, b)
  }

  function GetBeach(m: BiomeMap, temperature: real, moisture: real, shape: real): (b: Biome)
    requires 0.0 <= shape <= 1.0
    ensures LookupResult(m.beach, temperature, shape, BeachDefault, b)
  {
    GetByGroup(m.beach, GetCategory(temperature), shape, temperature, BeachDefault)
  }

  function GetRiver(m: BiomeMap, temperature: real, moisture: real, shape: real): (b: Biome)
    requires 0.0 <= shape <= 1.0
    ensures LookupResult(m.river, temperature, shape, RiverDefault, b)
  {
    GetByGroup(m.river, GetCategory(temperature), shape, temperature, RiverDefault)
  }

  function GetWetland(m: BiomeMap, temperature: real, moisture: real, shape: real): (b: Biome)
    requires 0.0 <= shape <= 1.0
    ensures LookupResult(m.wetland, temperature, shape, WetlandDefault, b)
  {
    GetByGroup(m.wetland, GetCategory(temperature), shape, temperature, WetlandDefault)
  }

  function GetOcean(m: BiomeMap, temperature: real, moisture: real, shape: real): (b: Biome)
    requires 0.0 <= shape <= 1.0
    ensures LookupResult(m.ocean, temperature, shape, OceanDefault, b)
  {
    GetByGroup(m.ocean, GetCategory(temperature), shape, temperature, OceanDefault)
  }

  function GetDeepOcean(m: BiomeMap, temperature: real, moisture: real, shape: real): (b: Biome)
    requires 0.0 <= shape <= 1.0
    ensures LookupResult(m.deepOcean, temperature, shape, DeepOceanDefault, b)
  {
    GetByGroup(m.deepOcean, GetCategory(temperature), shape, temperature, DeepOceanDefault)
  }

  /** The structural lookups read the temperature and the shape, never the moisture. */
  lemma LookupsIgnoreMoisture(m: BiomeMap, temperature: real, m1: real, m2: real, shape: real)
    requires 0.0 <= shape <= 1.0
    ensures GetBeach(m, temperature, m1, shape) == GetBeach(m, temperature, m2, shape)
    ensures GetRiver(m, temperature, m1, shape) == GetRiver(m, temperature, m2, shape)
    ensures GetWetland(m, temperature, m1, shape) == GetWetland(m, temperature, m2, shape)
    ensures GetOcean(m, temperature, m1, shape) == GetOcean(m, temperature, m2, shape)
    ensures GetDeepOcean(m, temperature, m1, shape) == GetDeepOcean(m, temperature, m2, shape)
  {
  }

  /**
   * `Sets.newHashSet(table[temp.ordinal() - 1])`: `None` where Java throws,
   * i.e. for the OCEAN group (index -1), an index past the table or a null bucket.
   */
  function BucketSet(group: seq<Bucket>, temp: TemperatureGroup): (r: Option<set<Biome>>)
    ensures r.Some? <==> temp != OceanGroup && temp.Ordinal() - 1 < |group| && group[temp.Ordinal() - 1].Some?
    ensures r.Some? ==> forall b :: b in r.value <==> b in group[temp.Ordinal() - 1].value
  {
    if temp == OceanGroup || temp.Ordinal() - 1 >= |group| then None
    else
      match group[temp.Ordinal() - 1]
      case None => None
      case Some(biomes) => Some(set b | b in biomes)
  }

  function GetOceanBiomes(m: BiomeMap, temp: TemperatureGroup): (r: Option<set<Biome>>)
    ensures r == BucketSet(m.ocean, temp)
  {
    BucketSet(m.ocean, temp)
  }

  function GetDeepOceanBiomes(m: BiomeMap, temp: TemperatureGroup): (r: Option<set<Biome>>)
    ensures r == BucketSet(m.deepOcean, temp)
  {
    BucketSet(m.deepOcean, temp)
  }

  function GetRivers(m: BiomeMap, temp: TemperatureGroup): (r: Option<set<Biome>>)
    ensures r == BucketSet(m.river, temp)
  {
    BucketSet(m.river, temp)
  }

  /** One bucket's export: the ids of its distinct biomes, sorted; a null bucket gives no ids. */
  function SortedIds(reg: Registry, bucket: Bucket): seq<string> {
    match bucket
    case None => []
    case Some(biomes) => Sort(Map(b => BiomeHelper.GetId(reg, b), Dedup(biomes)))
  }

  /**
   * An exported bucket is sorted, has one id per distinct biome, holds exactly
   * the ids of the bucket's biomes, and is duplicate-free when the registry
   * gives those biomes distinct ids.
   */
  lemma SortedIdsSpec(reg: Registry, biomes: seq<Biome>)
    ensures var r := SortedIds(reg, Some(biomes));
      && Sorted(r)
      && |r| == |set b | b in biomes|
      && (forall id :: id in r <==> exists b :: b in biomes && BiomeHelper.GetId(reg, b) == id)
      && (BiomeHelper.UniqueIds(reg, set b | b in biomes) ==> Distinct(r))
  {
    var unique := Dedup(biomes);
    var ids := Map(b => BiomeHelper.GetId(reg, b), unique);
    var r := Sort(ids);
    assert r == SortedIds(reg, Some(biomes));
    DistinctCardinality(unique);
    assert (set b | b in unique) == (set b | b in biomes);
    assert |r| == |ids| by {
      assert |multiset(r)| == |multiset(ids)|;
    }
    forall id ensures id in r <==> exists b :: b in biomes && BiomeHelper.GetId(reg, b) == id {
      assert id in r <==> id in multiset(ids);
      if id in ids {
        var i :| 0 <= i < |ids| && ids[i] == id;
        assert unique[i] in biomes;
      }
      if exists b :: b in biomes && BiomeHelper.GetId(reg, b) == id {
        var b :| b in biomes && BiomeHelper.GetId(reg, b) == id;
        var i :| 0 <= i < |unique| && unique[i] == b;
        assert ids[i] == id;
      }
    }
    if BiomeHelper.UniqueIds(reg, set b | b in biomes) {
      assert Distinct(ids) by {
        forall i, j | 0 <= i < j < |ids| ensures ids[i] != ids[j] {
          BiomeHelper.GetIdInjective(reg, (set b | b in biomes), unique[i], unique[j]);
        }
      }
      DistinctPermutation(ids, r);
    }
  }

  /** Two unregistered biomes in one bucket export the id "unknown" twice. */
  lemma UnregisteredIdsRepeat(reg: Registry)
    requires reg.id(Other(1)).None? && reg.id(Other(2)).None?
    ensures SortedIds(reg, Some([Other(1), Other(2)])) == ["unknown", "unknown"]
  {
    var s := [Other(1), Other(2)];
    DedupPair(Other(1), Other(2));
    var ids := Map(b => BiomeHelper.GetId(reg, b), s);
    assert ids == ["unknown", "unknown"];
    SortRepeated("unknown");
  }

  /** Two different biomes are already duplicate-free. */
  lemma DedupPair(a: Biome, b: Biome)
    requires a != b
    ensures Dedup([a, b]) == [a, b]
  {
    assert [a, b][..1] == [a] && [a][..0] == [];
    assert Dedup([a]) == [a];
  }

  /** Sorting one id written twice leaves it as it is. */
  lemma SortRepeated(id: string)
    ensures Sort([id, id]) == [id, id]
  {
    LeReflexive(id);
    SortedUnique(Sort([id, id]), [id, id]);
  }

  /** A JSON object as its ordered key/value pairs. */
  type Groups = seq<(string, seq<string>)>

  /**
   * `collect`: one array per non-OCEAN temperature group, keyed by the
   * group's name; `None` when the table has fewer than three buckets (the
   * array access throws).
   */
  function Collect(reg: Registry, table: seq<Bucket>): (r: Option<Groups>)
    ensures r.Some? <==> |table| >= 3
    ensures r.Some? ==>
      && |r.value| == 3
      && (forall i :: 0 <= i < 3 ==> r.value[i].1 == SortedIds(reg, table[i]))
      && r.value[0].0 == "COLD" && r.value[1].0 == "MEDIUM" && r.value[2].0 == "WARM"
  {
    if |table| < 3 then None
    else Some([
      (Cold.Name(), SortedIds(reg, table[Cold.Ordinal() - 1])),
      (Medium.Name(), SortedIds(reg, table[Medium.Ordinal() - 1])),
      (Warm.Name(), SortedIds(reg, table[Warm.Ordinal() - 1]))
    ])
  }

  /** `toJson`: the five tables' exports under fixed keys, in this order. */
  function ToJson(reg: Registry, m: BiomeMap): (r: Option<seq<(string, Groups)>>)
    ensures r.Some? <==>
      |m.river| >= 3 && |m.wetland| >= 3 && |m.beach| >= 3 && |m.ocean| >= 3 && |m.deepOcean| >= 3
    ensures r.Some? ==>
      && |r.value| == 5
      && r.value[0].0 == "rivers" && r.value[1].0 == "wetland" && r.value[2].0 == "beaches"
      && r.value[3].0 == "oceans" && r.value[4].0 == "deepOceans"
      && Some(r.value[0].1) == Collect(reg, m.river)
      && Some(r.value[1].1) == Collect(reg, m.wetland)
      && Some(r.value[2].1) == Collect(reg, m.beach)
      && Some(r.value[3].1) == Collect(reg, m.ocean)
      && Some(r.value[4].1) == Collect(reg, m.deepOcean)
  {
    var rivers := Collect(reg, m.river);
    var wetland := Collect(reg, m.wetland);
    var beaches := Collect(reg, m.beach);
    var oceans := Collect(reg, m.ocean);
    var deepOceans := Collect(reg, m.deepOcean);
    if rivers.None? || wetland.None? || beaches.None? || oceans.None? || deepOceans.None? then None
    else Some([
      ("rivers", rivers.value),
      ("wetland", wetland.value),
      ("beaches", beaches.value),
      ("oceans", oceans.value),
      ("deepOceans", deepOceans.value)
    ])
  }
}
