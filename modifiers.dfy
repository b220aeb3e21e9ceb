/**
 * Biome modifiers: a predicate-gated transform applied to the biome the
 * lookup produced, run in ascending priority order by the manager.
 */
module Modifiers {
  import opened Minecraft

  /** A `BiomeModifier`: its `priority()`, `test(biome)` and `modify(biome, cell, x, z)` (here `transform`). */
  datatype Modifier = Modifier(
    priority: int,
    test: Biome -> bool,
    transform: (Biome, Cell, int, int) -> Biome)

  predicate SortedByPriority(ms: seq<Modifier>) {
    forall i, j :: 0 <= i < j < |ms| ==> ms[i].priority <= ms[j].priority
  }

  /** One iteration of the manager's loop: replace the running biome when the modifier accepts it. */
  function Step(m: Modifier, b: Biome, cell: Cell, x: int, z: int): Biome {
    if m.test(b) then m.transform(b, cell, x, z) else b
  }

  /** The whole chain as a left fold over the list, first modifier first. */
  function Apply(ms: seq<Modifier>, b: Biome, cell: Cell, x: int, z: int): Biome
    decreases |ms|
  {
    if ms == [] then b else Apply(ms[1..], Step(ms[0], b, cell, x, z), cell, x, z)
  }

  /** Running two lists one after the other is running their concatenation. */
  lemma {:induction false} ApplyConcat(a: seq<Modifier>, c: seq<Modifier>, b: Biome, cell: Cell, x: int, z: int)
    ensures Apply(a + c, b, cell, x, z) == Apply(c, Apply(a, b, cell, x, z), cell, x, z)
    decreases |a|
  {
    if a == [] {
      assert a + c == c;
    } else {
      assert (a + c)[0] == a[0];
      assert (a + c)[1..] == a[1..] + c;
      ApplyConcat(a[1..], c, Step(a[0], b, cell, x, z), cell, x, z);
    }
  }

  /**
   * A modifier appended to the chain tests the output of all earlier ones,
   * not the original biome.
   */
  lemma TestSeesRunningBiome(ms: seq<Modifier>, m: Modifier, b: Biome, cell: Cell, x: int, z: int)
    ensures var before := Apply(ms, b, cell, x, z);
      Apply(ms + [m], b, cell, x, z) == (if m.test(before) then m.transform(before, cell, x, z) else before)
  {
    ApplyConcat(ms, [m], b, cell, x, z);
    assert [m][1..] == [];
  }

  /** When no modifier accepts the biome, the chain returns it unchanged. */
  lemma {:induction false} ApplyNoneAccepts(ms: seq<Modifier>, b: Biome, cell: Cell, x: int, z: int)
    requires forall i :: 0 <= i < |ms| ==> !ms[i].test(b)
    ensures Apply(ms, b, cell, x, z) == b
    decreases |ms|
  {
    if ms != [] {
      ApplyNoneAccepts(ms[1..], b, cell, x, z);
    }
  }

  /** The position a stable sort gives a new element of priority `p`: after every element not above it. */
  function UpperBound(ms: seq<Modifier>, p: int): (k: nat)
    ensures k <= |ms|
    ensures forall i :: 0 <= i < k ==> ms[i].priority <= p
    ensures k < |ms| ==> ms[k].priority > p
  {
    if ms == [] || ms[0].priority > p then 0 else 1 + UpperBound(ms[1..], p)
  }

  /** `ms` with `m` placed at its stable position. */
  function Inserted(ms: seq<Modifier>, m: Modifier): seq<Modifier> {
    var k := UpperBound(ms, m.priority);
    ms[..k] + [m] + ms[k..]
  }

  /**
   * Inserting into a sorted list keeps it sorted, keeps every previous
   * modifier in its relative order, and adds exactly the new one.
   */
  lemma InsertedSpec(ms: seq<Modifier>, m: Modifier)
    requires SortedByPriority(ms)
    ensures var r := Inserted(ms, m);
      && SortedByPriority(r)
      && |r| == |ms| + 1
      && (exists k :: 0 <= k <= |ms| && r[k] == m && r[..k] + r[k + 1..] == ms)
  {
    var k := UpperBound(ms, m.priority);
    var r := Inserted(ms, m);
    assert r[k] == m;
    assert r[..k] + r[k + 1..] == ms by {
      assert r[..k] == ms[..k];
      assert r[k + 1..] == ms[k..];
    }
    InsertedSorted(ms, m);
  }

  lemma InsertedSorted(ms: seq<Modifier>, m: Modifier)
    requires SortedByPriority(ms)
    ensures SortedByPriority(Inserted(ms, m))
  {
    var k := UpperBound(ms, m.priority);
    var r := Inserted(ms, m);
    forall i, j | 0 <= i < j < |r| ensures r[i].priority <= r[j].priority {
      var pi := if i < k then ms[i].priority else if i == k then m.priority else ms[i - 1].priority;
      var pj := if j < k then ms[j].priority else if j == k then m.priority else ms[j - 1].priority;
      assert r[i].priority == pi && r[j].priority == pj;
      if j > k {
        assert ms[k].priority <= ms[j - 1].priority;
      }
    }
  }

  /**
   * `Collections.sort` on a list ordered by `priority()`: a stable sort,
   * written as an insertion sort that puts each later element after the
   * earlier elements of equal priority.
   */
  function StableSort(ms: seq<Modifier>): (r: seq<Modifier>)
    ensures SortedByPriority(r)
    ensures |r| == |ms|
  {
    if ms == [] then []
    else
      var sorted := StableSort(ms[..|ms| - 1]);
      InsertedSpec(sorted, ms[|ms| - 1]);
      Inserted(sorted, ms[|ms| - 1])
  }

  /**
   * Where each element of `StableSort(ms)` came from: the result's `i`-th
   * element is `ms[SortOrigin(ms)[i]]`.
   */
  ghost function SortOrigin(ms: seq<Modifier>): (p: seq<int>)
    ensures |p| == |ms|
  {
    if ms == [] then []
    else
      var init := ms[..|ms| - 1];
      var q := SortOrigin(init);
      var k := UpperBound(StableSort(init), ms[|ms| - 1].priority);
      q[..k] + [|ms| - 1] + q[k..]
  }

  /** The origin map is a bijection onto the input's indices. */
  ghost predicate IsPermutationOf(r: seq<Modifier>, ms: seq<Modifier>, p: seq<int>) {
    && |p| == |r| == |ms|
    && (forall i :: 0 <= i < |p| ==> 0 <= p[i] < |ms| && r[i] == ms[p[i]])
    && (forall i, j :: 0 <= i < j < |p| ==> p[i] != p[j])
  }

  /** Modifiers of equal priority keep their input order. */
  ghost predicate KeepsTies(r: seq<Modifier>, p: seq<int>)
    requires |p| == |r|
  {
    forall i, j :: 0 <= i < j < |r| && r[i].priority == r[j].priority ==> p[i] < p[j]
  }

  /**
   * `Collections.sort` rearranges its input and is stable: the result is a
   * permutation of the input in which equal priorities keep their order.
   */
  lemma {:induction false} StableSortPermutes(ms: seq<Modifier>)
    ensures var r, p := StableSort(ms), SortOrigin(ms);
      IsPermutationOf(r, ms, p) && KeepsTies(r, p)
  {
    if ms != [] {
      var n := |ms|;
      var init := ms[..n - 1];
      var last := ms[n - 1];
      StableSortPermutes(init);
      var sorted := StableSort(init);
      var q := SortOrigin(init);
      assert forall i :: 0 <= i < |q| ==> sorted[i] == ms[q[i]];
      var k := UpperBound(sorted, last.priority);
      InsertedPositions(ms, sorted, q, k, StableSort(ms), SortOrigin(ms));
    }
  }

  /** The index bookkeeping of one insertion step of `StableSortPermutes`. */
  lemma InsertedPositions(ms: seq<Modifier>, sorted: seq<Modifier>, q: seq<int>, k: nat, r: seq<Modifier>, p: seq<int>)
    requires ms != []
    requires |q| == |sorted| && k <= |sorted|
    requires forall i :: 0 <= i < |q| ==> 0 <= q[i] < |ms| - 1 && sorted[i] == ms[q[i]]
    requires forall i, j :: 0 <= i < j < |q| ==> q[i] != q[j]
    requires KeepsTies(sorted, q)
    requires SortedByPriority(sorted)
    requires k < |sorted| ==> sorted[k].priority > ms[|ms| - 1].priority
    requires r == sorted[..k] + [ms[|ms| - 1]] + sorted[k..] && p == q[..k] + [|ms| - 1] + q[k..]
    ensures forall i :: 0 <= i < |p| ==> 0 <= p[i] < |ms| && r[i] == ms[p[i]]
    ensures forall i, j :: 0 <= i < j < |p| ==> p[i] != p[j]
    ensures KeepsTies(r, p)
  {
    forall i | 0 <= i < |p| ensures 0 <= p[i] < |ms| && r[i] == ms[p[i]] {
      if i < k {
        assert p[i] == q[i] && r[i] == sorted[i];
      } else if i > k {
        assert p[i] == q[i - 1] && r[i] == sorted[i - 1];
      }
    }
    forall i, j | 0 <= i < j < |p| ensures p[i] != p[j] && (r[i].priority == r[j].priority ==> p[i] < p[j]) {
      var si := if i < k then i else i - 1;
      var sj := if j < k then j else j - 1;
      if i != k && j != k {
        assert p[i] == q[si] && r[i] == sorted[si];
        assert p[j] == q[sj] && r[j] == sorted[sj];
      } else if i == k {
        assert p[j] == q[sj] && r[j] == sorted[sj] && k <= sj;
        assert sorted[k].priority <= sorted[sj].priority;
      } else {
        assert p[i] == q[si];
      }
    }
  }

  /** A list that is already sorted is left as it is: the sort is stable. */
  lemma {:induction false} StableSortSorted(ms: seq<Modifier>)
    requires SortedByPriority(ms)
    ensures StableSort(ms) == ms
  {
    if ms != [] {
      var init := ms[..|ms| - 1];
      var last := ms[|ms| - 1];
      StableSortSorted(init);
      var k := UpperBound(init, last.priority);
      assert forall i :: 0 <= i < |init| ==> init[i].priority <= last.priority;
      assert init[..k] + [last] + init[k..] == ms;
    }
  }

  /** Appending and re-sorting a sorted list places the new modifier at its stable position. */
  lemma RegisterIsStableSort(ms: seq<Modifier>, m: Modifier)
    requires SortedByPriority(ms)
    ensures StableSort(ms + [m]) == Inserted(ms, m)
  {
    assert (ms + [m])[..|ms|] == ms;
    StableSortSorted(ms);
  }

  /**
   * `BiomeModifierManager`: the sorted child list, itself a modifier of
   * priority -1 that accepts every biome.
   */
  class BiomeModifierManager {
    var modifiers: seq<Modifier>

    ghost predicate Valid()
      reads this
    {
      SortedByPriority(modifiers)
    }

    /** The beach, desert-colour and sand modifiers, sorted. */
    constructor (beach: Modifier, desertColor: Modifier, sand: Modifier)
      ensures modifiers == StableSort([beach, desertColor, sand])
      ensures Valid()
    {
      modifiers := StableSort([beach, desertColor, sand]);
    }

    /** `register`: append, then re-sort. */
    method Register(m: Modifier)
      requires Valid()
      modifies this
      ensures modifiers == StableSort(old(modifiers) + [m])
      ensures modifiers == Inserted(old(modifiers), m)
      ensures Valid()
    {
      var k := 0;
      while k < |modifiers| && modifiers[k].priority <= m.priority
        invariant k <= |modifiers|
        invariant forall i :: 0 <= i < k ==> modifiers[i].priority <= m.priority
      {
        k := k + 1;
      }
      assert k == UpperBound(modifiers, m.priority);
      RegisterIsStableSort(modifiers, m);
      InsertedSpec(modifiers, m);
      modifiers := modifiers[..k] + [m] + modifiers[k..];
    }

    function Priority(): (p: int)
      ensures p == -1
    {
      -1
    }

    predicate Test(b: Biome) {
      true
    }

    /** `modify`: run the children in order, each on the running biome. */
    method Modify(b0: Biome, cell: Cell, x: int, z: int) returns (b: Biome)
      ensures b == Apply(modifiers, b0, cell, x, z)
    {
      b := b0;
      for i := 0 to |modifiers|
        invariant Apply(modifiers[i..], b, cell, x, z) == Apply(modifiers, b0, cell, x, z)
      {
        assert modifiers[i..][1..] == modifiers[i + 1..];
        if modifiers[i].test(b) {
          b := modifiers[i].transform(b, cell, x, z);
        }
      }
    }

    /** The manager seen as a modifier itself. */
    function AsModifier(): (m: Modifier)
      reads this
      ensures m.priority == Priority()
      ensures forall b :: m.test(b)
      ensures forall b, cell, x, z :: m.transform(b, cell, x, z) == Apply(modifiers, b, cell, x, z)
    {
      var ms := modifiers;
      Modifier(Priority(), b => Test(b), (b, cell, x, z) => Apply(ms, b, cell, x, z))
    }
  }

  /**
   * Registered into another manager whose children all have non-negative
   * priorities, a manager goes first and applies its whole chain.
   */
  lemma ManagerRunsFirst(mgr: BiomeModifierManager, outer: seq<Modifier>, b: Biome, cell: Cell, x: int, z: int)
    requires SortedByPriority(outer)
    requires forall i :: 0 <= i < |outer| ==> outer[i].priority >= 0
    ensures Inserted(outer, mgr.AsModifier()) == [mgr.AsModifier()] + outer
    ensures Apply(Inserted(outer, mgr.AsModifier()), b, cell, x, z)
         == Apply(outer, Apply(mgr.modifiers, b, cell, x, z), cell, x, z)
  {
    var root := mgr.AsModifier();
    assert UpperBound(outer, root.priority) == 0;
    assert ([root] + outer)[1..] == outer;
  }

  /**
   * The default list: the beach modifier's priority is not part of this
   * model, so its place relative to desert colour (0) and sand (1) follows
   * from it, ties keeping the construction order.
   */
  lemma DefaultOrder(beach: Modifier, desertColor: Modifier, sand: Modifier)
    requires desertColor.priority == 0 && sand.priority == 1
    ensures beach.priority <= 0 ==> StableSort([beach, desertColor, sand]) == [beach, desertColor, sand]
    ensures 0 < beach.priority <= 1 ==> StableSort([beach, desertColor, sand]) == [desertColor, beach, sand]
    ensures 1 < beach.priority ==> StableSort([beach, desertColor, sand]) == [desertColor, sand, beach]
  {
    assert [beach, desertColor, sand][..2] == [beach, desertColor];
    assert [beach, desertColor][..1] == [beach];
    assert [beach][..0] == [];
    assert StableSort([beach]) == [beach];
    var two := StableSort([beach, desertColor]);
    assert two == Inserted([beach], desertColor);
    if beach.priority <= 0 {
      assert two == [beach, desertColor];
      assert UpperBound(two, 1) == 2;
    } else if beach.priority <= 1 {
      assert two == [desertColor, beach];
      assert UpperBound(two, 1) == 2;
    } else {
      assert two == [desertColor, beach];
      assert UpperBound(two, 1) == 1;
    }
  }

  /** Registering priorities 5, -2 and 0 in that order yields the order -2, 0, 5. */
  lemma RegisterOrderExample(a: Modifier, b: Modifier, c: Modifier)
    requires a.priority == 5 && b.priority == -2 && c.priority == 0
    ensures Inserted(Inserted(Inserted([], a), b), c) == [b, c, a]
  {
    assert Inserted([], a) == [a];
    assert UpperBound([a], b.priority) == 0;
    assert Inserted([a], b) == [b, a];
    assert UpperBound([b, a], c.priority) == 1;
  }
}

/** `DesertColorModifier`: swaps white and red deserts on the continentalness threshold. */
module DesertColor {
  import opened Minecraft
  import opened Modifiers

  /** The `DesertBiomes` queries the modifier uses (the class itself is not part of this model). */
  datatype DesertBiomes = DesertBiomes(
    isRedDesert: Biome -> bool,
    whiteDesert: BiomeType -> Biome,
    redDesert: BiomeType -> Biome)

  const Priority: int := 0

  /** `test`: exactly the DESERT-category biomes. */
  predicate Test(reg: Registry, b: Biome) {
    reg.category(b) == Category.Desert
  }

  /** `modify`: a red desert at `continent <= 0.5` turns white, a white one above it turns red. */
  function Modify(d: DesertBiomes, b: Biome, cell: Cell): (r: Biome)
    ensures d.isRedDesert(b) && cell.continent <= 0.5 ==> r == d.whiteDesert(cell.biome)
    ensures !d.isRedDesert(b) && cell.continent > 0.5 ==> r == d.redDesert(cell.biome)
    ensures d.isRedDesert(b) == (cell.continent > 0.5) ==> r == b
  {
    if d.isRedDesert(b) then
      if cell.continent <= 0.5 then d.whiteDesert(cell.biome) else b
    else if cell.continent > 0.5 then d.redDesert(cell.biome)
    else b
  }

  /** The white desert of every type is not red and the red one is. */
  ghost predicate Consistent(d: DesertBiomes) {
    forall t :: !d.isRedDesert(d.whiteDesert(t)) && d.isRedDesert(d.redDesert(t))
  }

  /** With consistent desert tables, the output's colour is decided by the continent alone. */
  lemma ModifyColourFollowsContinent(d: DesertBiomes, b: Biome, cell: Cell)
    requires Consistent(d)
    ensures d.isRedDesert(Modify(d, b, cell)) <==> cell.continent > 0.5
  {
  }

  /** With consistent desert tables, applying the modifier twice is applying it once. */
  lemma ModifyIdempotent(d: DesertBiomes, b: Biome, cell: Cell)
    requires Consistent(d)
    ensures Modify(d, Modify(d, b, cell), cell) == Modify(d, b, cell)
  {
  }

  /** A replacement depends on the cell's biome type only, not on which desert came in. */
  lemma ReplacementIgnoresInput(d: DesertBiomes, b1: Biome, b2: Biome, cell: Cell)
    requires d.isRedDesert(b1) == d.isRedDesert(b2)
    requires Modify(d, b1, cell) != b1 && Modify(d, b2, cell) != b2
    ensures Modify(d, b1, cell) == Modify(d, b2, cell)
  {
  }

  /** The boundary 0.5 itself belongs to the white side. */
  lemma ThresholdIsWhite(d: DesertBiomes, b: Biome, cell: Cell)
    requires d.isRedDesert(b) && cell.continent == 0.5
    ensures Modify(d, b, cell) == d.whiteDesert(cell.biome)
  {
  }

  function AsModifier(reg: Registry, d: DesertBiomes): (m: Modifier)
    ensures m.priority == Priority
    ensures forall b :: m.test(b) <==> Test(reg, b)
    ensures forall b, cell, x, z :: m.transform(b, cell, x, z) == Modify(d, b, cell)
  {
    Modifier(Priority, b => Test(reg, b), (b, cell, x, z) => Modify(d, b, cell))
  }
}

/** `SandBiomeModifier`: turns sand-topped biomes above a height limit into badlands. */
module Sand {
  import opened Minecraft
  import opened Modifiers
  import DesertColor

  const Priority: int := 1

  /** The sand set, fixed at construction: the registered biomes whose surface top block is sand. */
  function SandBiomes(reg: Registry, mats: Materials): (s: set<Biome>)
    ensures forall b :: b in s <==> b in reg.biomes && mats.isSand(reg.topBlock(b))
  {
    set b | b in reg.biomes && mats.isSand(reg.topBlock(b))
  }

  /** `test`: a DESERT-category biome or a member of the sand set. */
  predicate Test(reg: Registry, sand: set<Biome>, b: Biome) {
    reg.category(b) == Category.Desert || b in sand
  }

  /** `getModifiedBiome`: always BADLANDS. */
  function GetModifiedBiome(b: Biome, cell: Cell, x: int, z: int, ox: real, oz: real): (r: Biome) {
    Badlands
  }

  lemma GetModifiedBiomeConstant(b1: Biome, c1: Cell, x1: int, z1: int, ox1: real, oz1: real,
                                 b2: Biome, c2: Cell, x2: int, z2: int, ox2: real, oz2: real)
    ensures GetModifiedBiome(b1, c1, x1, z1, ox1, oz1) == GetModifiedBiome(b2, c2, x2, z2, ox2, oz2) == Badlands
  {
  }

  /**
   * The height gate of the inherited max-height behaviour: `Some((ox, oz))`
   * when the cell lies above the (perturbed) limit, with the offsets it
   * passes on, `None` otherwise.
   */
  type HeightGate = (Cell, int, int) -> Wrappers.Option<(real, real)>

  function Modify(gate: HeightGate, b: Biome, cell: Cell, x: int, z: int): (r: Biome)
    ensures r == b || r == Badlands
    ensures r == Badlands <==> gate(cell, x, z).Some? || b == Badlands
  {
    match gate(cell, x, z)
    case None => b
    case Some(offset) => GetModifiedBiome(b, cell, x, z, offset.0, offset.1)
  }

  function AsModifier(reg: Registry, mats: Materials, gate: HeightGate): (m: Modifier)
    ensures m.priority == Priority
    ensures forall b :: m.test(b) <==> Test(reg, SandBiomes(reg, mats), b)
    ensures forall b, cell, x, z :: m.transform(b, cell, x, z) == Modify(gate, b, cell, x, z)
  {
    var sand := SandBiomes(reg, mats);
    Modifier(Priority, b => Test(reg, sand, b), (b, cell, x, z) => Modify(gate, b, cell, x, z))
  }

  /**
   * Desert colour then sand: the sand modifier tests the recoloured desert,
   * so a desert above the height limit ends as BADLANDS whatever its colour,
   * and below it keeps the colour the first modifier chose.
   */
  lemma DesertChain(reg: Registry, mats: Materials, d: DesertColor.DesertBiomes, gate: HeightGate,
                    b: Biome, cell: Cell, x: int, z: int)
    requires DesertColor.Test(reg, b)
    requires forall t :: reg.category(d.whiteDesert(t)) == Category.Desert && reg.category(d.redDesert(t)) == Category.Desert
    ensures var chain := [DesertColor.AsModifier(reg, d), AsModifier(reg, mats, gate)];
      Apply(chain, b, cell, x, z)
        == (if gate(cell, x, z).Some? then Badlands else DesertColor.Modify(d, b, cell))
  {
    var first := DesertColor.AsModifier(reg, d);
    var second := AsModifier(reg, mats, gate);
    var recoloured := DesertColor.Modify(d, b, cell);
    assert Step(first, b, cell, x, z) == recoloured;
    assert reg.category(recoloured) == Category.Desert;
    assert Step(second, recoloured, cell, x, z) == Modify(gate, recoloured, cell, x, z);
    assert [first, second][1..] == [second];
    assert [second][1..] == [];
    assert Apply([second], recoloured, cell, x, z) == Apply([], Step(second, recoloured, cell, x, z), cell, x, z);
    assert Apply([first, second], b, cell, x, z) == Apply([second], recoloured, cell, x, z);
  }
}
