/**
 * Search: a square spiral walk around a centre, testing positions on a grid
 * of `spacing` blocks, bounded by a maximum radius and by a deadline; the
 * first accepted position is returned, `BlockPos.ORIGIN` when there is none.
 */
module SpiralSearch {
  import opened Minecraft

  const MinRadius: int := 128
  const MaxRadius: int := 24000
  const DefaultSpacing: int := 16
  const Origin: BlockPos := BlockPos(0, 0, 0)

  /** Java's 32-bit `int` arithmetic: the value modulo 2^32 in [-2^31, 2^31). */
  function Wrap32(v: int): (r: int)
    ensures IsInt32(r)
    ensures IsInt32(v) ==> r == v
    ensures (r - v) % 0x1_0000_0000 == 0
  {
    (v + 0x8000_0000) % 0x1_0000_0000 - 0x8000_0000
  }

  predicate IsInt32(v: int) {
    -0x8000_0000 <= v < 0x8000_0000
  }

  /** The square of a radius up to 46340 fits in an `int`. */
  lemma SquareFitsInt32(m: int)
    ensures -46340 <= m <= 46340 ==> IsInt32(m * m)
  {
    if -46340 <= m <= 46340 {
      var a := if m < 0 then -m else m;
      assert m * m == a * a;
      MulMonotone(a, a, 46340);
      MulMonotone(46340, a, 46340);
    }
  }

  lemma MulMonotone(a: int, b: int, c: int)
    requires a >= 0 && b <= c
    ensures a * b <= a * c
  {
    assert a * c - a * b == a * (c - b);
  }

  /**
   * A search's fixed parameters; `spacing` is the value of the overridable
   * `getSpacing()`.
   */
  datatype Search = Search(center: BlockPos, minRadius: int, maxRadius: int, minRadius2: int, spacing: int)

  /**
   * The three-argument constructor with the subclass's spacing: the maximum
   * radius is capped at 24000, and the squared minimum radius is computed in
   * `int` before it is widened.
   */
  function Create(center: BlockPos, minRadius: int, maxRadius: int, spacing: int): (s: Search)
    requires IsInt32(minRadius) && IsInt32(maxRadius)
    ensures s.center == center && s.minRadius == minRadius && s.spacing == spacing
    ensures s.maxRadius <= MaxRadius
    ensures s.maxRadius == maxRadius || s.maxRadius == MaxRadius
    ensures maxRadius <= MaxRadius ==> s.maxRadius == maxRadius
    ensures IsInt32(s.minRadius2) && (s.minRadius2 - minRadius * minRadius) % 0x1_0000_0000 == 0
    ensures -46340 <= minRadius <= 46340 ==> s.minRadius2 == minRadius * minRadius
  {
    SquareFitsInt32(minRadius);
    Search(center, minRadius, if maxRadius < MaxRadius then maxRadius else MaxRadius,
           Wrap32(minRadius * minRadius), spacing)
  }

  /** `new Search(center)`: minimum radius 128, maximum 24000, spacing 16. */
  function CreateDefault(center: BlockPos): (s: Search)
    ensures s.minRadius == MinRadius && s.maxRadius == MaxRadius && s.spacing == DefaultSpacing
    ensures s.minRadius2 == MinRadius * MinRadius
  {
    Create(center, MinRadius, MaxRadius, DefaultSpacing)
  }

  /**
   * A minimum radius beyond 46340 overflows `minRadius * minRadius`; at
   * 46341 the square wraps to a negative bound that every position meets.
   */
  lemma MinRadiusSquareWraps(center: BlockPos)
    ensures Create(center, 46341, MaxRadius, DefaultSpacing).minRadius2 < 0
  {
  }

  /** The walk state: grid offset `(x, z)` and heading `(dx, dz)`. */
  datatype Walk = Walk(x: int, z: int, dx: int, dz: int)

  /** The walk starts at the centre heading `(0, -1)`. */
  const Start: Walk := Walk(0, 0, 0, -1)

  /** The corners of the spiral, where the heading turns. */
  predicate Turns(w: Walk) {
    w.x == w.z || (w.x < 0 && w.x == -w.z) || (w.x > 0 && w.x == 1 - w.z)
  }

  /** One step: turn left at a corner, then advance one cell along the heading. */
  function Step(w: Walk): (r: Walk)
    ensures Turns(w) ==> r.dx == -w.dz && r.dz == w.dx
    ensures !Turns(w) ==> r.dx == w.dx && r.dz == w.dz
    ensures r.x == w.x + r.dx && r.z == w.z + r.dz
  {
    var (dx, dz) := if Turns(w) then (-w.dz, w.dx) else (w.dx, w.dz);
    Walk(w.x + dx, w.z + dz, dx, dz)
  }

  /** The walk after `n` steps. */
  function WalkAt(n: nat): Walk {
    if n == 0 then Start else Step(WalkAt(n - 1))
  }

  predicate UnitHeading(w: Walk) {
    (w.dx == 0 && (w.dz == 1 || w.dz == -1)) || (w.dz == 0 && (w.dx == 1 || w.dx == -1))
  }

  /** The heading is always one of the four unit directions, so the walk moves one cell per step. */
  lemma {:induction false} WalkAtUnitHeading(n: nat)
    ensures UnitHeading(WalkAt(n))
  {
    if n > 0 {
      WalkAtUnitHeading(n - 1);
    }
  }

  /** The block position tested for a grid offset: `spacing` apart, at the centre's height. */
  function Candidate(s: Search, w: Walk): (p: BlockPos)
    ensures p.y == s.center.y
    ensures p.x - s.center.x == w.x * s.spacing && p.z - s.center.z == w.z * s.spacing
  {
    BlockPos(s.center.x + w.x * s.spacing, s.center.y, s.center.z + w.z * s.spacing)
  }

  /**
   * Four times `center.getSquaredDistance(pos)`. Minecraft measures from the
   * middle of the centre block, half a block along every axis, so four times
   * the distance is a sum of three odd squares and exact in integers.
   */
  function SquaredDistance4(center: BlockPos, pos: BlockPos): (d: int)
    ensures d >= 3
  {
    OddSquarePositive(center.x - pos.x);
    OddSquarePositive(center.y - pos.y);
    OddSquarePositive(center.z - pos.z);
    (2 * (center.x - pos.x) + 1) * (2 * (center.x - pos.x) + 1)
    + (2 * (center.y - pos.y) + 1) * (2 * (center.y - pos.y) + 1)
    + (2 * (center.z - pos.z) + 1) * (2 * (center.z - pos.z) + 1)
  }

  lemma OddSquarePositive(k: int)
    ensures (2 * k + 1) * (2 * k + 1) >= 1
  {
    if k < 0 {
      MulMonotone(-(2 * k + 1), 1, -(2 * k + 1));
    } else {
      MulMonotone(2 * k + 1, 1, 2 * k + 1);
    }
  }

  /**
   * The half-block offset decides the boundary: ten cells east and eight
   * south of the centre at spacing 10 lie 100 and 80 blocks away, 16400 in
   * whole blocks, yet 16220.75 from the middle of the centre block, short of
   * the biome search's 128².
   */
  lemma CentreOffsetDecides(center: BlockPos)
    ensures var pos := BlockPos(center.x + 100, center.y, center.z + 80);
      100 * 100 + 80 * 80 >= 128 * 128 && SquaredDistance4(center, pos) == 4 * 16220 + 3
      && SquaredDistance4(center, pos) < 4 * (128 * 128)
  {
  }

  /** Whether a position lies at least the minimum radius from the centre. */
  predicate FarEnough(s: Search, pos: BlockPos) {
    SquaredDistance4(s.center, pos) >= 4 * s.minRadius2
  }

  predicate InRange(w: Walk, radius: int) {
    -radius <= w.x <= radius && -radius <= w.z <= radius
  }

  /** Whether the walk state yields an accepted position. */
  predicate Accepts(s: Search, test: BlockPos -> bool, w: Walk) {
    InRange(w, s.maxRadius)
    && FarEnough(s, Candidate(s, w))
    && test(Candidate(s, w))
  }

  /** The number of iterations: `(2r + 1)^2`. */
  function Iterations(s: Search): (n: nat)
    ensures n == (2 * s.maxRadius + 1) * (2 * s.maxRadius + 1)
  {
    var size := 2 * s.maxRadius + 1;
    assert size * size >= 0;
    size * size
  }

  /**
   * The search from iteration `i` in walk state `w`: `ORIGIN` once the
   * iterations are used up or the clock is past the deadline, otherwise the
   * candidate if it is accepted, otherwise the search from the next state.
   * `timedOut(i)` is whether the clock reads past the deadline at iteration `i`.
   */
  function Find(s: Search, test: BlockPos -> bool, timedOut: nat -> bool, i: nat, w: Walk, max: nat): BlockPos
    decreases max - i
  {
    if i >= max || timedOut(i) then Origin
    else if Accepts(s, test, w) then Candidate(s, w)
    else Find(s, test, timedOut, i + 1, Step(w), max)
  }

  /**
   * A result other than `ORIGIN` is a position the test accepts, within the
   * square of the maximum radius, at least the minimum radius from the
   * centre, on the spacing grid and at the centre's height.
   */
  lemma {:induction false} FindSound(s: Search, test: BlockPos -> bool, timedOut: nat -> bool, i: nat, w: Walk, max: nat)
    requires Find(s, test, timedOut, i, w, max) != Origin
    ensures var p := Find(s, test, timedOut, i, w, max);
      && test(p)
      && FarEnough(s, p)
      && p.y == s.center.y
      && exists v :: InRange(v, s.maxRadius) && p == Candidate(s, v)
    decreases max - i
  {
    if !(i >= max || timedOut(i)) && !Accepts(s, test, w) {
      FindSound(s, test, timedOut, i + 1, Step(w), max);
    }
  }

  /** When the test accepts nothing, the search ends at `ORIGIN` whether it ran out of iterations or of time. */
  lemma {:induction false} FindNothingAccepted(s: Search, test: BlockPos -> bool, timedOut: nat -> bool, i: nat, w: Walk, max: nat)
    requires forall p :: !test(p)
    ensures Find(s, test, timedOut, i, w, max) == Origin
    decreases max - i
  {
    if !(i >= max || timedOut(i)) {
      FindNothingAccepted(s, test, timedOut, i + 1, Step(w), max);
    }
  }

  /**
   * Exhaustion and timeout cannot be told apart: with no deadline at all and
   * with a deadline already passed, a search that accepts nothing gives the
   * same answer.
   */
  lemma TimeoutLooksLikeExhaustion(s: Search, test: BlockPos -> bool, w: Walk, max: nat)
    requires forall p :: !test(p)
    ensures Find(s, test, _ => false, 0, w, max) == Find(s, test, _ => true, 0, w, max) == Origin
  {
    FindNothingAccepted(s, test, _ => false, 0, w, max);
  }

  /**
   * The first accepted state is the one returned: when the state after `k`
   * steps is accepted, no earlier one from step `i` on is, and the clock has
   * not expired by step `k`, the search from step `i` returns its candidate.
   */
  lemma {:induction false} FindFirstAccepted(s: Search, test: BlockPos -> bool, timedOut: nat -> bool, i: nat, k: nat, max: nat)
    requires i <= k < max
    requires forall j :: i <= j <= k ==> !timedOut(j)
    requires Accepts(s, test, WalkAt(k))
    requires forall j :: i <= j < k ==> !Accepts(s, test, WalkAt(j))
    ensures Find(s, test, timedOut, i, WalkAt(i), max) == Candidate(s, WalkAt(k))
    decreases k - i
  {
    if i < k {
      FindFirstAccepted(s, test, timedOut, i + 1, k, max);
    }
  }

  /**
   * A position that is there is found: when some state within the iterations
   * is accepted and the clock has not expired by then, the search returns the
   * candidate of an accepted state no later than it.
   */
  lemma {:induction false} FindPresent(s: Search, test: BlockPos -> bool, timedOut: nat -> bool, i: nat, k: nat, max: nat)
    requires i <= k < max
    requires forall j :: i <= j <= k ==> !timedOut(j)
    requires Accepts(s, test, WalkAt(k))
    ensures exists j ::
      && i <= j <= k && Accepts(s, test, WalkAt(j))
      && Find(s, test, timedOut, i, WalkAt(i), max) == Candidate(s, WalkAt(j))
    decreases k - i
  {
    if !Accepts(s, test, WalkAt(i)) {
      FindPresent(s, test, timedOut, i + 1, k, max);
    } else {
      assert Find(s, test, timedOut, i, WalkAt(i), max) == Candidate(s, WalkAt(i));
    }
  }

  /** A position accepted at the very first state is found, unless the clock has already expired. */
  lemma FindFirst(s: Search, test: BlockPos -> bool, timedOut: nat -> bool, max: nat)
    requires max > 0 && !timedOut(0)
    requires Accepts(s, test, Start)
    ensures Find(s, test, timedOut, 0, Start, max) == Candidate(s, Start)
  {
    FindFirstAccepted(s, test, timedOut, 0, 0, max);
  }

  /** `get()`: walk the spiral for at most `(2r + 1)^2` iterations or until the deadline. */
  method Get(s: Search, test: BlockPos -> bool, timedOut: nat -> bool) returns (p: BlockPos)
    ensures p == Find(s, test, timedOut, 0, Start, Iterations(s))
  {
    var radius := s.maxRadius;
    var x, z, dx, dz := 0, 0, 0, -1;
    var size := radius + 1 + radius;
    var max := size * size;
    assert max == Iterations(s);
    var i := 0;
    while i < max
      invariant 0 <= i <= max
      invariant Find(s, test, timedOut, i, Walk(x, z, dx, dz), max) == Find(s, test, timedOut, 0, Start, max)
      decreases max - i
    {
      ghost var w := Walk(x, z, dx, dz);
      if timedOut(i) {
        break;
      }
      if -radius <= x && x <= radius && -radius <= z && z <= radius {
        var pos := BlockPos(s.center.x + x * s.spacing, s.center.y, s.center.z + z * s.spacing);
        assert pos == Candidate(s, w);
        if SquaredDistance4(s.center, pos) >= 4 * s.minRadius2 {
          if test(pos) {
            return pos;
          }
        }
      }
      if x == z || (x < 0 && x == -z) || (x > 0 && x == 1 - z) {
        var turned := dx;
        dx := -dz;
        dz := turned;
      }
      x := x + dx;
      z := z + dz;
      assert Walk(x, z, dx, dz) == Step(w);
      i := i + 1;
    }
    return Origin;
  }
}

/** `BiomeSearchTask`: the biome the world has stored at a position's quarter resolution. */
module BiomeSearch {
  import opened Minecraft
  import opened SpiralSearch

  const Spacing: int := 10

  /** `new BiomeSearchTask(center, ...)`: minimum radius 128, the default maximum, spacing 10. */
  function Create(center: BlockPos): (s: Search)
    ensures s.minRadius == 128 && s.maxRadius == MaxRadius && s.spacing == Spacing
    ensures s.minRadius2 == 128 * 128
  {
    SpiralSearch.Create(center, 128, MaxRadius, Spacing)
  }

  /** `v >> 2`: division by 4 rounding toward negative infinity. */
  function Shr2(v: int): (r: int)
    ensures 4 * r <= v < 4 * r + 4
  {
    v / 4
  }

  /** Negative coordinates round down, not toward zero. */
  lemma Shr2Negative()
    ensures Shr2(-1) == -1 && Shr2(-4) == -1 && Shr2(-5) == -2 && Shr2(3) == 0
  {
  }

  /** `test(pos)`: the stored biome at `(x >> 2, y, z >> 2)` is the target. */
  predicate Test(storedBiome: (int, int, int) -> Biome, target: Biome, pos: BlockPos) {
    storedBiome(Shr2(pos.x), pos.y, Shr2(pos.z)) == target
  }

  /** The 4×4 columns of a quarter cell share one stored biome at each height, so they test alike. */
  lemma TestQuarterCell(storedBiome: (int, int, int) -> Biome, target: Biome, a: BlockPos, b: BlockPos)
    requires a.y == b.y
    requires 4 * (a.x / 4) == 4 * (b.x / 4) && 4 * (a.z / 4) == 4 * (b.z / 4)
    ensures Test(storedBiome, target, a) == Test(storedBiome, target, b)
  {
  }

  /** A biome search that finds something finds a position whose stored biome is the target. */
  lemma FoundHasBiome(center: BlockPos, storedBiome: (int, int, int) -> Biome, target: Biome, timedOut: nat -> bool)
    requires var s := Create(center);
      Find(s, p => Test(storedBiome, target, p), timedOut, 0, Start, Iterations(s)) != Origin
    ensures var s := Create(center);
      var p := Find(s, p => Test(storedBiome, target, p), timedOut, 0, Start, Iterations(s));
      storedBiome(Shr2(p.x), p.y, Shr2(p.z)) == target && SquaredDistance4(center, p) >= 4 * (128 * 128)
  {
    var s := Create(center);
    FindSound(s, p => Test(storedBiome, target, p), timedOut, 0, Start, Iterations(s));
  }
}

/** `TerrainSearchTask`: the terrain tag the height generator assigns to a position. */
module TerrainSearch {
  import opened Minecraft
  import opened SpiralSearch

  const Spacing: int := 20

  class TerrainSearchTask {
    const search: Search
    /** `generator.getHeightmap().apply(cell, x, z)`: the sample it writes into the cell. */
    const heightmap: (int, int) -> Cell
    const terrainType: Terrain
    /** The one cell every test reuses. */
    var cell: Cell

    /** Minimum radius 256, the default maximum, spacing 20, and a fresh cell. */
    constructor (center: BlockPos, heightmap: (int, int) -> Cell, terrainType: Terrain)
      ensures search == SpiralSearch.Create(center, 256, MaxRadius, Spacing)
      ensures search.minRadius2 == 256 * 256 && search.maxRadius == MaxRadius
      ensures this.heightmap == heightmap && this.terrainType == terrainType
      ensures cell == EmptyCell
    {
      search := SpiralSearch.Create(center, 256, MaxRadius, Spacing);
      this.heightmap := heightmap;
      this.terrainType := terrainType;
      cell := EmptyCell;
    }

    /** Whether the position's terrain tag is the one searched for. */
    predicate Matches(pos: BlockPos) {
      heightmap(pos.x, pos.z).tag == terrainType
    }

    /** `test(pos)`: resample the cell at `(x, z)`, then compare its tag; only the cell changes. */
    method Test(pos: BlockPos) returns (r: bool)
      modifies this`cell
      ensures cell == heightmap(pos.x, pos.z)
      ensures r == Matches(pos)
    {
      cell := heightmap(pos.x, pos.z);
      r := cell.tag == terrainType;
    }

    /** The search with this task's test; a position found has the searched terrain tag. */
    method Get(timedOut: nat -> bool) returns (p: BlockPos)
      ensures p == Find(search, pos => Matches(pos), timedOut, 0, Start, Iterations(search))
      ensures p != Origin ==> Matches(p) && SquaredDistance4(search.center, p) >= 4 * search.minRadius2
    {
      p := SpiralSearch.Get(search, pos => Matches(pos), timedOut);
      if p != Origin {
        FindSound(search, pos => Matches(pos), timedOut, 0, Start, Iterations(search));
      }
    }
  }
}
