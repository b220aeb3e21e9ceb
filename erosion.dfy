/**
 * ErosionDecorator: per surface column, decides which material erosion
 * exposes (rock on steep or high ground, a ground material on moderately
 * steep ground) and writes it into the column, then scatters gravel scree.
 *
 * The decorator only touches the column at (x, z), so the chunk is modelled
 * by that column: an array of block states indexed by height, where reads
 * outside the array give air and writes outside it are dropped.
 */
module Erosion {
  import opened Minecraft

  const RockVar: int := 30
  const RockMin: int := 140
  const DirtVar: int := 40
  const DirtMin: int := 95

  const RockSteepness: real := 0.65
  const DirtSteepness: real := 0.475
  const ScreeSteepness: real := 0.4

  const HeightModifier: real := 6.0 / 255.0
  const SlopeModifier: real := 3.0 / 255.0

  const SedimentModifier: real := 256.0
  const SedimentNoise: real := 3.0 / 255.0
  const ScreeValue: real := 0.55

  /** The terrain tags the decorator skips. */
  datatype Terrains = Terrains(river: Terrain, riverBanks: Terrain, volcanoPipe: Terrain)

  /**
   * The decorator's fixed state: three seeds drawn at construction, the
   * lowest height it decorates (`levels.ground(4)`), the terrain tags and the
   * material tests. `getNoise` is `ColumnDecorator.getNoise(x, z, seed, var, min)`,
   * the noisy height threshold.
   */
  datatype ErosionDecorator = ErosionDecorator(
    seed1: int, seed2: int, seed3: int,
    minY: real,
    terrain: Terrains,
    materials: Materials,
    getNoise: (int, int, int, int, int) -> real)

  /**
   * What `decorate` reads from its `DecoratorContext`: the cell, the top and
   * under blocks of the biome's surface config, and the climate's random
   * field `getRand().getValue(x, z, seed)`.
   */
  datatype DecoratorContext = DecoratorContext(
    cell: Cell, top: BlockState, middle: BlockState,
    rand: (int, int, int) -> real)

  /** The public `erodeRock(x, z, steepness, height)`. */
  predicate ErodeRock(e: ErosionDecorator, x: int, z: int, steepness: real, height: real) {
    steepness > RockSteepness || height > e.getNoise(x, z, e.seed1, RockVar, RockMin)
  }

  /** The public `erodeDirt(x, z, steepness, height)`. */
  predicate ErodeDirt(e: ErosionDecorator, x: int, z: int, steepness: real, height: real) {
    steepness > DirtSteepness && height > e.getNoise(x, z, e.seed2, DirtVar, DirtMin)
  }

  /** The perturbed height `getMaterial` tests. */
  function Height(e: ErosionDecorator, ctx: DecoratorContext, x: int, z: int): real {
    ctx.cell.value + ctx.rand(x, z, e.seed1) * HeightModifier
  }

  /** The perturbed steepness `getMaterial` and `placeScree` test (the same seed in both). */
  function Steepness(e: ErosionDecorator, ctx: DecoratorContext, x: int, z: int): real {
    ctx.cell.steepness + ctx.rand(x, z, e.seed2) * SlopeModifier
  }

  /** `rock`: a ROCK-material state is kept, anything else becomes stone. */
  function Rock(mats: Materials, state: BlockState): (r: BlockState)
    ensures mats.material(state) == Material.Rock ==> r == state
    ensures mats.material(state) != Material.Rock ==> r == Stone
  {
    if mats.material(state) == Material.Rock then state else Stone
  }

  /** Provided stone itself is ROCK material, `rock` always yields ROCK material. */
  lemma RockIsRockMaterial(mats: Materials, state: BlockState)
    requires mats.material(Stone) == Material.Rock
    ensures mats.material(Rock(mats, state)) == Material.Rock
  {
  }

  /** `ground`: the eroded ground material for a top block. */
  function Ground(mats: Materials, state: BlockState): (r: BlockState)
    ensures mats.material(state) == Organic ==> r == Dirt
    ensures mats.material(state) == Material.Rock ==> r == Gravel
    ensures mats.material(state) == Earth ==> r == state
    ensures mats.material(state) == SandMaterial && state == Sand ==> r == Sandstone
    ensures mats.material(state) == SandMaterial && state == RedSand ==> r == RedSandstone
    ensures mats.material(state) == SandMaterial && state != Sand && state != RedSand ==> r == CoarseDirt
    ensures mats.material(state).OtherMaterial? ==> r == CoarseDirt
  {
    var material := mats.material(state);
    if material == Organic then Dirt
    else if material == Material.Rock then Gravel
    else if material == Earth then state
    else if material == SandMaterial && state == Sand then Sandstone
    else if material == SandMaterial && state == RedSand then RedSandstone
    else CoarseDirt
  }

  /**
   * `getMaterial`: rock when steep or high, else ground when moderately steep
   * and high enough, else the top block; the conditions are exactly the
   * public `erodeRock` and `erodeDirt` at the perturbed steepness and height,
   * and the rock condition wins when both hold.
   */
  function GetMaterial(e: ErosionDecorator, ctx: DecoratorContext, x: int, z: int): (r: BlockState)
    ensures var s, h := Steepness(e, ctx, x, z), Height(e, ctx, x, z);
      && (ErodeRock(e, x, z, s, h) ==> r == Rock(e.materials, ctx.middle))
      && (!ErodeRock(e, x, z, s, h) && ErodeDirt(e, x, z, s, h) ==> r == Ground(e.materials, ctx.top))
      && (!ErodeRock(e, x, z, s, h) && !ErodeDirt(e, x, z, s, h) ==> r == ctx.top)
  {
    var height := ctx.cell.value + ctx.rand(x, z, e.seed1) * (6.0 / 255.0);
    var steepness := ctx.cell.steepness + ctx.rand(x, z, e.seed2) * (3.0 / 255.0);
    if steepness > 0.65 || height > e.getNoise(x, z, e.seed1, 30, 140) then
      Rock(e.materials, ctx.middle)
    else if steepness > 0.475 && height > e.getNoise(x, z, e.seed2, 40, 95) then
      Ground(e.materials, ctx.top)
    else
      ctx.top
  }

  /** `s` with layers `lo` to `hi` (inclusive) set to `b`; layers outside `s` are dropped. */
  function Fill(s: seq<BlockState>, lo: int, hi: int, b: BlockState): (r: seq<BlockState>)
    ensures |r| == |s|
    ensures forall i :: 0 <= i < |s| ==> r[i] == (if lo <= i <= hi then b else s[i])
  {
    seq(|s|, i requires 0 <= i < |s| => if lo <= i <= hi then b else s[i])
  }

  /** Setting one more layer below a filled range extends the range. */
  lemma FillExtendDown(s: seq<BlockState>, lo: int, hi: int, b: BlockState)
    requires lo <= hi + 1
    ensures Fill(Fill(s, lo, hi, b), lo - 1, lo - 1, b) == Fill(s, lo - 1, hi, b)
  {
    var extended, filled := Fill(Fill(s, lo, hi, b), lo - 1, lo - 1, b), Fill(s, lo - 1, hi, b);
    assert forall i :: 0 <= i < |s| ==> extended[i] == filled[i];
  }

  /** `chunk.setBlockState` at height `y` of the column. */
  method SetBlock(column: array<BlockState>, y: int, b: BlockState)
    modifies column
    ensures column[..] == Fill(old(column[..]), y, y, b)
  {
    if 0 <= y < column.Length {
      column[y] := b;
    }
    assert forall i :: 0 <= i < column.Length ==> column[..][i] == Fill(old(column[..]), y, y, b)[i];
  }

  /** `fillDown(from, to, state)`: layers `from` down to `to + 1`. */
  method FillDown(column: array<BlockState>, from: int, to: int, b: BlockState)
    modifies column
    ensures column[..] == Fill(old(column[..]), to + 1, from, b)
  {
    ghost var s0 := column[..];
    assert Fill(s0, from + 1, from, b) == s0;
    var y := from;
    while y > to
      invariant y <= from
      invariant y >= to || y == from
      invariant column[..] == Fill(s0, y + 1, from, b)
    {
      SetBlock(column, y, b);
      FillExtendDown(s0, y + 1, from, b);
      y := y - 1;
    }
    if y != to {
      ghost var done, target := Fill(s0, y + 1, from, b), Fill(s0, to + 1, from, b);
      assert forall i :: 0 <= i < |s0| ==> done[i] == target[i];
    }
  }

  /** Whether the column at `y - dy` holds stone. */
  predicate StoneAt(mats: Materials, s: seq<BlockState>, y: int, dy: int) {
    mats.isStone(BlockAt(s, y - dy))
  }

  /**
   * The scan of `erodeRock` from `dy` on: the depth reaching the first stone
   * at or below `y - dy` (above `y - 32`) and that stone, or depth 32 and
   * gravel when there is none.
   */
  function FindRock(mats: Materials, s: seq<BlockState>, y: int, dy: int): (r: (int, BlockState))
    requires 3 <= dy <= 32
    ensures dy + 1 <= r.0 <= 32 || (dy == 32 && r.0 == 32)
    ensures (r == (32, Gravel) && forall d :: dy <= d < 32 ==> !StoneAt(mats, s, y, d))
         || (StoneAt(mats, s, y, r.0 - 1) && r.1 == BlockAt(s, y - (r.0 - 1))
             && forall d :: dy <= d < r.0 - 1 ==> !StoneAt(mats, s, y, d))
    decreases 32 - dy
  {
    if dy == 32 then (32, Gravel)
    else if StoneAt(mats, s, y, dy) then (dy + 1, BlockAt(s, y - dy))
    else FindRock(mats, s, y, dy + 1)
  }

  /** The rock scan always settles on a depth from 4 to 32 layers. */
  lemma FindRockDepth(mats: Materials, s: seq<BlockState>, y: int)
    ensures 4 <= FindRock(mats, s, y, 3).0 <= 32
  {
  }

  /** The column after `erodeRock`: the found material from `y` down through the found depth. */
  function ErodeRockSpec(mats: Materials, s: seq<BlockState>, y: int): seq<BlockState> {
    var found := FindRock(mats, s, y, 3);
    Fill(s, y - found.0 + 1, y, found.1)
  }

  /** The first loop of `erodeRock`: look for the uppermost stone from three layers below `y`. */
  method ScanRock(mats: Materials, column: array<BlockState>, y: int) returns (depth: int, material: BlockState)
    ensures (depth, material) == FindRock(mats, column[..], y, 3)
  {
    depth := 32;
    material := Gravel;
    var dy := 3;
    while dy < 32
      invariant 3 <= dy <= 32
      invariant FindRock(mats, column[..], y, dy) == FindRock(mats, column[..], y, 3)
      invariant depth == 32 && material == Gravel
    {
      var state := if 0 <= y - dy < column.Length then column[y - dy] else Air;
      assert state == BlockAt(column[..], y - dy);
      if mats.isStone(state) {
        material := state;
        depth := dy + 1;
        break;
      }
      dy := dy + 1;
    }
  }

  /** The protected `erodeRock(context, chunk, x, y, z)`: scan for rock, then fill down to it. */
  method ErodeRockColumn(mats: Materials, column: array<BlockState>, y: int)
    modifies column
    ensures column[..] == ErodeRockSpec(mats, old(column[..]), y)
  {
    ghost var s0 := column[..];
    var depth, material := ScanRock(mats, column, y);
    assert Fill(s0, y + 1, y, material) == s0;
    for i := 0 to depth
      invariant column[..] == Fill(s0, y - i + 1, y, material)
    {
      SetBlock(column, y - i, material);
      FillExtendDown(s0, y - i + 1, y, material);
    }
  }

  /** The column after `placeScree`. */
  function ScreeSpec(e: ErosionDecorator, ctx: DecoratorContext, s: seq<BlockState>, x: int, y: int, z: int): seq<BlockState> {
    if Steepness(e, ctx, x, z) < ScreeSteepness then s
    else if ctx.cell.sediment * SedimentModifier + ctx.rand(x, z, e.seed3) * SedimentNoise > ScreeValue then
      Fill(s, y - 1, y, Gravel)
    else s
  }

  /** Scree writes nothing on gentle slopes, and otherwise at most gravel into the two top layers. */
  lemma ScreeSpecBounds(e: ErosionDecorator, ctx: DecoratorContext, s: seq<BlockState>, x: int, y: int, z: int)
    ensures Steepness(e, ctx, x, z) < 0.4 ==> ScreeSpec(e, ctx, s, x, y, z) == s
    ensures var r := ScreeSpec(e, ctx, s, x, y, z);
      |r| == |s| && forall i :: 0 <= i < |s| ==> r[i] == s[i] || (y - 1 <= i <= y && r[i] == Gravel)
  {
  }

  /** `placeScree`. */
  method PlaceScree(e: ErosionDecorator, ctx: DecoratorContext, column: array<BlockState>, x: int, y: int, z: int)
    modifies column
    ensures column[..] == ScreeSpec(e, ctx, old(column[..]), x, y, z)
  {
    var steepness := ctx.cell.steepness + ctx.rand(x, z, e.seed2) * SlopeModifier;
    if steepness < ScreeSteepness {
      return;
    }
    var sediment := ctx.cell.sediment * SedimentModifier;
    var noise := ctx.rand(x, z, e.seed3) * SedimentNoise;
    if sediment + noise > ScreeValue {
      FillDown(column, y, y - 2, Gravel);
    }
  }

  /** The early exits of `decorate`: too low, a river or river bank, or a volcano pipe. */
  predicate Skipped(e: ErosionDecorator, cell: Cell) {
    cell.value < e.minY || cell.tag == e.terrain.river || cell.tag == e.terrain.riverBanks
    || cell.tag == e.terrain.volcanoPipe
  }

  /** The height decorated: raised to the heightmap top when that lies more than one above `y`. */
  function SurfaceY(y: int, topY: int): (r: int)
    ensures r >= y && r >= topY - 1
    ensures r == y <==> topY - 1 <= y
    ensures r != y ==> r == topY
  {
    if topY - 1 > y then topY else y
  }

  /** The column after `decorate`. */
  function DecorateSpec(e: ErosionDecorator, ctx: DecoratorContext, s: seq<BlockState>, x: int, y: int, z: int, topY: int): seq<BlockState> {
    if Skipped(e, ctx.cell) || !e.materials.isErodible(ctx.top) then s
    else
      var surface := SurfaceY(y, topY);
      var material := GetMaterial(e, ctx, x, z);
      if material != ctx.top && e.materials.isStone(material) then ErodeRockSpec(e.materials, s, surface)
      else
        var filled := if material != ctx.top then Fill(s, surface - 3, surface, material) else s;
        ScreeSpec(e, ctx, filled, x, surface, z)
  }

  /**
   * `decorate(chunk, context, x, y, z)` on the column at (x, z); `topY` is
   * the chunk's WORLD_SURFACE_WG heightmap value there.
   */
  method Decorate(e: ErosionDecorator, ctx: DecoratorContext, column: array<BlockState>, x: int, y: int, z: int, topY: int)
    modifies column
    ensures column[..] == DecorateSpec(e, ctx, old(column[..]), x, y, z, topY)
  {
    if ctx.cell.value < e.minY || ctx.cell.tag == e.terrain.river || ctx.cell.tag == e.terrain.riverBanks {
      return;
    }
    if ctx.cell.tag == e.terrain.volcanoPipe {
      return;
    }
    var surface := y;
    if topY - 1 > surface {
      surface := topY;
    }
    var top := ctx.top;
    if e.materials.isErodible(top) {
      var material := GetMaterial(e, ctx, x, z);
      if material != top {
        if e.materials.isStone(material) {
          ErodeRockColumn(e.materials, column, surface);
          return;
        } else {
          FillDown(column, surface, surface - 4, material);
        }
      }
      PlaceScree(e, ctx, column, x, surface, z);
    }
  }

  /** Skipped cells and non-erodible top blocks leave the column as it was. */
  lemma DecorateSkips(e: ErosionDecorator, ctx: DecoratorContext, s: seq<BlockState>, x: int, y: int, z: int, topY: int)
    requires Skipped(e, ctx.cell) || !e.materials.isErodible(ctx.top)
    ensures DecorateSpec(e, ctx, s, x, y, z, topY) == s
  {
  }

  /**
   * When erosion exposes stone, exactly the layers from the surface down
   * through the found depth (4 to 32 of them) take the found material, and no
   * scree is placed.
   */
  lemma DecorateRock(e: ErosionDecorator, ctx: DecoratorContext, s: seq<BlockState>, x: int, y: int, z: int, topY: int)
    requires !Skipped(e, ctx.cell) && e.materials.isErodible(ctx.top)
    requires var m := GetMaterial(e, ctx, x, z); m != ctx.top && e.materials.isStone(m)
    ensures var surface, found := SurfaceY(y, topY), FindRock(e.materials, s, SurfaceY(y, topY), 3);
      var r := DecorateSpec(e, ctx, s, x, y, z, topY);
      && 4 <= found.0 <= 32
      && |r| == |s|
      && forall i :: 0 <= i < |s| ==>
           r[i] == (if surface - found.0 < i <= surface then found.1 else s[i])
  {
    FindRockDepth(e.materials, s, SurfaceY(y, topY));
  }

  /**
   * When erosion exposes a non-stone material, the four top layers take it
   * and scree may then turn the top two into gravel; nothing else changes.
   */
  lemma DecorateGround(e: ErosionDecorator, ctx: DecoratorContext, s: seq<BlockState>, x: int, y: int, z: int, topY: int)
    requires !Skipped(e, ctx.cell) && e.materials.isErodible(ctx.top)
    requires var m := GetMaterial(e, ctx, x, z); m != ctx.top && !e.materials.isStone(m)
    ensures var surface, m := SurfaceY(y, topY), GetMaterial(e, ctx, x, z);
      var r := DecorateSpec(e, ctx, s, x, y, z, topY);
      && |r| == |s|
      && (forall i :: 0 <= i < |s| && surface - 3 <= i <= surface - 2 ==> r[i] == m)
      && (forall i :: 0 <= i < |s| && surface - 1 <= i <= surface ==> r[i] == m || r[i] == Gravel)
      && (forall i :: 0 <= i < |s| && !(surface - 3 <= i <= surface) ==> r[i] == s[i])
  {
    var surface := SurfaceY(y, topY);
    var m := GetMaterial(e, ctx, x, z);
    ScreeSpecBounds(e, ctx, Fill(s, surface - 3, surface, m), x, surface, z);
  }
}
