/**
 * ChunkCarverFix: a read-only view of a chunk that presents every block in
 * a material category as that category's canonical block, so the game's
 * carvers recognise TerraForged's custom blocks.
 */
module CarverFix {
  import opened Minecraft

  /**
   * The category checks in order (air, grass, stone, earth, clay, sediment);
   * the first that holds decides, and a block in none is kept.
   */
  function Remap(mats: Materials, state: BlockState): (r: BlockState)
    ensures mats.isAir(state) ==> r == state
    ensures !mats.isAir(state) && mats.isGrass(state) ==> r == GrassBlock
    ensures !mats.isAir(state) && !mats.isGrass(state) && mats.isStone(state) ==> r == Stone
    ensures (!mats.isAir(state) && !mats.isGrass(state) && !mats.isStone(state)
             && (mats.isEarth(state) || mats.isClay(state))) ==> r == Dirt
    ensures (!mats.isAir(state) && !mats.isGrass(state) && !mats.isStone(state)
             && !mats.isEarth(state) && !mats.isClay(state) && mats.isSediment(state)) ==> r == Sand
    ensures (!mats.isAir(state) && !mats.isGrass(state) && !mats.isStone(state)
             && !mats.isEarth(state) && !mats.isClay(state) && !mats.isSediment(state)) ==> r == state
  {
    if mats.isAir(state) then state
    else if mats.isGrass(state) then GrassBlock
    else if mats.isStone(state) then Stone
    else if mats.isEarth(state) then Dirt
    else if mats.isClay(state) then Dirt
    else if mats.isSediment(state) then Sand
    else state
  }

  /** `getBlockState(pos)`: the delegate's block at `pos`, remapped; nothing is written. */
  function GetBlockState(mats: Materials, delegate: BlockPos -> BlockState, pos: BlockPos): (r: BlockState)
    ensures r == delegate(pos) || r == GrassBlock || r == Stone || r == Dirt || r == Sand
    ensures mats.isAir(delegate(pos)) ==> r == delegate(pos)
  {
    Remap(mats, delegate(pos))
  }

  /**
   * The canonical blocks belong to their own categories and to no earlier
   * one, as the game's material tables have it.
   */
  ghost predicate CanonicalBlocks(mats: Materials) {
    && !mats.isAir(GrassBlock) && mats.isGrass(GrassBlock)
    && !mats.isAir(Stone) && !mats.isGrass(Stone) && mats.isStone(Stone)
    && !mats.isAir(Dirt) && !mats.isGrass(Dirt) && !mats.isStone(Dirt) && mats.isEarth(Dirt)
    && !mats.isAir(Sand) && !mats.isGrass(Sand) && !mats.isStone(Sand) && !mats.isEarth(Sand)
    && !mats.isClay(Sand) && mats.isSediment(Sand)
  }

  /** With canonical blocks in their categories, reading through the fix twice changes nothing more. */
  lemma RemapIdempotent(mats: Materials, state: BlockState)
    requires CanonicalBlocks(mats)
    ensures Remap(mats, Remap(mats, state)) == Remap(mats, state)
  {
  }

  /** A block is changed only if it is in some category other than air, and then into that category's block. */
  lemma RemapChanges(mats: Materials, state: BlockState)
    requires Remap(mats, state) != state
    ensures !mats.isAir(state)
    ensures mats.isGrass(state) || mats.isStone(state) || mats.isEarth(state) || mats.isClay(state) || mats.isSediment(state)
    ensures Remap(mats, state) in {GrassBlock, Stone, Dirt, Sand}
  {
  }

  /** Earth and clay both read as dirt. */
  lemma EarthAndClayReadAsDirt(mats: Materials, a: BlockState, b: BlockState)
    requires !mats.isAir(a) && !mats.isGrass(a) && !mats.isStone(a) && mats.isEarth(a)
    requires !mats.isAir(b) && !mats.isGrass(b) && !mats.isStone(b) && !mats.isEarth(b) && mats.isClay(b)
    ensures Remap(mats, a) == Remap(mats, b) == Dirt
  {
  }
}
