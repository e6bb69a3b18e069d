/**
  The chunk store, reduced to what the structure relies on: a fixed-size
  cube of block ids addressed by local coordinates, where a cell that holds
  no entry is air. The per-block damage overlay is not modelled.
 */
module Chunks {

  /** A numeric block id (u16). */
  type BlockId = x: int | 0 <= x < 0x1_0000

  /** The id of the air block. */
  const AIR_BLOCK_ID: BlockId := 0

  /** The edge length of a chunk, in blocks. */
  const CHUNK_DIMENSIONS: nat := 32

  /** A coordinate inside one chunk. */
  datatype LocalCoord = LocalCoord(x: nat, y: nat, z: nat)

  predicate InChunk(l: LocalCoord) {
    l.x < CHUNK_DIMENSIONS && l.y < CHUNK_DIMENSIONS && l.z < CHUNK_DIMENSIONS
  }

  /**
    A chunk knows its own chunk coordinates in its structure and the ids of
    its cells. Only in-chunk coordinates are ever stored (`Valid`).
   */
  datatype Chunk = Chunk(structureX: nat, structureY: nat, structureZ: nat,
                         blocks: map<LocalCoord, BlockId>)
  {
    ghost predicate Valid() {
      forall l | l in blocks :: InChunk(l)
    }

    /** The id at a local coordinate; out-of-range coordinates are a caller bug. */
    function BlockAt(l: LocalCoord): BlockId
      requires InChunk(l)
    {
      if l in blocks then blocks[l] else AIR_BLOCK_ID
    }

    /** Overwrites one cell and leaves every other cell as it was. */
    function SetBlockAt(l: LocalCoord, b: BlockId): (c: Chunk)
      requires InChunk(l)
      ensures c.BlockAt(l) == b
      ensures forall m | InChunk(m) && m != l :: c.BlockAt(m) == BlockAt(m)
      ensures Valid() ==> c.Valid()
      ensures (c.structureX, c.structureY, c.structureZ) == (structureX, structureY, structureZ)
    {
      this.(blocks := blocks[l := b])
    }

    /** True when no cell holds anything but air. */
    predicate IsEmpty() {
      forall l | l in blocks :: blocks[l] == AIR_BLOCK_ID
    }
  }

  /** A fresh, all-air chunk at the given chunk coordinates. */
  function NewChunk(cx: nat, cy: nat, cz: nat): (c: Chunk)
    ensures c.Valid() && c.IsEmpty()
    ensures forall l | InChunk(l) :: c.BlockAt(l) == AIR_BLOCK_ID
    ensures (c.structureX, c.structureY, c.structureZ) == (cx, cy, cz)
  {
    Chunk(cx, cy, cz, map[])
  }

  /** Emptiness means every in-chunk cell reads as air, and back. */
  lemma IsEmptyIffAllAir(c: Chunk)
    requires c.Valid()
    ensures c.IsEmpty() <==> forall l | InChunk(l) :: c.BlockAt(l) == AIR_BLOCK_ID
  {
    if !c.IsEmpty() {
      var l :| l in c.blocks && c.blocks[l] != AIR_BLOCK_ID;
      assert InChunk(l) && c.BlockAt(l) != AIR_BLOCK_ID;
    }
  }
}
