/**
  The structure aggregate: a bounded box of chunks, stored sparsely by the
  flattened chunk coordinate, with the coordinate transforms between block
  space, chunk space and the centred continuous space, the block mutation
  API with its lazy-allocate / auto-unload policy, and the chunk <-> entity
  bookkeeping used by the chunk reconciler.
 */
module Structures {
  import opened Wrappers
  import opened Vectors
  import opened Ecs
  import opened Chunks

  /** A block coordinate in structure-relative block space. */
  datatype StructureBlock = StructureBlock(x: nat, y: nat, z: nat) {
    /** The chunk coordinate this block lies in: the chunk whose span of blocks holds it on every axis. */
    function ChunkCoords(): (r: ChunkCoord)
      ensures r.x * CHUNK_DIMENSIONS <= x < r.x * CHUNK_DIMENSIONS + CHUNK_DIMENSIONS
      ensures r.y * CHUNK_DIMENSIONS <= y < r.y * CHUNK_DIMENSIONS + CHUNK_DIMENSIONS
      ensures r.z * CHUNK_DIMENSIONS <= z < r.z * CHUNK_DIMENSIONS + CHUNK_DIMENSIONS
    {
      ChunkCoord(ChunkOf(x), ChunkOf(y), ChunkOf(z))
    }
  }

  /** A chunk coordinate in structure-relative chunk space. */
  datatype ChunkCoord = ChunkCoord(x: nat, y: nat, z: nat)

  /** Sent by `SetBlockAt` when a block changes and a writer was given. */
  datatype BlockChangedEvent = BlockChangedEvent(
    structureEntity: Entity, block: StructureBlock, oldBlock: BlockId, newBlock: BlockId)

  /** Sent by `BlockTakeDamage` when the chunk reports the block destroyed. */
  datatype BlockDestroyedEvent = BlockDestroyedEvent(structureEntity: Entity, block: StructureBlock)

  /** A chunk's contents changed and should be re-rendered or re-synced. */
  datatype ChunkSetEvent = ChunkSetEvent(structureEntity: Entity, x: nat, y: nat, z: nat)

  /** A chunk was filled out for the first time. */
  datatype ChunkInitEvent = ChunkInitEvent(structureEntity: Entity, x: nat, y: nat, z: nat)

  // ---------------------------------------------------------------------
  // Coordinate arithmetic
  // ---------------------------------------------------------------------

  /** The chunk index of a block index along one axis. */
  function ChunkOf(b: nat): nat {
    b / CHUNK_DIMENSIONS
  }

  /** The in-chunk index of a block index along one axis. */
  function LocalOf(b: nat): (l: nat)
    ensures l < CHUNK_DIMENSIONS
  {
    b % CHUNK_DIMENSIONS
  }

  function LocalCoordOf(x: nat, y: nat, z: nat): (l: LocalCoord)
    ensures InChunk(l)
  {
    LocalCoord(LocalOf(x), LocalOf(y), LocalOf(z))
  }

  /** Block index decomposes into chunk index and in-chunk index, and back. */
  lemma DecomposeRoundTrip(b: nat)
    ensures ChunkOf(b) * CHUNK_DIMENSIONS + LocalOf(b) == b
    ensures LocalOf(b) < CHUNK_DIMENSIONS
  {
  }

  /** A block index lies below n chunks' worth of blocks exactly when its chunk index lies below n. */
  lemma BlockBoundIffChunkBound(b: nat, n: nat)
    ensures b < n * CHUNK_DIMENSIONS <==> ChunkOf(b) < n
  {
  }

  /** Two block indices with the same chunk index and in-chunk index are equal. */
  lemma DecomposeInjective(a: nat, b: nat)
    requires ChunkOf(a) == ChunkOf(b) && LocalOf(a) == LocalOf(b)
    ensures a == b
  {
    DecomposeRoundTrip(a);
    DecomposeRoundTrip(b);
  }

  /** The flattened index of a chunk coordinate in a box `width` by `height` chunks wide. */
  function Flatten(x: nat, y: nat, z: nat, width: nat, height: nat): nat {
    z * width * height + y * width + x
  }

  lemma MulMonotone(base: nat, m: int, n: int)
    requires m <= n
    ensures base * m <= base * n
  {
  }

  /** Mixed-radix digits are unique: a + base * b determines a < base and b. */
  lemma DigitsUnique(a1: nat, b1: int, a2: nat, b2: int, base: nat)
    requires a1 < base && a2 < base
    requires a1 + base * b1 == a2 + base * b2
    ensures a1 == a2 && b1 == b2
  {
    if b1 < b2 {
      MulMonotone(base, b1 + 1, b2);
    } else if b2 < b1 {
      MulMonotone(base, b2 + 1, b1);
    }
  }

  /** Flatten is injective on coordinates inside the box's width and height. */
  lemma {:induction false} FlattenInjective(x1: nat, y1: nat, z1: nat, x2: nat, y2: nat, z2: nat,
                                            width: nat, height: nat)
    requires x1 < width && x2 < width && y1 < height && y2 < height
    requires Flatten(x1, y1, z1, width, height) == Flatten(x2, y2, z2, width, height)
    ensures x1 == x2 && y1 == y2 && z1 == z2
  {
    assert Flatten(x1, y1, z1, width, height) == x1 + width * (y1 + height * z1);
    assert Flatten(x2, y2, z2, width, height) == x2 + width * (y2 + height * z2);
    DigitsUnique(x1, y1 + height * z1, x2, y2 + height * z2, width);
    DigitsUnique(y1, z1, y2, z2, height);
  }

  /** The flattened chunk index of the chunk holding block (x, y, z). */
  function ChunkIndex(x: nat, y: nat, z: nat, width: nat, height: nat): nat {
    Flatten(ChunkOf(x), ChunkOf(y), ChunkOf(z), width, height)
  }

  // ---------------------------------------------------------------------
  // The block contents of a chunk map, and the effect of one block write
  // ---------------------------------------------------------------------

  /** The block id at (x, y, z) of a chunk map; an absent chunk reads as air. */
  function BlockIdIn(chunks: map<nat, Chunk>, width: nat, height: nat, x: nat, y: nat, z: nat): BlockId {
    var i := ChunkIndex(x, y, z, width, height);
    if i in chunks then chunks[i].BlockAt(LocalCoordOf(x, y, z)) else AIR_BLOCK_ID
  }

  /** Every stored chunk holds at least one non-air block. */
  predicate AllNonEmpty(chunks: map<nat, Chunk>) {
    forall i | i in chunks :: !chunks[i].IsEmpty()
  }

  /** Every stored chunk is a well-formed chunk. */
  ghost predicate AllValid(chunks: map<nat, Chunk>) {
    forall i | i in chunks :: chunks[i].Valid()
  }

  /**
    The chunk map after writing block b at (x, y, z): nothing happens when
    the block is already b; otherwise an existing chunk is written through
    and dropped if that leaves it all air, and a missing chunk is created
    for a non-air block only.
   */
  function SetBlockIn(chunks: map<nat, Chunk>, width: nat, height: nat,
                      x: nat, y: nat, z: nat, b: BlockId): map<nat, Chunk>
  {
    var i := ChunkIndex(x, y, z, width, height);
    var l := LocalCoordOf(x, y, z);
    if BlockIdIn(chunks, width, height, x, y, z) == b then chunks
    else if i in chunks then
      var c := chunks[i].SetBlockAt(l, b);
      if c.IsEmpty() then chunks - {i} else chunks[i := c]
    else if b != AIR_BLOCK_ID then
      chunks[i := NewChunk(ChunkOf(x), ChunkOf(y), ChunkOf(z)).SetBlockAt(l, b)]
    else chunks
  }

  /** After writing b at (x, y, z), (x, y, z) reads b. */
  lemma SetBlockInThenRead(chunks: map<nat, Chunk>, width: nat, height: nat,
                           x: nat, y: nat, z: nat, b: BlockId)
    ensures BlockIdIn(SetBlockIn(chunks, width, height, x, y, z, b), width, height, x, y, z) == b
  {
    var i := ChunkIndex(x, y, z, width, height);
    var l := LocalCoordOf(x, y, z);
    if BlockIdIn(chunks, width, height, x, y, z) != b && i in chunks {
      var c := chunks[i].SetBlockAt(l, b);
      if c.IsEmpty() {
        assert l in c.blocks && c.blocks[l] == b;
      }
    }
  }

  /** Writing (x, y, z) leaves every other in-bounds block as it was. */
  lemma SetBlockInFrame(chunks: map<nat, Chunk>, width: nat, height: nat,
                        x: nat, y: nat, z: nat, b: BlockId, px: nat, py: nat, pz: nat)
    requires ChunkOf(x) < width && ChunkOf(y) < height
    requires ChunkOf(px) < width && ChunkOf(py) < height
    requires (px, py, pz) != (x, y, z)
    ensures BlockIdIn(SetBlockIn(chunks, width, height, x, y, z, b), width, height, px, py, pz)
         == BlockIdIn(chunks, width, height, px, py, pz)
  {
    var i := ChunkIndex(x, y, z, width, height);
    var j := ChunkIndex(px, py, pz, width, height);
    var l := LocalCoordOf(x, y, z);
    var lp := LocalCoordOf(px, py, pz);
    if i == j {
      FlattenInjective(ChunkOf(x), ChunkOf(y), ChunkOf(z), ChunkOf(px), ChunkOf(py), ChunkOf(pz), width, height);
      if l == lp {
        DecomposeInjective(x, px);
        DecomposeInjective(y, py);
        DecomposeInjective(z, pz);
      }
      assert l != lp;
      if BlockIdIn(chunks, width, height, x, y, z) != b && i in chunks {
        var c := chunks[i].SetBlockAt(l, b);
        assert c.BlockAt(lp) == chunks[i].BlockAt(lp);
        if c.IsEmpty() {
          assert c.BlockAt(lp) == AIR_BLOCK_ID;
        }
      }
    }
  }

  /** A write never leaves an all-air chunk behind in a map that had none. */
  lemma SetBlockInKeepsNonEmpty(chunks: map<nat, Chunk>, width: nat, height: nat,
                                x: nat, y: nat, z: nat, b: BlockId)
    requires AllNonEmpty(chunks)
    ensures AllNonEmpty(SetBlockIn(chunks, width, height, x, y, z, b))
  {
    var i := ChunkIndex(x, y, z, width, height);
    var l := LocalCoordOf(x, y, z);
    if BlockIdIn(chunks, width, height, x, y, z) != b && i !in chunks && b != AIR_BLOCK_ID {
      var c := NewChunk(ChunkOf(x), ChunkOf(y), ChunkOf(z)).SetBlockAt(l, b);
      assert l in c.blocks && c.blocks[l] != AIR_BLOCK_ID;
    }
  }

  /** A write keeps every stored chunk well-formed. */
  lemma SetBlockInKeepsValid(chunks: map<nat, Chunk>, width: nat, height: nat,
                             x: nat, y: nat, z: nat, b: BlockId)
    requires AllValid(chunks)
    ensures AllValid(SetBlockIn(chunks, width, height, x, y, z, b))
  {
  }

  /**
    Chunk allocation and release: only the addressed chunk can appear or
    disappear, every other chunk is untouched, a chunk appears only for a
    non-air block, writing air where no chunk is stored changes nothing, and
    a write that leaves the addressed chunk all air removes it.
   */
  lemma SetBlockInAllocation(chunks: map<nat, Chunk>, width: nat, height: nat,
                             x: nat, y: nat, z: nat, b: BlockId)
    requires AllNonEmpty(chunks)
    ensures var i := ChunkIndex(x, y, z, width, height);
            var after := SetBlockIn(chunks, width, height, x, y, z, b);
            && (forall j | j != i :: (j in after <==> j in chunks))
            && (forall j | j != i && j in after :: after[j] == chunks[j])
            && (i in after && i !in chunks ==> b != AIR_BLOCK_ID)
            && (i !in chunks && b == AIR_BLOCK_ID ==> after == chunks)
            && (i in chunks && chunks[i].SetBlockAt(LocalCoordOf(x, y, z), b).IsEmpty() ==> i !in after)
  {
    var i := ChunkIndex(x, y, z, width, height);
    var l := LocalCoordOf(x, y, z);
    if i in chunks && BlockIdIn(chunks, width, height, x, y, z) == b {
      var c := chunks[i].SetBlockAt(l, b);
      if c.IsEmpty() {
        forall m | m in chunks[i].blocks
          ensures chunks[i].blocks[m] == AIR_BLOCK_ID
        {
          assert m in c.blocks;
          if m == l {
            assert chunks[i].blocks[m] == chunks[i].BlockAt(l) == b;
          }
        }
        assert chunks[i].IsEmpty();
      }
    }
  }

  // ---------------------------------------------------------------------
  // The structure
  // ---------------------------------------------------------------------

  /** A structure: many blocks, grouped into chunks, with fixed dimensions in chunks. */
  class Structure {
    var chunkEntities: map<nat, Entity>
    var chunkEntityMap: map<Entity, nat>
    var selfEntity: Option<Entity>
    var chunks: map<nat, Chunk>
    /** The number of chunks in the x, y and z directions. */
    const width: nat
    const height: nat
    const length: nat

    /** A structure of the given size in chunks; every chunk starts unloaded. */
    constructor (width: nat, height: nat, length: nat)
      ensures this.width == width && this.height == height && this.length == length
      ensures chunks == map[] && chunkEntities == map[] && chunkEntityMap == map[]
      ensures selfEntity == None
      ensures AllNonEmpty(chunks) && AllValid(chunks)
    {
      this.width := width;
      this.height := height;
      this.length := length;
      chunkEntities := map[];
      chunkEntityMap := map[];
      selfEntity := None;
      chunks := map[];
    }

    /** The number of blocks in the x, y and z directions. */
    function BlocksWidth(): nat { width * CHUNK_DIMENSIONS }
    function BlocksHeight(): nat { height * CHUNK_DIMENSIONS }
    function BlocksLength(): nat { length * CHUNK_DIMENSIONS }

    predicate ChunkInBounds(cx: nat, cy: nat, cz: nat) {
      cx < width && cy < height && cz < length
    }

    /** True when the block coordinates lie inside the structure. */
    predicate IsWithinBlocks(x: nat, y: nat, z: nat) {
      x < BlocksWidth() && y < BlocksHeight() && z < BlocksLength()
    }

    /** A block is inside the structure exactly when its chunk is. */
    lemma WithinBlocksIffChunkInBounds(x: nat, y: nat, z: nat)
      ensures IsWithinBlocks(x, y, z) <==> ChunkInBounds(ChunkOf(x), ChunkOf(y), ChunkOf(z))
    {
      BlockBoundIffChunkBound(x, width);
      BlockBoundIffChunkBound(y, height);
      BlockBoundIffChunkBound(z, length);
    }

    /** The entity bound to a chunk; a chunk that was never bound has none. */
    function ChunkEntity(cx: nat, cy: nat, cz: nat): (r: Option<Entity>)
      reads this
      ensures r.Some? <==> Flatten(cx, cy, cz, width, height) in chunkEntities
      ensures r.Some? ==> r.value == chunkEntities[Flatten(cx, cy, cz, width, height)]
    {
      var i := Flatten(cx, cy, cz, width, height);
      if i in chunkEntities then Some(chunkEntities[i]) else None
    }

    /** Binds an entity to a chunk, in both directions of the bookkeeping. */
    method SetChunkEntity(cx: nat, cy: nat, cz: nat, entity: Entity)
      modifies this
      ensures chunkEntityMap == old(chunkEntityMap)[entity := Flatten(cx, cy, cz, width, height)]
      ensures chunkEntities == old(chunkEntities)[Flatten(cx, cy, cz, width, height) := entity]
      ensures chunks == old(chunks) && selfEntity == old(selfEntity)
      ensures ChunkEntity(cx, cy, cz) == Some(entity)
      ensures ChunkFromEntity(entity) == ChunkFromIndex(Flatten(cx, cy, cz, width, height))
    {
      var index := Flatten(cx, cy, cz, width, height);
      chunkEntityMap := chunkEntityMap[entity := index];
      chunkEntities := chunkEntities[index := entity];
    }

    function ChunkFromIndex(i: nat): Option<Chunk>
      reads this
    {
      if i in chunks then Some(chunks[i]) else None
    }

    /**
      The chunk bound to an entity, as written: the entity's index is looked
      up and then used to index `chunks` directly, which fails when the
      chunk is no longer stored.
     */
    function ChunkFromEntityAsWritten(entity: Entity): (r: Option<Chunk>)
      reads this
      requires entity in chunkEntityMap ==> chunkEntityMap[entity] in chunks
      ensures r.Some? <==> entity in chunkEntityMap
      ensures r.Some? ==> r.value == chunks[chunkEntityMap[entity]]
    {
      if entity in chunkEntityMap then Some(chunks[chunkEntityMap[entity]]) else None
    }

    /**
      The chunk bound to an entity, or None when the entity is unknown or
      its chunk is not loaded.
     */
    function ChunkFromEntity(entity: Entity): (r: Option<Chunk>)
      reads this
      ensures r.Some? <==> entity in chunkEntityMap && chunkEntityMap[entity] in chunks
      ensures r.Some? ==> r.value == chunks[chunkEntityMap[entity]]
      ensures (entity in chunkEntityMap ==> chunkEntityMap[entity] in chunks) ==> r == ChunkFromEntityAsWritten(entity)
    {
      if entity in chunkEntityMap && chunkEntityMap[entity] in chunks
      then Some(chunks[chunkEntityMap[entity]])
      else None
    }

    /** Records the structure's own entity. */
    method SetEntity(entity: Entity)
      modifies this
      ensures selfEntity == Some(entity)
      ensures chunks == old(chunks) && chunkEntities == old(chunkEntities) && chunkEntityMap == old(chunkEntityMap)
    {
      selfEntity := Some(entity);
    }

    /** The stored chunk at chunk coordinates, or None for an empty (unloaded) one. */
    function ChunkFromChunkCoordinates(cx: nat, cy: nat, cz: nat): (r: Option<Chunk>)
      reads this
      requires ChunkInBounds(cx, cy, cz)
      ensures r.None? <==> Flatten(cx, cy, cz, width, height) !in chunks
      ensures r.Some? ==> r.value == chunks[Flatten(cx, cy, cz, width, height)]
    {
      ChunkFromIndex(Flatten(cx, cy, cz, width, height))
    }

    /** The stored chunk holding block (x, y, z). */
    function ChunkAtBlockCoordinates(x: nat, y: nat, z: nat): (r: Option<Chunk>)
      reads this
      requires IsWithinBlocks(x, y, z)
      ensures r.None? <==> ChunkIndex(x, y, z, width, height) !in chunks
      ensures r.Some? ==> r.value == chunks[ChunkIndex(x, y, z, width, height)]
    {
      WithinBlocksIffChunkInBounds(x, y, z);
      ChunkFromChunkCoordinates(ChunkOf(x), ChunkOf(y), ChunkOf(z))
    }

    /** The block id at (x, y, z); air whenever the chunk is not stored. */
    function BlockIdAt(x: nat, y: nat, z: nat): (r: BlockId)
      reads this
      requires IsWithinBlocks(x, y, z)
      ensures ChunkAtBlockCoordinates(x, y, z).None? ==> r == AIR_BLOCK_ID
      ensures ChunkAtBlockCoordinates(x, y, z).Some? ==>
                r == ChunkAtBlockCoordinates(x, y, z).value.BlockAt(LocalCoordOf(x, y, z))
      ensures r == BlockIdIn(chunks, width, height, x, y, z)
    {
      match ChunkAtBlockCoordinates(x, y, z)
      case Some(chunk) => chunk.BlockAt(LocalCoordOf(x, y, z))
      case None => AIR_BLOCK_ID
    }

    /** True when the structure has a non-air block at (x, y, z). */
    function HasBlockAt(x: nat, y: nat, z: nat): (r: bool)
      reads this
      requires IsWithinBlocks(x, y, z)
      ensures r ==> ChunkIndex(x, y, z, width, height) in chunks
      ensures r <==> BlockIdAt(x, y, z) != AIR_BLOCK_ID
    {
      BlockIdAt(x, y, z) != AIR_BLOCK_ID
    }

    /** Every stored chunk holds a non-air block. */
    predicate ChunksNonEmpty()
      reads this
    {
      AllNonEmpty(chunks)
    }

    /** Inserts a fresh all-air chunk at the chunk coordinates. */
    method CreateChunkAt(cx: nat, cy: nat, cz: nat) returns (c: Chunk)
      modifies this
      ensures c == NewChunk(cx, cy, cz)
      ensures chunks == old(chunks)[Flatten(cx, cy, cz, width, height) := c]
      ensures chunkEntities == old(chunkEntities) && chunkEntityMap == old(chunkEntityMap)
      ensures selfEntity == old(selfEntity)
    {
      c := NewChunk(cx, cy, cz);
      chunks := chunks[Flatten(cx, cy, cz, width, height) := c];
    }

    /** Drops the chunk at the chunk coordinates; its entity binding is kept. */
    method UnloadChunk(cx: nat, cy: nat, cz: nat)
      modifies this
      ensures chunks == old(chunks) - {Flatten(cx, cy, cz, width, height)}
      ensures chunkEntities == old(chunkEntities) && chunkEntityMap == old(chunkEntityMap)
      ensures selfEntity == old(selfEntity)
    {
      chunks := chunks - {Flatten(cx, cy, cz, width, height)};
    }

    /**
      Sets the block at (x, y, z). Nothing happens when the block is already
      there. Otherwise a BlockChangedEvent carrying the old and new ids goes
      to the writer, if one is given and the structure has an entity; the
      addressed chunk is written through and unloaded if the write empties
      it, or created first when it is missing and the block is not air.
     */
    method SetBlockAt(x: nat, y: nat, z: nat, block: BlockId, writer: EventWriter?<BlockChangedEvent>)
      requires IsWithinBlocks(x, y, z)
      modifies this, writer
      ensures chunks == SetBlockIn(old(chunks), width, height, x, y, z, block)
      ensures chunkEntities == old(chunkEntities) && chunkEntityMap == old(chunkEntityMap)
      ensures selfEntity == old(selfEntity)
      ensures writer != null ==>
                writer.sent == old(writer.sent) +
                  if old(BlockIdAt(x, y, z)) != block && selfEntity.Some?
                  then [BlockChangedEvent(selfEntity.value, StructureBlock(x, y, z), old(BlockIdAt(x, y, z)), block)]
                  else []
      ensures old(BlockIdAt(x, y, z)) == block ==> chunks == old(chunks)
      ensures BlockIdAt(x, y, z) == block
      ensures forall px: nat, py: nat, pz: nat | IsWithinBlocks(px, py, pz) && (px, py, pz) != (x, y, z) ::
                BlockIdAt(px, py, pz) == old(BlockIdAt(px, py, pz))
      ensures old(ChunksNonEmpty()) ==> ChunksNonEmpty()
      ensures old(AllValid(chunks)) ==> AllValid(chunks)
    {
      var oldBlock := BlockIdAt(x, y, z);
      SetBlockInEffects(chunks, x, y, z, block);
      if oldBlock == block {
        return;
      }
      if selfEntity.Some? && writer != null {
        writer.Send(BlockChangedEvent(selfEntity.value, StructureBlock(x, y, z), oldBlock, block));
      }
      WriteThrough(x, y, z, block);
    }

    /** What one block write does to the blocks and to the stored chunks. */
    lemma SetBlockInEffects(before: map<nat, Chunk>, x: nat, y: nat, z: nat, b: BlockId)
      requires IsWithinBlocks(x, y, z)
      ensures var after := SetBlockIn(before, width, height, x, y, z, b);
              && BlockIdIn(after, width, height, x, y, z) == b
              && (forall px: nat, py: nat, pz: nat | IsWithinBlocks(px, py, pz) && (px, py, pz) != (x, y, z) ::
                    BlockIdIn(after, width, height, px, py, pz) == BlockIdIn(before, width, height, px, py, pz))
              && (AllNonEmpty(before) ==> AllNonEmpty(after))
              && (AllValid(before) ==> AllValid(after))
    {
      WithinBlocksIffChunkInBounds(x, y, z);
      SetBlockInThenRead(before, width, height, x, y, z, b);
      forall px: nat, py: nat, pz: nat | IsWithinBlocks(px, py, pz) && (px, py, pz) != (x, y, z)
        ensures BlockIdIn(SetBlockIn(before, width, height, x, y, z, b), width, height, px, py, pz)
             == BlockIdIn(before, width, height, px, py, pz)
      {
        WithinBlocksIffChunkInBounds(px, py, pz);
        SetBlockInFrame(before, width, height, x, y, z, b, px, py, pz);
      }
      if AllNonEmpty(before) {
        SetBlockInKeepsNonEmpty(before, width, height, x, y, z, b);
      }
      if AllValid(before) {
        SetBlockInKeepsValid(before, width, height, x, y, z, b);
      }
    }

    /**
      The chunk half of a block write whose block differs from the current
      one: write through to a stored chunk and unload it if that empties it,
      or create the chunk first when the block is not air.
     */
    method WriteThrough(x: nat, y: nat, z: nat, block: BlockId)
      requires IsWithinBlocks(x, y, z) && BlockIdAt(x, y, z) != block
      modifies this
      ensures chunks == SetBlockIn(old(chunks), width, height, x, y, z, block)
      ensures chunkEntities == old(chunkEntities) && chunkEntityMap == old(chunkEntityMap)
      ensures selfEntity == old(selfEntity)
    {
      var l := LocalCoordOf(x, y, z);
      var cx, cy, cz := ChunkOf(x), ChunkOf(y), ChunkOf(z);
      var i := Flatten(cx, cy, cz, width, height);
      if i in chunks {
        var chunk := chunks[i].SetBlockAt(l, block);
        chunks := chunks[i := chunk];
        if chunk.IsEmpty() {
          UnloadChunk(cx, cy, cz);
        }
      } else if block != AIR_BLOCK_ID {
        var chunk := CreateChunkAt(cx, cy, cz);
        chunks := chunks[i := chunk.SetBlockAt(l, block)];
      }
    }

    /** Removes the block at (x, y, z): sets it to air. */
    method RemoveBlockAt(x: nat, y: nat, z: nat, writer: EventWriter?<BlockChangedEvent>)
      requires IsWithinBlocks(x, y, z)
      modifies this, writer
      ensures chunks == SetBlockIn(old(chunks), width, height, x, y, z, AIR_BLOCK_ID)
      ensures chunkEntities == old(chunkEntities) && chunkEntityMap == old(chunkEntityMap)
      ensures selfEntity == old(selfEntity)
      ensures writer != null ==>
                writer.sent == old(writer.sent) +
                  if old(BlockIdAt(x, y, z)) != AIR_BLOCK_ID && selfEntity.Some?
                  then [BlockChangedEvent(selfEntity.value, StructureBlock(x, y, z), old(BlockIdAt(x, y, z)), AIR_BLOCK_ID)]
                  else []
      ensures !HasBlockAt(x, y, z)
      ensures old(ChunksNonEmpty()) ==> ChunksNonEmpty()
    {
      SetBlockAt(x, y, z, AIR_BLOCK_ID, writer);
    }

    /**
      Stores a chunk at its own chunk coordinates, replacing what was there.
      No event is sent, and nothing checks that the chunk holds any blocks.
     */
    method SetChunk(chunk: Chunk)
      modifies this
      ensures chunks == old(chunks)[Flatten(chunk.structureX, chunk.structureY, chunk.structureZ, width, height) := chunk]
      ensures chunkEntities == old(chunkEntities) && chunkEntityMap == old(chunkEntityMap)
      ensures selfEntity == old(selfEntity)
      ensures old(ChunksNonEmpty()) && !chunk.IsEmpty() ==> ChunksNonEmpty()
      ensures chunk.IsEmpty() ==> !ChunksNonEmpty()
    {
      var i := Flatten(chunk.structureX, chunk.structureY, chunk.structureZ, width, height);
      chunks := chunks[i := chunk];
      assert i in chunks && chunks[i].IsEmpty() <== chunk.IsEmpty();
    }

    /** The position of a chunk's centre relative to the structure's centre. */
    function ChunkRelativePosition(cx: nat, cy: nat, cz: nat): Vec3 {
      var d := CHUNK_DIMENSIONS as real;
      Vec3(d * (cx as real - (width as real - 1.0) / 2.0),
           d * (cy as real - (height as real - 1.0) / 2.0),
           d * (cz as real - (length as real - 1.0) / 2.0))
    }

    /** The position of a block's centre relative to the structure's centre. */
    function BlockRelativePosition(x: nat, y: nat, z: nat): Vec3 {
      Vec3(x as real - BlocksWidth() as real / 2.0 + 0.5,
           y as real - BlocksHeight() as real / 2.0 + 0.5,
           z as real - BlocksLength() as real / 2.0 + 0.5)
    }

    /** True when a continuous point lies in the unit cube of block (blockX, blockY, blockZ). */
    predicate PointInBlock(x: real, y: real, z: real, blockX: nat, blockY: nat, blockZ: nat) {
      var c := BlockRelativePosition(blockX, blockY, blockZ);
      c.x - 0.5 <= x < c.x + 0.5 && c.y - 0.5 <= y < c.y + 0.5 && c.z - 0.5 <= z < c.z + 0.5
    }

    /**
      Maps a point relative to the structure's centre to block coordinates:
      Err(false) when any axis lies outside on the negative side (checked
      first), Ok with the truncated coordinates when they are inside the
      structure, and Err(true) otherwise.
     */
    function RelativeCoordsToLocalCoords(x: real, y: real, z: real): (r: Result<(nat, nat, nat), bool>)
      ensures var xx, yy, zz := x + BlocksWidth() as real / 2.0, y + BlocksHeight() as real / 2.0,
                                z + BlocksLength() as real / 2.0;
              && (r == Err(false) <==> (xx < 0.0 || yy < 0.0 || zz < 0.0))
              && (r == Err(true) <==> (xx >= 0.0 && yy >= 0.0 && zz >= 0.0 &&
                                       !(xx < BlocksWidth() as real && yy < BlocksHeight() as real &&
                                         zz < BlocksLength() as real)))
      ensures r.Ok? ==> IsWithinBlocks(r.value.0, r.value.1, r.value.2) &&
                        PointInBlock(x, y, z, r.value.0, r.value.1, r.value.2)
    {
      var xx := x + BlocksWidth() as real / 2.0;
      var yy := y + BlocksHeight() as real / 2.0;
      var zz := z + BlocksLength() as real / 2.0;
      if xx >= 0.0 && yy >= 0.0 && zz >= 0.0 then
        var xxx: nat, yyy: nat, zzz: nat := xx.Floor, yy.Floor, zz.Floor;
        if IsWithinBlocks(xxx, yyy, zzz) then Ok((xxx, yyy, zzz)) else Err(true)
      else
        Err(false)
    }

    /** A point inside an in-bounds block's cube maps back to that block. */
    lemma PointInBlockMapsToBlock(x: real, y: real, z: real, blockX: nat, blockY: nat, blockZ: nat)
      requires IsWithinBlocks(blockX, blockY, blockZ)
      requires PointInBlock(x, y, z, blockX, blockY, blockZ)
      ensures RelativeCoordsToLocalCoords(x, y, z) == Ok((blockX, blockY, blockZ))
    {
      var xx := x + BlocksWidth() as real / 2.0;
      var yy := y + BlocksHeight() as real / 2.0;
      var zz := z + BlocksLength() as real / 2.0;
      assert blockX as real <= xx < blockX as real + 1.0;
      assert blockY as real <= yy < blockY as real + 1.0;
      assert blockZ as real <= zz < blockZ as real + 1.0;
      assert xx.Floor == blockX && yy.Floor == blockY && zz.Floor == blockZ;
    }

    /** A block's centre maps back to the block. */
    lemma BlockRelativePositionRoundTrip(blockX: nat, blockY: nat, blockZ: nat)
      requires IsWithinBlocks(blockX, blockY, blockZ)
      ensures var p := BlockRelativePosition(blockX, blockY, blockZ);
              RelativeCoordsToLocalCoords(p.x, p.y, p.z) == Ok((blockX, blockY, blockZ))
    {
      var p := BlockRelativePosition(blockX, blockY, blockZ);
      PointInBlockMapsToBlock(p.x, p.y, p.z, blockX, blockY, blockZ);
    }

    /** Block positions are centred: mirrored blocks sit at opposite positions. */
    lemma BlockPositionsCentred(x: nat, y: nat, z: nat)
      requires IsWithinBlocks(x, y, z)
      ensures var p := BlockRelativePosition(x, y, z);
              var q := BlockRelativePosition(BlocksWidth() - 1 - x, BlocksHeight() - 1 - y, BlocksLength() - 1 - z);
              p.x + q.x == 0.0 && p.y + q.y == 0.0 && p.z + q.z == 0.0
    {
    }

    /** A chunk's position is the midpoint of its first and last block's centres. */
    lemma ChunkPositionIsMidpointOfItsBlocks(cx: nat, cy: nat, cz: nat)
      requires ChunkInBounds(cx, cy, cz)
      ensures var d := CHUNK_DIMENSIONS;
              var c := ChunkRelativePosition(cx, cy, cz);
              var lo := BlockRelativePosition(cx * d, cy * d, cz * d);
              var hi := BlockRelativePosition(cx * d + d - 1, cy * d + d - 1, cz * d + d - 1);
              c.x == (lo.x + hi.x) / 2.0 && c.y == (lo.y + hi.y) / 2.0 && c.z == (lo.z + hi.z) / 2.0
    {
    }

    /**
      The inclusive block range covered by one chunk's block iterator; the
      chunk coordinates must be inside the structure.
     */
    function BlockIterForChunk(cx: nat, cy: nat, cz: nat): (r: (StructureBlock, StructureBlock))
      requires ChunkInBounds(cx, cy, cz)
      ensures IsWithinBlocks(r.0.x, r.0.y, r.0.z) && IsWithinBlocks(r.1.x, r.1.y, r.1.z)
      ensures forall b: nat :: r.0.x <= b <= r.1.x <==> ChunkOf(b) == cx
      ensures forall b: nat :: r.0.y <= b <= r.1.y <==> ChunkOf(b) == cy
      ensures forall b: nat :: r.0.z <= b <= r.1.z <==> ChunkOf(b) == cz
    {
      var d := CHUNK_DIMENSIONS;
      MulMonotone(d, cx + 1, width);
      MulMonotone(d, cy + 1, height);
      MulMonotone(d, cz + 1, length);
      (StructureBlock(cx * d, cy * d, cz * d),
       StructureBlock((cx + 1) * d - 1, (cy + 1) * d - 1, (cz + 1) * d - 1))
    }

    /**
      The health of the block at (blockX, blockY, blockZ): what the chunk reports,
      through `health`, when the chunk is stored, and 0 otherwise.
     */
    function GetBlockHealth(blockX: nat, blockY: nat, blockZ: nat, health: (Chunk, LocalCoord) -> real): (r: real)
      reads this
      requires IsWithinBlocks(blockX, blockY, blockZ)
      ensures ChunkIndex(blockX, blockY, blockZ, width, height) !in chunks ==> r == 0.0
      ensures ChunkIndex(blockX, blockY, blockZ, width, height) in chunks ==>
                r == health(chunks[ChunkIndex(blockX, blockY, blockZ, width, height)], LocalCoordOf(blockX, blockY, blockZ))
    {
      match ChunkAtBlockCoordinates(blockX, blockY, blockZ)
      case Some(c) => health(c, LocalCoordOf(blockX, blockY, blockZ))
      case None => 0.0
    }

    /**
      Damages the block at (blockX, blockY, blockZ) in place. The stored
      chunk's own damage step, `damage`, gives whether the hit destroys the
      block and the chunk after the hit, which replaces the stored one; the
      chunk is kept even if the hit leaves it all air. An unstored chunk has
      nothing to damage. A destruction is reported to the writer, if one is
      given and the structure has an entity.
     */
    method BlockTakeDamage(blockX: nat, blockY: nat, blockZ: nat, damage: (Chunk, LocalCoord) -> (bool, Chunk),
                           writer: EventWriter?<BlockDestroyedEvent>) returns (destroyed: bool)
      modifies this, writer
      ensures var i := ChunkIndex(blockX, blockY, blockZ, width, height);
              && (destroyed <==> i in old(chunks) && damage(old(chunks)[i], LocalCoordOf(blockX, blockY, blockZ)).0)
              && chunks == if i in old(chunks)
                           then old(chunks)[i := damage(old(chunks)[i], LocalCoordOf(blockX, blockY, blockZ)).1]
                           else old(chunks)
      ensures chunkEntities == old(chunkEntities) && chunkEntityMap == old(chunkEntityMap)
      ensures selfEntity == old(selfEntity)
      ensures writer != null ==>
                writer.sent == old(writer.sent) +
                  if destroyed && selfEntity.Some?
                  then [BlockDestroyedEvent(selfEntity.value, StructureBlock(blockX, blockY, blockZ))]
                  else []
      ensures var i := ChunkIndex(blockX, blockY, blockZ, width, height);
              old(ChunksNonEmpty()) && (i in chunks ==> !chunks[i].IsEmpty()) ==> ChunksNonEmpty()
    {
      var i := ChunkIndex(blockX, blockY, blockZ, width, height);
      if i in chunks {
        var l := LocalCoordOf(blockX, blockY, blockZ);
        var outcome := damage(chunks[i], l);
        chunks := chunks[i := outcome.1];
        destroyed := outcome.0;
        if destroyed && selfEntity.Some? && writer != null {
          writer.Send(BlockDestroyedEvent(selfEntity.value, StructureBlock(blockX, blockY, blockZ)));
        }
      } else {
        destroyed := false;
      }
    }

    /**
      A hit that leaves the damaged chunk all air leaves an empty chunk
      stored: damage is not followed by an unload, so the non-empty
      invariant is not kept across it.
     */
    lemma EmptyingDamageKeepsChunk(before: map<nat, Chunk>, blockX: nat, blockY: nat, blockZ: nat,
                                   damage: (Chunk, LocalCoord) -> (bool, Chunk))
      requires ChunkIndex(blockX, blockY, blockZ, width, height) in before
      requires damage(before[ChunkIndex(blockX, blockY, blockZ, width, height)], LocalCoordOf(blockX, blockY, blockZ)).1.IsEmpty()
      ensures var i := ChunkIndex(blockX, blockY, blockZ, width, height);
              !AllNonEmpty(before[i := damage(before[i], LocalCoordOf(blockX, blockY, blockZ)).1])
    {
      var i := ChunkIndex(blockX, blockY, blockZ, width, height);
      var after := before[i := damage(before[i], LocalCoordOf(blockX, blockY, blockZ)).1];
      assert i in after && after[i].IsEmpty();
    }
  }
}
