# Cosmos block structures, terrain filling and mesh assembly in Dafny

This project models three parts of the Cosmos voxel game engine and proves
properties of them.

- **The block-structure store** (`Structures`, with `Chunks` and `Ecs`).
  A `Structure` is a grid of `width × height × length` chunks of 32³ blocks.
  It keeps only the non-empty chunks, in a sparse map keyed by the
  flattened chunk coordinate. Beside that map it keeps a two-way map
  between chunk indices and the ECS entities that render them.
  - Reading a block defaults to air when its chunk is absent.
  - Writing a block is a no-op when the block is unchanged.
  - A write allocates a chunk lazily on the first non-air block, and
    unloads the chunk the moment it becomes all air.
  - A write reports a `BlockChangedEvent` only when the structure has an
    entity and a writer was given.
- **The two per-tick chunk systems** (`ChunkSystems`).
  - `add_chunks_system` collects the chunks named by a batch of block
    changes and chunk initialisations into a set. It binds a freshly spawned
    entity to every present, non-empty, unbound chunk, and announces each
    binding and each initialisation once.
  - `remove_empty_chunks` despawns the entity of every bound chunk that a
    block change left absent.
- **The grass terrain filler** (`GrassBiosphere`). For each generation
  request it fills a chunk's footprint column by column. Below the
  noise-derived column height it draws a grass/dirt/stone band. It writes
  only cells that hold air, and announces the chunk once per request.
- **The client's mesh assembly** (`Rendering`). It covers three things:
  - scaling a mesh piece's positions;
  - the builder that concatenates mesh pieces into one buffer, renumbering
    indices by a running base index;
  - the six-face mesh record of a block, with its registry id.

Each method that changes state has a contract stating its whole new
state. For the cross-cutting behaviour, that state is tied to a
specification function, and lemmas prove what the source promises about
that function:
- block reads after writes, and the frame of a write;
- the "stored chunks are non-empty" invariant;
- a closed form of the terrain fill, its idempotence and its
  never-overwrite rule;
- that one tick of both chunk systems leaves a changed chunk bound to an
  entity exactly when it is stored;
- index range preservation in the mesh builder, and that each appended
  index names its own piece's vertex while the base index tracks the
  vertex count.

The files are:
- `wrappers.dfy`: Option and Result.
- `vectors.dfy`: exact-real vectors and rectangles.
- `ecs.dfy`: event writers and a recorded command buffer.
- `chunk.dfy`: a chunk as a map from local coordinate to block id.
- `structure.dfy`: the structure.
- `systems.dfy`: the two chunk systems.
- `grass_biosphere.dfy`: the terrain filler.
- `rendering.dfy`: the mesh code.

Inputs that come from outside the core are parameters:
- the noise generator, as a function on reals;
- the block registry, as a `Palette` of three block ids;
- chunk health, and the chunk's own damage step (whether the block is
  destroyed and the chunk after the hit), as functions of the chunk and
  the local coordinate;
- the Bevy query, as a map from entity to `Structure`;
- event readers, as sequences;
- event writers and `Commands`, as objects that record what they are sent.

## Model

| member | source | states |
|---|---|---|
| Chunks.Chunk.SetBlockAt | cosmos_core/src/structure/mod.rs:368-377 | only the addressed cell takes the new id; every other cell and the chunk's own coordinates are unchanged, and well-formedness is kept |
| Chunks.Chunk.BlockAt | cosmos_core/src/structure/mod.rs:262-272 | the id stored at a cell, air for a cell with no entry; `Chunks.IsEmptyIffAllAir` and `Chunks.Chunk.SetBlockAt` state what it reads before and after a write |
| Chunks.Chunk.IsEmpty | cosmos_core/src/structure/mod.rs:371-373 | a chunk is empty when every stored cell is air |
| Chunks.NewChunk | cosmos_core/src/structure/mod.rs:314-320 | a created chunk is well formed, all air, and knows its chunk coordinates |
| Chunks.IsEmptyIffAllAir | cosmos_core/src/structure/mod.rs:371-373 | emptiness holds exactly when every in-chunk coordinate reads as air |
| Ecs.EventWriter.Send | cosmos_core/src/structure/mod.rs:700-704 | a sent event is appended to what the writer has recorded |
| Ecs.Commands.Spawn | cosmos_core/src/structure/mod.rs:669-683 | spawning returns a fresh entity handle, advances the allocator and records the spawn at the given translation |
| Ecs.Commands.AddChild | cosmos_core/src/structure/mod.rs:685 | records parenting the child under the parent; allocates nothing |
| Ecs.Commands.DespawnRecursive | cosmos_core/src/structure/mod.rs:624 | records the despawn; allocates nothing |
| Structures.LocalOf | cosmos_core/src/structure/mod.rs:356-360 | the in-chunk coordinate `b % 32` is below the chunk dimension |
| Structures.LocalCoordOf | cosmos_core/src/structure/mod.rs:356-360 | the three local coordinates of a block lie inside a chunk |
| Structures.StructureBlock.ChunkCoords | cosmos_core/src/structure/mod.rs:620 | the chunk whose 32-block span holds the block on each axis: `32 * c <= b < 32 * c + 32` |
| Structures.Flatten | cosmos_core/src/structure/mod.rs:119 | the row-major chunk index `z * w * h + y * w + x`; `Structures.FlattenInjective` shows it never sends two in-bounds chunks to the same index |
| Structures.DecomposeRoundTrip | cosmos_core/src/structure/mod.rs:356-366 | `(b / 32) * 32 + b % 32 == b`, with the remainder below 32 |
| Structures.BlockBoundIffChunkBound | cosmos_core/src/structure/mod.rs:98-112 | a block index is below `n * 32` exactly when its chunk index is below `n` |
| Structures.DecomposeInjective | cosmos_core/src/structure/mod.rs:356-366 | two block indices with the same chunk and local parts are equal |
| Structures.FlattenInjective | cosmos_core/src/structure/mod.rs:118-133 | the flattened chunk index is injective on in-bounds chunk coordinates |
| Structures.SetBlockInThenRead | cosmos_core/src/structure/mod.rs:262-272 | after a write, reading the written block gives the new id |
| Structures.SetBlockInFrame | cosmos_core/src/structure/mod.rs:331-378 | a write leaves every other in-bounds block as it was |
| Structures.SetBlockInKeepsNonEmpty | cosmos_core/src/structure/mod.rs:368-377 | a write keeps every stored chunk non-empty: a chunk it empties is removed, and a missing chunk is created only for a non-air block |
| Structures.SetBlockInKeepsValid | cosmos_core/src/structure/mod.rs:368-377 | a write keeps every stored chunk well formed |
| Structures.SetBlockInAllocation | cosmos_core/src/structure/mod.rs:368-377 | a write touches only its own chunk index; it allocates only for non-air, writing air into a missing chunk changes nothing, and a chunk it empties is dropped |
| Structures.Structure.constructor | cosmos_core/src/structure/mod.rs:66-76 | a new structure has the given dimensions, no chunks, no bindings and no entity |
| Structures.Structure.BlocksWidth | cosmos_core/src/structure/mod.rs:96-99 | the chunk width times 32; `Structures.BlockBoundIffChunkBound` says what lies below it |
| Structures.Structure.BlocksHeight | cosmos_core/src/structure/mod.rs:101-105 | the chunk height times 32; `Structures.BlockBoundIffChunkBound` says what lies below it |
| Structures.Structure.BlocksLength | cosmos_core/src/structure/mod.rs:107-111 | the chunk length times 32; `Structures.BlockBoundIffChunkBound` says what lies below it |
| Structures.Structure.IsWithinBlocks | cosmos_core/src/structure/mod.rs:224-227 | every coordinate below the block extent on its axis; `Structures.Structure.WithinBlocksIffChunkInBounds` ties it to chunk bounds |
| Structures.Structure.WithinBlocksIffChunkInBounds | cosmos_core/src/structure/mod.rs:225-227 | a block lies inside the structure exactly when its chunk coordinates are below width, height and length |
| Structures.Structure.ChunkEntity | cosmos_core/src/structure/mod.rs:118-122 | the entity bound to a chunk is present exactly when its flattened index has a binding, and is that binding |
| Structures.Structure.SetChunkEntity | cosmos_core/src/structure/mod.rs:128-133 | binds both ways: entity to index and index to entity; chunks and the own entity are unchanged |
| Structures.Structure.ChunkFromEntityAsWritten | cosmos_core/src/structure/mod.rs:136-138 | the chunk of a bound entity, with the lookup's panic-freedom as a precondition |
| Structures.Structure.ChunkFromEntity | cosmos_core/src/structure/mod.rs:136-138 | the chunk of an entity is present exactly when the entity is bound and its chunk is stored; it agrees with the as-written lookup wherever that one does not panic |
| Structures.Structure.SetEntity | cosmos_core/src/structure/mod.rs:141-143 | records the structure's own entity and changes nothing else |
| Structures.Structure.ChunkFromChunkCoordinates | cosmos_core/src/structure/mod.rs:156-167 | absent exactly when no chunk is stored at the flattened index; otherwise that chunk |
| Structures.Structure.ChunkAtBlockCoordinates | cosmos_core/src/structure/mod.rs:192-198 | the chunk holding a block: absent exactly when none is stored at its chunk index |
| Structures.Structure.BlockIdAt | cosmos_core/src/structure/mod.rs:262-272 | air when the block's chunk is absent, otherwise the chunk's cell |
| Structures.Structure.HasBlockAt | cosmos_core/src/structure/mod.rs:230-232 | a block is present exactly when its id is not air, and then its chunk is stored |
| Structures.Structure.CreateChunkAt | cosmos_core/src/structure/mod.rs:314-320 | stores a fresh all-air chunk at the flattened index and changes nothing else |
| Structures.Structure.UnloadChunk | cosmos_core/src/structure/mod.rs:323-326 | removes the chunk at the flattened index and changes nothing else |
| Structures.Structure.SetBlockAt | cosmos_core/src/structure/mod.rs:331-378 | the new chunk map is the write's specification function. The written block reads back as the new id and every other block is unchanged. A write of the current id changes nothing and sends nothing. The event carries the old and new ids and is sent only with an entity and a writer. Non-emptiness and well-formedness are preserved |
| Structures.Structure.SetBlockInEffects | cosmos_core/src/structure/mod.rs:331-378 | read-after-write, frame and both invariants for the write's specification function |
| Structures.Structure.WriteThrough | cosmos_core/src/structure/mod.rs:356-377 | the chunk-map half of a changing write matches the specification function |
| Structures.Structure.RemoveBlockAt | cosmos_core/src/structure/mod.rs:296-312 | equals writing air: afterwards no block is there, the event rule is that of a write, and non-emptiness is kept |
| Structures.Structure.SetChunk | cosmos_core/src/structure/mod.rs:427-436 | stores the chunk at the index of its own coordinates; the non-empty invariant survives exactly when the chunk is non-empty |
| Structures.Structure.RelativeCoordsToLocalCoords | cosmos_core/src/structure/mod.rs:240-258 | `Err(false)` exactly when some shifted axis is negative (checked first), `Err(true)` exactly when all are non-negative but one is past the structure, and otherwise in-bounds coordinates of the block whose cube holds the point |
| Structures.Structure.PointInBlockMapsToBlock | cosmos_core/src/structure/mod.rs:240-258 | every point in an in-bounds block's unit cube maps to that block |
| Structures.Structure.BlockRelativePosition | cosmos_core/src/structure/mod.rs:393-404 | the block's centre, offset by half the block extent; `BlockRelativePositionRoundTrip` and `BlockPositionsCentred` are its properties |
| Structures.Structure.ChunkRelativePosition | cosmos_core/src/structure/mod.rs:380-391 | the chunk's centre, offset by half the chunk extent times 32; `ChunkPositionIsMidpointOfItsBlocks` relates it to its blocks |
| Structures.Structure.BlockRelativePositionRoundTrip | cosmos_core/src/structure/mod.rs:394-404 | a block's centre maps back to the block |
| Structures.Structure.BlockPositionsCentred | cosmos_core/src/structure/mod.rs:394-404 | block positions are symmetric about the structure's centre |
| Structures.Structure.ChunkPositionIsMidpointOfItsBlocks | cosmos_core/src/structure/mod.rs:381-391 | a chunk's position is the midpoint of its first and last block's positions |
| Structures.Structure.BlockIterForChunk | cosmos_core/src/structure/mod.rs:477-494 | the block range of an in-bounds chunk covers exactly the blocks whose chunk coordinate is that chunk, and lies inside the structure |
| Structures.Structure.GetBlockHealth | cosmos_core/src/structure/mod.rs:534-551 | 0 for an absent chunk, otherwise the chunk's health of the cell |
| Structures.Structure.BlockTakeDamage | cosmos_core/src/structure/mod.rs:560-593 | an unstored chunk is left alone and nothing is destroyed; a stored chunk is replaced in place by the chunk after the hit, and the block is destroyed exactly when the hit reports it; no other field changes; the destroyed event is sent only on destruction, and only with an entity and a writer; the non-empty invariant survives unless the hit empties the chunk |
| Structures.Structure.EmptyingDamageKeepsChunk | cosmos_core/src/structure/mod.rs:569-571 | a hit that leaves the chunk all air leaves an empty chunk stored, since damage is not followed by an unload |
| ChunkSystems.CollectChangedChunks | cosmos_core/src/structure/mod.rs:646-655 | the set of (structure, chunk) keys named by the block changes |
| ChunkSystems.CollectInitChunks | cosmos_core/src/structure/mod.rs:657-665 | the keys named by the initialisations, and one set event per key |
| ChunkSystems.SendAll | cosmos_core/src/structure/mod.rs:702-704 | every event of the set is sent exactly once, after what was sent before |
| ChunkSystems.BindChunk | cosmos_core/src/structure/mod.rs:668-697 | binds exactly when the chunk is present, non-empty and unbound: it spawns at the chunk's position, parents the spawn under the structure and binds both ways; otherwise nothing happens |
| ChunkSystems.NewBindingsInverse | cosmos_core/src/structure/mod.rs:689 | the j-th binding of a batch is recorded in both directions with entity `next0 + j` |
| ChunkSystems.AddChunksSystem | cosmos_core/src/structure/mod.rs:636-705 | the bound keys, without duplicates, are exactly the collected keys that were present, non-empty and unbound. Each gets the next fresh entity and its spawn and parenting commands. Each structure differs from before only by those bindings. The new events are, without duplicates, the initialisations' and the bindings' set events |
| ChunkSystems.EmptiedSnoc | cosmos_core/src/structure/mod.rs:615-633 | the chunks a batch leaves absent grow by the absent chunk of the last event |
| ChunkSystems.UnbindIfUnloaded | cosmos_core/src/structure/mod.rs:620-631 | despawns and unbinds exactly when the chunk is absent and bound; removes the index from the chunk-to-entity map only, leaving the reverse map as it was |
| ChunkSystems.RemoveEmptyChunks | cosmos_core/src/structure/mod.rs:610-634 | despawns, without duplicates and in event order, exactly the bound chunks the events name that are absent. It removes only their chunk-to-entity entries and allocates nothing |
| ChunkSystems.RemovalLeavesStaleEntry | cosmos_core/src/structure/mod.rs:128-138 | after removal, an unbound chunk's entity still maps to an index that holds no chunk, so the as-written lookup would panic and the corrected one gives None |
| ChunkSystems.TickBindsExactlyStored | cosmos_core/src/structure/mod.rs:610-705 | for one changed chunk of a structure whose chunks are all non-empty, binding and then removal leave it bound exactly when it is stored |
| ChunkSystems.ReconcileTick | cosmos_core/src/structure/mod.rs:114-116 | one tick of both systems over the same block changes leaves every chunk map as it was and, when every stored chunk is non-empty, every changed chunk bound exactly when it is stored: an empty chunk has no entity |
| GrassBiosphere.RoundHalfAway | cosmos_server/src/structure/planet/biosphere/grass_biosphere.rs:78-80 | rounds to a nearest integer, with ties away from zero, never negative for a non-negative input |
| GrassBiosphere.RoundHalfAwayOdd | cosmos_server/src/structure/planet/biosphere/grass_biosphere.rs:78-80 | rounding commutes with negation |
| GrassBiosphere.ToUsize | cosmos_server/src/structure/planet/biosphere/grass_biosphere.rs:80 | the saturating float-to-usize cast: non-negative values are kept, negatives become 0 |
| GrassBiosphere.ColumnHeight | cosmos_server/src/structure/planet/biosphere/grass_biosphere.rs:78-80 | `blocks_height - 23` plus amplitude times noise, rounded and cast; `GrassBiosphere.ColumnHeightWithinAmplitude` bounds it |
| GrassBiosphere.ColumnHeightWithinAmplitude | cosmos_server/src/structure/planet/biosphere/grass_biosphere.rs:72-80 | with noise in [-1, 1], the column height is `blocks_height - 23` give or take the amplitude 30 |
| GrassBiosphere.BandsPartitionColumn | cosmos_server/src/structure/planet/biosphere/grass_biosphere.rs:82-94 | for h ≥ 5, the cells below h are banded: grass at `h - 1`, dirt on `[h - 5, h - 1)`, stone below `h - 5`; cells at or above h have no band |
| GrassBiosphere.BandAt | cosmos_server/src/structure/planet/biosphere/grass_biosphere.rs:82-94 | the range a height falls in, tried grass, dirt, stone; `GrassBiosphere.BandsPartitionColumn` shows the ranges cut the column into the three bands |
| GrassBiosphere.FilledSpec | cosmos_server/src/structure/planet/biosphere/grass_biosphere.rs:87-94 | a cell holding a block keeps it; an air cell gets its band's block; a cell at or above h is untouched |
| GrassBiosphere.FilledIdempotent | cosmos_server/src/structure/planet/biosphere/grass_biosphere.rs:87-94 | filling a filled cell again changes nothing |
| GrassBiosphere.AfterRequestIdempotent | cosmos_server/src/structure/planet/biosphere/grass_biosphere.rs:76-96 | serving the same request twice leaves every cell as serving it once |
| GrassBiosphere.GeneratedClosedForm | cosmos_server/src/structure/planet/biosphere/grass_biosphere.rs:59-98 | after a batch, a cell is filled exactly when some request for its structure covers it (footprint, and `start_y ≤ y < min(start_y + 32, h)`), and is otherwise unchanged |
| GrassBiosphere.GeneratedIdempotent | cosmos_server/src/structure/planet/biosphere/grass_biosphere.rs:59-98 | running a batch again over its own result changes nothing |
| GrassBiosphere.GeneratedNeverOverwrites | cosmos_server/src/structure/planet/biosphere/grass_biosphere.rs:87 | a non-air cell, or a cell no request covers, keeps its block |
| GrassBiosphere.GeneratedSnoc | cosmos_server/src/structure/planet/biosphere/grass_biosphere.rs:59-98 | a batch's effect is the previous requests' effect followed by the last request's, for that request's structure only |
| GrassBiosphere.SetEventsOfSpec | cosmos_server/src/structure/planet/biosphere/grass_biosphere.rs:100-105 | one announcement per request, in order, carrying the request's structure and chunk coordinates |
| GrassBiosphere.FillCell | cosmos_server/src/structure/planet/biosphere/grass_biosphere.rs:87-94 | writes the cell only when it is air and lies in a band, with no event writer; an already-settled cell leaves the chunk map unchanged |
| GrassBiosphere.FillColumn | cosmos_server/src/structure/planet/biosphere/grass_biosphere.rs:86-96 | fills the column's cells from `start_y` to `min(start_y + 32, h)` and leaves every other block as it was; bindings and both chunk invariants are kept |
| GrassBiosphere.FootprintInside | cosmos_server/src/structure/planet/biosphere/grass_biosphere.rs:66-77 | the footprint of an in-bounds chunk lies inside the structure |
| GrassBiosphere.FillChunk | cosmos_server/src/structure/planet/biosphere/grass_biosphere.rs:66-98 | one request's fill matches the specification function cell by cell; a chunk already settled for the request is left unchanged (idempotence of the state change) |
| GrassBiosphere.GeneratePlanet | cosmos_server/src/structure/planet/biosphere/grass_biosphere.rs:52-107 | every queried structure's chunks are the batch's closed-form fill of what they were, with bindings and own entity unchanged and both chunk invariants kept; the writer receives exactly one set event per request, in order |
| Rendering.AsI32 | cosmos_client/src/rendering/mod.rs:94 | the u32 → i32 cast: exact below 2^31, wrapping to negatives above |
| Rendering.CastsRoundTrip | cosmos_client/src/rendering/mod.rs:94-96 | casting u32 → i32 → u32 returns the original value |
| Rendering.MaxSigned | cosmos_client/src/rendering/mod.rs:74-94 | the running i32 maximum of the cast indices, starting at -1, is at least -1 and below 2^31 |
| Rendering.MaxSignedIsMaximum | cosmos_client/src/rendering/mod.rs:74-94 | the running maximum, starting at -1, bounds every cast index and is -1 or one of them |
| Rendering.StepOfSmallIndices | cosmos_client/src/rendering/mod.rs:74-96 | for indices below 2^31 - 1 the base-index step is 0 with no indices, and otherwise one more than the largest index, which lies below it |
| Rendering.MeshInformation.constructor | cosmos_client/src/rendering/mod.rs:24-35 | a piece holds exactly the given indices, texture coordinates, positions and normals |
| Rendering.MeshInformation.Scale | cosmos_client/src/rendering/mod.rs:39-45 | each position is multiplied component-wise by the scale, the count is kept and the other buffers are unchanged, so a well-formed piece (every index names a position) stays well formed and only a well-formed one is |
| Rendering.MapUvCorners | cosmos_client/src/rendering/mod.rs:72-89 | the unit square's corners map to the rectangle's corners |
| Rendering.MapUvIntoRect | cosmos_client/src/rendering/mod.rs:72-89 | a texture coordinate in the unit square maps into the rectangle |
| Rendering.CosmosMeshBuilder.constructor | cosmos_client/src/rendering/mod.rs:50-56 | the default builder is empty with base index 0 |
| Rendering.CosmosMeshBuilder.AddMeshInformation | cosmos_client/src/rendering/mod.rs:71-97 | appends the translated positions, the normals verbatim, the mapped texture coordinates and the indices shifted by the old base index, and grows the base index by the step; keeps every index below the base index and the base index within the positions for a well-formed piece; for a piece whose step is its vertex count, the base index equals the position count afterwards exactly when it did before |
| Rendering.CosmosMeshBuilder.AppendVertices | cosmos_client/src/rendering/mod.rs:76-89 | the positions gain the piece's positions translated, the normals the piece's normals, the texture coordinates the piece's mapped into the rectangle; indices and base index are unchanged |
| Rendering.CosmosMeshBuilder.PushIndices | cosmos_client/src/rendering/mod.rs:91-94 | each index is pushed plus the base index, and the running maximum is returned |
| Rendering.RenumberingKeepsRange | cosmos_client/src/rendering/mod.rs:91-96 | after appending a well-formed piece, every index is below the new base index, which does not pass the number of positions |
| Rendering.RenumberingNamesOwnVertices | cosmos_client/src/rendering/mod.rs:76-96 | while the base index equals the number of positions, each index appended for a well-formed piece names that piece's own translated vertex |
| Rendering.BlockFace.Index | cosmos_client/src/rendering/mod.rs:150-155 | a face's slot lies in 0..5 |
| Rendering.FaceIndexBijective | cosmos_client/src/rendering/mod.rs:150-166 | distinct faces have distinct slots and every slot belongs to a face |
| Rendering.BlockMeshInformation.constructor | cosmos_client/src/rendering/mod.rs:139-170 | stores the six meshes in the order right, left, top, bottom, front, back, with id 0 and the given name |
| Rendering.BlockMeshInformation.InfoForFace | cosmos_client/src/rendering/mod.rs:173-175 | the mesh in the face's slot |
| Rendering.BlockMeshInformation.InfoForFaceInConstructorOrder | cosmos_client/src/rendering/mod.rs:166-175 | each face returns the mesh given for it at construction |
| Rendering.BlockMeshInformation.Id | cosmos_client/src/rendering/mod.rs:122-124 | the stored numeric id; `Rendering.BlockMeshInformation.SetNumericId` shows it is the last one set |
| Rendering.BlockMeshInformation.UnlocalizedName | cosmos_client/src/rendering/mod.rs:126-128 | the name given at construction, a constant field |
| Rendering.BlockMeshInformation.SetNumericId | cosmos_client/src/rendering/mod.rs:122-132 | after setting a u16 id, `Id` returns it |

## Left out

- Noise: the OpenSimplex generator is a parameter `noise(x, z)` on exact reals, and the f64 product and sum before rounding are exact.
- Floating point in general: positions, texture coordinates, health and scale are exact reals, not f32/f64.
- GrassBiosphere.GeneratePlanet: when `blocks_height < 23` or a column height is below 5, the usize subtractions underflow. A debug build panics there; a release build wraps (with a column height of 3, `stone_range` becomes `0..2^64-2`, so that column still gets stone at y 0-1 and grass at y 2). Neither behaviour is modelled: these inputs, a structure entity that is not queried, and a chunk outside the structure (which `has_block_at` asserts against) are excluded by the precondition `Servable`.
- GrassBiosphere.GeneratePlanet: the three registry lookups `block_from_id("cosmos:grass")` and so on are a `Palette` of block ids. Their `unwrap` failure is not modelled.
- GrassBiosphere.GeneratePlanet: `grass_biosphere.rs` imports the older `structure::structure::Structure`. This model runs the filler against the `Structure` of `cosmos_core/src/structure/mod.rs`, whose `has_block_at` and `set_block_at` have the signatures the filler calls.
- Structures.Structure.SetBlockAt: blocks are compared by id. `Registry::from_numeric_id` is not modelled.
- Structures.Structure.ChunkFromChunkCoordinates: in-bounds chunk coordinates are a precondition. The source's own bounds assertion is not modelled as a panic. The same holds for `ChunkAtBlockCoordinates`, `BlockIdAt`, `HasBlockAt`, `SetBlockAt`, `RemoveBlockAt`, `BlockIterForChunk` and `GetBlockHealth`, for the `KeysInBounds` preconditions of `ChunkSystems.AddChunksSystem` and `ChunkSystems.RemoveEmptyChunks` (whose `chunk_from_chunk_coordinates` calls assert the same bounds), and for the `ChunkInBounds` part of `GrassBiosphere.Servable`.
- Chunk internals: `chunk.rs` is not part of this model. A chunk is a map from local coordinate to block id. Its damage model is a parameter: `GetBlockHealth` takes the health as a function of chunk and coordinate, and `BlockTakeDamage` takes the chunk's damage step, which returns whether the block is destroyed and the chunk after the hit. The health overlay that `block_take_damage` updates is therefore not modelled. `CHUNK_DIMENSIONS` is taken to be 32, and `flatten` is `z * w * h + y * w + x`; the file defining them is not part of this model.
- Iterators: `all_chunks_iter`, `chunk_iter`, `all_blocks_iter` and `block_iter` are left out; only the range of `block_iter_for_chunk` is modelled.
- `block_world_location`, `mut_chunk_from_chunk_coordinates`, `block_at`, `chunks` and `get_entity` are left out. The first is a float transform by the physics body; the others are borrows of fields that the model reads directly.
- ChunkSystems.AddChunksSystem: the `PhysicsWorld` component inserted on a spawned chunk entity is not modelled. Nor are the `PbrBundle` contents beyond the translation, and nor is `NoSendEntity`. Structures missing from the query are skipped, as in the source.
- ChunkSystems.AddChunksSystem: Rust's `HashSet` iteration order is unspecified. The model binds the keys in some order `order` and states the result for every such order. Entity ids are `next0 + j` along it.
- Rendering.CosmosMeshBuilder.AddMeshInformation: the base index grows by one more than the piece's largest index, not by the number of positions appended. A piece whose last vertices no index uses, or a piece with no indices but some positions, leaves the base index behind the position count, and the indices of every later piece then name earlier pieces' vertices. The model keeps the source's rule, so vertex naming (`Rendering.RenumberingNamesOwnVertices`) is proved only while the base index equals the position count, which a piece whose step is its vertex count preserves.
- Rendering.CosmosMeshBuilder.AddMeshInformation: u32 overflow on `index + last_index` and on `last_index += …`, and i32 overflow on `max_index + 1`, are panics in a debug build. They are preconditions here, not modelled panics.
- `build_mesh`, `register_meshes`, `register_block_meshes` and `register` are left out: they build Bevy meshes and register systems.
- Structures.Structure.BlockTakeDamage: the chunk's own `block_take_damage` (in `chunk.rs`, not part of this model) is the parameter `damage`. The structure does not unload a chunk that a hit leaves all air, so `ChunksNonEmpty` is promised only when the damaged chunk stays non-empty (`Structures.Structure.EmptyingDamageKeepsChunk`).
- Rendering.BlockMeshInformation.constructor: the source's `debug_assert`s only check the `BlockFace::index()` constants (`Right` is 0 through `Bottom` is 5), which `Rendering.BlockFace.Index` states and `Rendering.FaceIndexBijective` proves a bijection; they do not inspect the six inputs, which are stored in argument order.
- Systems scheduling, networking, persistence and the other context files are not part of this model.

## Findings

| source | as written | input that shows it | evidently intended | confidence | as-written member | corrected member |
|---|---|---|---|---|---|---|
| cosmos_core/src/structure/mod.rs:136-138 | `chunk_from_entity` indexes `self.chunks[…]` with the index it finds in `chunk_entity_map`, and `remove_empty_chunks` (mod.rs:627-629) removes only the `chunk_entities` entry | a chunk bound to entity e by `add_chunks_system`, then emptied by a block change and unbound by `remove_empty_chunks`; `chunk_from_entity(e)` then finds a stale index with no chunk and panics | return `None` for an entity whose chunk is gone, as its documentation says | not executed | Structures.Structure.ChunkFromEntityAsWritten, ChunkSystems.RemovalLeavesStaleEntry | Structures.Structure.ChunkFromEntity |
