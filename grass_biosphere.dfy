/**
  The grass planet terrain filler. For each chunk generation request it
  walks the chunk's block columns; each column gets a height from the
  noise field around `blocks_height - 23`, and every air cell of the
  chunk below that height is filled with grass (the top cell), dirt (the
  four cells below it) or stone (everything lower). Cells that already
  hold a block are left alone, no BlockChangedEvent is sent, and one
  ChunkSetEvent per request announces the chunk.

  The noise generator is a parameter: a total function from the sample
  point to a real, evaluated exactly.
 */
module GrassBiosphere {
  import opened Wrappers
  import opened Ecs
  import opened Chunks
  import opened Structures
  import opened ChunkSystems

  /** A request to generate the chunk at chunk coordinates (x, y, z) of a planet. */
  datatype GrassChunkNeedsGeneratedEvent = GrassChunkNeedsGeneratedEvent(x: nat, y: nat, z: nat, structureEntity: Entity)

  /** The registered ids of the three terrain blocks. */
  datatype Palette = Palette(grass: BlockId, dirt: BlockId, stone: BlockId)

  /** A noise field sampled at a point of the plane. */
  type Noise = (real, real) -> real

  const AMPLITUDE: real := 30.0
  const DELTA: real := 0.05
  /** How far below the top of the structure the terrain's mean height lies. */
  const AIR_DEPTH: nat := 23

  // ---------------------------------------------------------------------
  // Column heights
  // ---------------------------------------------------------------------

  /** Rounding to the nearest integer, halfway cases away from zero. */
  function RoundHalfAway(r: real): (n: int)
    ensures r - 0.5 <= n as real <= r + 0.5
    ensures n as real == r + 0.5 ==> r > 0.0
    ensures n as real == r - 0.5 ==> r < 0.0
    ensures r >= 0.0 ==> n >= 0
  {
    if r >= 0.0 then (r + 0.5).Floor else -((-r + 0.5).Floor)
  }

  /** Rounding treats r and -r alike. */
  lemma RoundHalfAwayOdd(r: real)
    ensures RoundHalfAway(-r) == -RoundHalfAway(r)
  {
  }

  /** A float-to-usize cast: negative values saturate to 0. */
  function ToUsize(v: int): (n: nat)
    ensures v >= 0 ==> n == v
    ensures v < 0 ==> n == 0
  {
    if v < 0 then 0 else v
  }

  /** The noise-derived terrain height of block column (x, z) in a structure `blocksHeight` blocks tall. */
  function ColumnHeight(blocksHeight: nat, noise: Noise, x: nat, z: nat): nat {
    var middleAirStart := blocksHeight - AIR_DEPTH;
    ToUsize(RoundHalfAway(middleAirStart as real + noise(x as real * DELTA, z as real * DELTA) * AMPLITUDE))
  }

  /**
    With noise samples in [-1, 1], the column height stays within the
    amplitude of `blocks_height - 23`.
   */
  lemma ColumnHeightWithinAmplitude(blocksHeight: nat, noise: Noise, x: nat, z: nat)
    requires blocksHeight >= AIR_DEPTH + 30
    requires -1.0 <= noise(x as real * DELTA, z as real * DELTA) <= 1.0
    ensures blocksHeight - AIR_DEPTH - 30 <= ColumnHeight(blocksHeight, noise, x, z) <= blocksHeight - AIR_DEPTH + 30
  {
    var n := noise(x as real * DELTA, z as real * DELTA);
    var v := (blocksHeight - AIR_DEPTH) as real + n * AMPLITUDE;
    assert -30.0 <= n * AMPLITUDE <= 30.0;
    assert v >= 0.0;
    var r := RoundHalfAway(v);
    assert (blocksHeight - AIR_DEPTH - 30) as real - 0.5 <= r as real <= (blocksHeight - AIR_DEPTH + 30) as real + 0.5;
  }

  // ---------------------------------------------------------------------
  // Bands
  // ---------------------------------------------------------------------

  datatype Band = Grass | Dirt | Stone

  /**
    The band holding cell height y in a column of height h, testing the
    grass range [h - 1, h), the dirt range [h - 5, h - 1) and the stone
    range [0, h - 5) in that order; no band at or above h.
   */
  function BandAt(y: nat, h: nat): Option<Band> {
    if h - 1 <= y < h then Some(Grass)
    else if h - 5 <= y < h - 1 then Some(Dirt)
    else if 0 <= y < h - 5 then Some(Stone)
    else None
  }

  /**
    The bands cover exactly the cells below the column height, the grass
    band is the top cell, the dirt band the four cells below it and the
    stone band everything lower.
   */
  lemma BandsPartitionColumn(y: nat, h: nat)
    requires h >= 5
    ensures BandAt(y, h).Some? <==> y < h
    ensures BandAt(y, h) == Some(Grass) <==> y + 1 == h
    ensures BandAt(y, h) == Some(Dirt) <==> h - 5 <= y && y + 1 < h
    ensures BandAt(y, h) == Some(Stone) <==> y + 5 < h
  {
  }

  function BandBlock(b: Band, p: Palette): BlockId {
    match b
    case Grass => p.grass
    case Dirt => p.dirt
    case Stone => p.stone
  }

  /**
    What the filler leaves in a cell at height y of a column of height h
    that held `before`: the band's block when the cell was air and lies in
    a band, otherwise what was there.
   */
  function Filled(before: BlockId, y: nat, h: nat, p: Palette): BlockId {
    if before != AIR_BLOCK_ID then before
    else match BandAt(y, h)
      case Some(b) => BandBlock(b, p)
      case None => before
  }

  /** A cell holding a block keeps it, and an air cell below h gets its band's block. */
  lemma FilledSpec(before: BlockId, y: nat, h: nat, p: Palette)
    requires h >= 5
    ensures before != AIR_BLOCK_ID ==> Filled(before, y, h, p) == before
    ensures before == AIR_BLOCK_ID && y + 1 == h ==> Filled(before, y, h, p) == p.grass
    ensures before == AIR_BLOCK_ID && h - 5 <= y && y + 1 < h ==> Filled(before, y, h, p) == p.dirt
    ensures before == AIR_BLOCK_ID && y + 5 < h ==> Filled(before, y, h, p) == p.stone
    ensures y >= h ==> Filled(before, y, h, p) == before
  {
    BandsPartitionColumn(y, h);
  }

  /** Filling a cell twice is filling it once. */
  lemma FilledIdempotent(before: BlockId, y: nat, h: nat, p: Palette)
    ensures Filled(Filled(before, y, h, p), y, h, p) == Filled(before, y, h, p)
  {
  }

  // ---------------------------------------------------------------------
  // What one request fills
  // ---------------------------------------------------------------------

  /** Block column (x, z) lies in the request's chunk footprint. */
  predicate InFootprint(ev: GrassChunkNeedsGeneratedEvent, x: nat, z: nat) {
    ev.x * CHUNK_DIMENSIONS <= x < ev.x * CHUNK_DIMENSIONS + CHUNK_DIMENSIONS &&
    ev.z * CHUNK_DIMENSIONS <= z < ev.z * CHUNK_DIMENSIONS + CHUNK_DIMENSIONS
  }

  function Min(a: int, b: int): int { if a < b then a else b }

  /**
    Cell (x, y, z) is visited by the request: its column is in the
    footprint and y runs from the chunk's bottom to the lower of the
    chunk's top and the column height.
   */
  predicate InFill(ev: GrassChunkNeedsGeneratedEvent, h: nat, x: nat, y: nat, z: nat) {
    InFootprint(ev, x, z) &&
    ev.y * CHUNK_DIMENSIONS <= y < Min(ev.y * CHUNK_DIMENSIONS + CHUNK_DIMENSIONS, h)
  }

  /** The block a request leaves at cell (x, y, z) of a structure `blocksHeight` blocks tall. */
  function AfterRequest(before: BlockId, ev: GrassChunkNeedsGeneratedEvent, blocksHeight: nat, noise: Noise, p: Palette,
                        x: nat, y: nat, z: nat): BlockId {
    var h := ColumnHeight(blocksHeight, noise, x, z);
    if InFill(ev, h, x, y, z) then Filled(before, y, h, p) else before
  }

  /** Serving the same request twice is serving it once. */
  lemma AfterRequestIdempotent(before: BlockId, ev: GrassChunkNeedsGeneratedEvent, blocksHeight: nat, noise: Noise,
                               p: Palette, x: nat, y: nat, z: nat)
    ensures var once := AfterRequest(before, ev, blocksHeight, noise, p, x, y, z);
            AfterRequest(once, ev, blocksHeight, noise, p, x, y, z) == once
  {
    FilledIdempotent(before, y, ColumnHeight(blocksHeight, noise, x, z), p);
  }

  // ---------------------------------------------------------------------
  // What a batch of requests fills
  // ---------------------------------------------------------------------

  /** The block that the requests `events`, in order, leave at a cell of structure se. */
  function Generated(before: BlockId, se: Entity, blocksHeight: nat, events: seq<GrassChunkNeedsGeneratedEvent>,
                     noise: Noise, p: Palette, x: nat, y: nat, z: nat): BlockId
  {
    if events == [] then before
    else
      var prev := Generated(before, se, blocksHeight, events[..|events| - 1], noise, p, x, y, z);
      var ev := events[|events| - 1];
      if ev.structureEntity == se then AfterRequest(prev, ev, blocksHeight, noise, p, x, y, z) else prev
  }

  /** Some request of `events` for se visits cell (x, y, z). */
  ghost predicate Covered(se: Entity, blocksHeight: nat, events: seq<GrassChunkNeedsGeneratedEvent>,
                          noise: Noise, x: nat, y: nat, z: nat)
  {
    exists j | 0 <= j < |events| ::
      events[j].structureEntity == se && InFill(events[j], ColumnHeight(blocksHeight, noise, x, z), x, y, z)
  }

  /**
    A batch fills a cell as one request would when some request visits
    it, and leaves it as it was otherwise: requests never compete for a
    cell, since the column height and band are the same for each.
   */
  lemma {:induction false} GeneratedClosedForm(before: BlockId, se: Entity, blocksHeight: nat,
                                               events: seq<GrassChunkNeedsGeneratedEvent>, noise: Noise, p: Palette,
                                               x: nat, y: nat, z: nat)
    ensures Generated(before, se, blocksHeight, events, noise, p, x, y, z) ==
              if Covered(se, blocksHeight, events, noise, x, y, z)
              then Filled(before, y, ColumnHeight(blocksHeight, noise, x, z), p)
              else before
  {
    if events != [] {
      var prefix := events[..|events| - 1];
      var ev := events[|events| - 1];
      var h := ColumnHeight(blocksHeight, noise, x, z);
      GeneratedClosedForm(before, se, blocksHeight, prefix, noise, p, x, y, z);
      FilledIdempotent(before, y, h, p);
      assert Covered(se, blocksHeight, events, noise, x, y, z) <==>
             Covered(se, blocksHeight, prefix, noise, x, y, z) || (ev.structureEntity == se && InFill(ev, h, x, y, z)) by {
        assert forall j | 0 <= j < |prefix| :: prefix[j] == events[j];
        if Covered(se, blocksHeight, events, noise, x, y, z) {
          var j :| 0 <= j < |events| && events[j].structureEntity == se && InFill(events[j], h, x, y, z);
          if j < |prefix| {
            assert prefix[j] == events[j];
          }
        }
      }
    }
  }

  /** Generating a batch twice, with no edits in between, is generating it once. */
  lemma GeneratedIdempotent(before: BlockId, se: Entity, blocksHeight: nat, events: seq<GrassChunkNeedsGeneratedEvent>,
                            noise: Noise, p: Palette, x: nat, y: nat, z: nat)
    ensures var once := Generated(before, se, blocksHeight, events, noise, p, x, y, z);
            Generated(once, se, blocksHeight, events, noise, p, x, y, z) == once
  {
    var once := Generated(before, se, blocksHeight, events, noise, p, x, y, z);
    GeneratedClosedForm(before, se, blocksHeight, events, noise, p, x, y, z);
    GeneratedClosedForm(once, se, blocksHeight, events, noise, p, x, y, z);
    FilledIdempotent(before, y, ColumnHeight(blocksHeight, noise, x, z), p);
  }

  /** A cell that already holds a block is never overwritten, and a cell no request visits is untouched. */
  lemma GeneratedNeverOverwrites(before: BlockId, se: Entity, blocksHeight: nat,
                                 events: seq<GrassChunkNeedsGeneratedEvent>, noise: Noise, p: Palette,
                                 x: nat, y: nat, z: nat)
    ensures before != AIR_BLOCK_ID ==> Generated(before, se, blocksHeight, events, noise, p, x, y, z) == before
    ensures !Covered(se, blocksHeight, events, noise, x, y, z) ==>
              Generated(before, se, blocksHeight, events, noise, p, x, y, z) == before
  {
    GeneratedClosedForm(before, se, blocksHeight, events, noise, p, x, y, z);
  }

  lemma GeneratedSnoc(before: BlockId, se: Entity, blocksHeight: nat, events: seq<GrassChunkNeedsGeneratedEvent>,
                      ev: GrassChunkNeedsGeneratedEvent, noise: Noise, p: Palette, x: nat, y: nat, z: nat)
    ensures Generated(before, se, blocksHeight, events + [ev], noise, p, x, y, z) ==
              var prev := Generated(before, se, blocksHeight, events, noise, p, x, y, z);
              if ev.structureEntity == se then AfterRequest(prev, ev, blocksHeight, noise, p, x, y, z) else prev
  {
    assert (events + [ev])[..|events|] == events;
  }

  /** The ChunkSetEvent announcing the chunk of a request. */
  function SetEventOf(ev: GrassChunkNeedsGeneratedEvent): ChunkSetEvent {
    ChunkSetEvent(ev.structureEntity, ev.x, ev.y, ev.z)
  }

  /** The announcements of a batch of requests: one per request, in order. */
  function SetEventsOf(events: seq<GrassChunkNeedsGeneratedEvent>): seq<ChunkSetEvent> {
    if events == [] then [] else SetEventsOf(events[..|events| - 1]) + [SetEventOf(events[|events| - 1])]
  }

  /** The announcements carry, position by position, the chunk coordinates of the requests. */
  lemma {:induction false} SetEventsOfSpec(events: seq<GrassChunkNeedsGeneratedEvent>)
    ensures |SetEventsOf(events)| == |events|
    ensures forall j | 0 <= j < |events| ::
              SetEventsOf(events)[j] == ChunkSetEvent(events[j].structureEntity, events[j].x, events[j].y, events[j].z)
  {
    if events != [] {
      var prefix := events[..|events| - 1];
      SetEventsOfSpec(prefix);
      assert forall j | 0 <= j < |prefix| :: prefix[j] == events[j];
    }
  }

  // ---------------------------------------------------------------------
  // The filler
  // ---------------------------------------------------------------------

  /**
    `after` differs from `before`, over the cells of s, exactly in the
    cells y in [lo, hi) of block column (x, z), each of which is filled
    for a column of height h.
   */
  ghost predicate ColumnWritten(s: Structure, after: map<nat, Chunk>, before: map<nat, Chunk>,
                                x: nat, z: nat, lo: nat, hi: int, h: nat, p: Palette)
  {
    forall px: nat, py: nat, pz: nat | s.IsWithinBlocks(px, py, pz) ::
      BlockIdIn(after, s.width, s.height, px, py, pz) ==
        if px == x && pz == z && lo <= py < hi
        then Filled(BlockIdIn(before, s.width, s.height, px, py, pz), py, h, p)
        else BlockIdIn(before, s.width, s.height, px, py, pz)
  }

  /** Every cell y in [lo, hi) of column (x, z) is already as the fill would leave it. */
  ghost predicate ColumnSettled(s: Structure, before: map<nat, Chunk>, x: nat, z: nat, lo: nat, hi: int, h: nat, p: Palette) {
    forall py: nat | lo <= py < hi ::
      Filled(BlockIdIn(before, s.width, s.height, x, py, z), py, h, p) == BlockIdIn(before, s.width, s.height, x, py, z)
  }

  /**
    The innermost loop: fills the air cells of block column (x, z) from
    `startY` up to the lower of `startY + CHUNK_DIMENSIONS` and the column
    height h, with no event writer.
   */
  method FillColumn(s: Structure, x: nat, z: nat, startY: nat, h: nat, p: Palette)
    requires x < s.BlocksWidth() && z < s.BlocksLength() && startY + CHUNK_DIMENSIONS <= s.BlocksHeight()
    modifies s
    ensures ColumnWritten(s, s.chunks, old(s.chunks), x, z, startY, Min(startY + CHUNK_DIMENSIONS, h), h, p)
    ensures ColumnSettled(s, old(s.chunks), x, z, startY, Min(startY + CHUNK_DIMENSIONS, h), h, p) ==>
              s.chunks == old(s.chunks)
    ensures s.chunkEntities == old(s.chunkEntities) && s.chunkEntityMap == old(s.chunkEntityMap)
    ensures s.selfEntity == old(s.selfEntity)
    ensures old(s.ChunksNonEmpty()) ==> s.ChunksNonEmpty()
    ensures old(AllValid(s.chunks)) ==> AllValid(s.chunks)
  {
    ghost var before := s.chunks;
    var top := Min(startY + CHUNK_DIMENSIONS, h);
    var y := startY;
    while y < top
      invariant startY <= y && (y <= top || top < startY)
      invariant ColumnWritten(s, s.chunks, before, x, z, startY, y, h, p)
      invariant ColumnSettled(s, before, x, z, startY, top, h, p) ==> s.chunks == before
      invariant s.chunkEntities == old(s.chunkEntities) && s.chunkEntityMap == old(s.chunkEntityMap)
      invariant s.selfEntity == old(s.selfEntity)
      invariant old(s.ChunksNonEmpty()) ==> s.ChunksNonEmpty()
      invariant old(AllValid(s.chunks)) ==> AllValid(s.chunks)
    {
      FillCell(s, x, y, z, h, p, before, startY);
      y := y + 1;
    }
  }

  /** One step of the innermost loop: fills cell (x, y, z) when it holds air and lies in a band. */
  method FillCell(s: Structure, x: nat, y: nat, z: nat, h: nat, p: Palette, ghost before: map<nat, Chunk>, ghost startY: nat)
    requires s.IsWithinBlocks(x, y, z) && startY <= y
    requires ColumnWritten(s, s.chunks, before, x, z, startY, y, h, p)
    modifies s
    ensures ColumnWritten(s, s.chunks, before, x, z, startY, y + 1, h, p)
    ensures Filled(BlockIdIn(before, s.width, s.height, x, y, z), y, h, p) == BlockIdIn(before, s.width, s.height, x, y, z) ==>
              s.chunks == old(s.chunks)
    ensures s.chunkEntities == old(s.chunkEntities) && s.chunkEntityMap == old(s.chunkEntityMap)
    ensures s.selfEntity == old(s.selfEntity)
    ensures old(s.ChunksNonEmpty()) ==> s.ChunksNonEmpty()
    ensures old(AllValid(s.chunks)) ==> AllValid(s.chunks)
  {
    ghost var was := BlockIdIn(before, s.width, s.height, x, y, z);
    assert s.BlockIdAt(x, y, z) == was;
    if !s.HasBlockAt(x, y, z) {
      match BandAt(y, h)
      case Some(b) =>
        s.SetBlockAt(x, y, z, BandBlock(b, p), null);
      case None =>
    }
  }

  /** Column (px, pz) comes before column (x, z) in the filler's order: z outer, x inner. */
  predicate ColumnBefore(px: nat, pz: nat, x: nat, z: nat) {
    pz < z || (pz == z && px < x)
  }

  /**
    `after` is `before` with the columns before (x, z) served for request
    ev and every other cell of s as it was.
   */
  ghost predicate RequestDoneUpTo(s: Structure, after: map<nat, Chunk>, before: map<nat, Chunk>,
                                  ev: GrassChunkNeedsGeneratedEvent, noise: Noise, p: Palette, x: nat, z: nat)
  {
    forall px: nat, py: nat, pz: nat | s.IsWithinBlocks(px, py, pz) ::
      BlockIdIn(after, s.width, s.height, px, py, pz) ==
        if ColumnBefore(px, pz, x, z)
        then AfterRequest(BlockIdIn(before, s.width, s.height, px, py, pz), ev, s.BlocksHeight(), noise, p, px, py, pz)
        else BlockIdIn(before, s.width, s.height, px, py, pz)
  }

  /** `after` is `before` with request ev served. */
  ghost predicate RequestDone(s: Structure, after: map<nat, Chunk>, before: map<nat, Chunk>,
                              ev: GrassChunkNeedsGeneratedEvent, noise: Noise, p: Palette)
  {
    forall px: nat, py: nat, pz: nat | s.IsWithinBlocks(px, py, pz) ::
      BlockIdIn(after, s.width, s.height, px, py, pz) ==
        AfterRequest(BlockIdIn(before, s.width, s.height, px, py, pz), ev, s.BlocksHeight(), noise, p, px, py, pz)
  }

  /** Serving request ev would change no cell of `chunks`. */
  ghost predicate RequestSettled(s: Structure, chunks: map<nat, Chunk>, ev: GrassChunkNeedsGeneratedEvent,
                                 noise: Noise, p: Palette)
  {
    forall px: nat, py: nat, pz: nat | s.IsWithinBlocks(px, py, pz) ::
      AfterRequest(BlockIdIn(chunks, s.width, s.height, px, py, pz), ev, s.BlocksHeight(), noise, p, px, py, pz)
        == BlockIdIn(chunks, s.width, s.height, px, py, pz)
  }

  /**
    What the source needs of a request to serve it without panicking: the
    structure is queried, the chunk lies inside it, the structure is at
    least 23 blocks tall and every column of the footprint is at least 5
    blocks high.
   */
  ghost predicate Servable(s: Structure, ev: GrassChunkNeedsGeneratedEvent, noise: Noise) {
    && s.ChunkInBounds(ev.x, ev.y, ev.z)
    && s.BlocksHeight() >= AIR_DEPTH
    && forall x: nat, z: nat | InFootprint(ev, x, z) :: ColumnHeight(s.BlocksHeight(), noise, x, z) >= 5
  }

  /** Nothing is served before the first column. */
  lemma DoneAtStart(s: Structure, before: map<nat, Chunk>, ev: GrassChunkNeedsGeneratedEvent, noise: Noise, p: Palette)
    ensures RequestDoneUpTo(s, before, before, ev, noise, p, ev.x * CHUNK_DIMENSIONS, ev.z * CHUNK_DIMENSIONS)
  {
  }

  /** Serving column (x, z) moves the boundary one column on. */
  lemma DoneColumn(s: Structure, c1: map<nat, Chunk>, c2: map<nat, Chunk>, before: map<nat, Chunk>,
                   ev: GrassChunkNeedsGeneratedEvent, noise: Noise, p: Palette, x: nat, z: nat)
    requires InFootprint(ev, x, z)
    requires RequestDoneUpTo(s, c1, before, ev, noise, p, x, z)
    requires var h := ColumnHeight(s.BlocksHeight(), noise, x, z);
             ColumnWritten(s, c2, c1, x, z, ev.y * CHUNK_DIMENSIONS, Min(ev.y * CHUNK_DIMENSIONS + CHUNK_DIMENSIONS, h), h, p)
    ensures RequestDoneUpTo(s, c2, before, ev, noise, p, x + 1, z)
  {
  }

  /** After the last column of a row the next row starts. */
  lemma DoneRow(s: Structure, c: map<nat, Chunk>, before: map<nat, Chunk>,
                ev: GrassChunkNeedsGeneratedEvent, noise: Noise, p: Palette, z: nat)
    requires RequestDoneUpTo(s, c, before, ev, noise, p, ev.x * CHUNK_DIMENSIONS + CHUNK_DIMENSIONS, z)
    ensures RequestDoneUpTo(s, c, before, ev, noise, p, ev.x * CHUNK_DIMENSIONS, z + 1)
  {
  }

  /** After the last row the request is served. */
  lemma DoneAll(s: Structure, c: map<nat, Chunk>, before: map<nat, Chunk>,
                ev: GrassChunkNeedsGeneratedEvent, noise: Noise, p: Palette)
    requires RequestDoneUpTo(s, c, before, ev, noise, p, ev.x * CHUNK_DIMENSIONS, ev.z * CHUNK_DIMENSIONS + CHUNK_DIMENSIONS)
    ensures RequestDone(s, c, before, ev, noise, p)
  {
  }

  /** A settled request leaves every column of its footprint settled. */
  lemma SettledColumn(s: Structure, before: map<nat, Chunk>, ev: GrassChunkNeedsGeneratedEvent, noise: Noise, p: Palette,
                      x: nat, z: nat)
    requires InFootprint(ev, x, z) && x < s.BlocksWidth() && z < s.BlocksLength()
    requires ev.y * CHUNK_DIMENSIONS + CHUNK_DIMENSIONS <= s.BlocksHeight()
    requires RequestSettled(s, before, ev, noise, p)
    ensures var h := ColumnHeight(s.BlocksHeight(), noise, x, z);
            ColumnSettled(s, before, x, z, ev.y * CHUNK_DIMENSIONS, Min(ev.y * CHUNK_DIMENSIONS + CHUNK_DIMENSIONS, h), h, p)
  {
    var h := ColumnHeight(s.BlocksHeight(), noise, x, z);
    forall py: nat | ev.y * CHUNK_DIMENSIONS <= py < Min(ev.y * CHUNK_DIMENSIONS + CHUNK_DIMENSIONS, h)
      ensures Filled(BlockIdIn(before, s.width, s.height, x, py, z), py, h, p) == BlockIdIn(before, s.width, s.height, x, py, z)
    {
      assert s.IsWithinBlocks(x, py, z);
    }
  }

  /** The footprint of an in-bounds chunk lies inside the structure. */
  lemma FootprintInside(s: Structure, ev: GrassChunkNeedsGeneratedEvent)
    requires s.ChunkInBounds(ev.x, ev.y, ev.z)
    ensures ev.x * CHUNK_DIMENSIONS + CHUNK_DIMENSIONS <= s.BlocksWidth()
    ensures ev.y * CHUNK_DIMENSIONS + CHUNK_DIMENSIONS <= s.BlocksHeight()
    ensures ev.z * CHUNK_DIMENSIONS + CHUNK_DIMENSIONS <= s.BlocksLength()
  {
    MulMonotone(CHUNK_DIMENSIONS, ev.x + 1, s.width);
    MulMonotone(CHUNK_DIMENSIONS, ev.y + 1, s.height);
    MulMonotone(CHUNK_DIMENSIONS, ev.z + 1, s.length);
  }

  /**
    One pass of the middle loop: computes the height of block column
    (x, z) and fills that column of the request's chunk.
   */
  method FillRequestColumn(s: Structure, ev: GrassChunkNeedsGeneratedEvent, noise: Noise, p: Palette, x: nat, z: nat,
                           ghost before: map<nat, Chunk>)
    requires Servable(s, ev, noise) && InFootprint(ev, x, z)
    requires RequestDoneUpTo(s, s.chunks, before, ev, noise, p, x, z)
    modifies s
    ensures RequestDoneUpTo(s, s.chunks, before, ev, noise, p, x + 1, z)
    ensures RequestSettled(s, before, ev, noise, p) && old(s.chunks) == before ==> s.chunks == before
    ensures s.chunkEntities == old(s.chunkEntities) && s.chunkEntityMap == old(s.chunkEntityMap)
    ensures s.selfEntity == old(s.selfEntity)
    ensures old(s.ChunksNonEmpty()) ==> s.ChunksNonEmpty()
    ensures old(AllValid(s.chunks)) ==> AllValid(s.chunks)
  {
    FootprintInside(s, ev);
    ghost var c1 := s.chunks;
    var h := ColumnHeight(s.BlocksHeight(), noise, x, z);
    if RequestSettled(s, before, ev, noise, p) && c1 == before {
      SettledColumn(s, before, ev, noise, p, x, z);
    }
    FillColumn(s, x, z, ev.y * CHUNK_DIMENSIONS, h, p);
    DoneColumn(s, c1, s.chunks, before, ev, noise, p, x, z);
  }

  /**
    Serves one generation request: walks the request's chunk footprint, z
    outer and x inner, filling each column. Serving a request whose cells
    are already as it would leave them changes nothing.
   */
  method FillChunk(s: Structure, ev: GrassChunkNeedsGeneratedEvent, noise: Noise, p: Palette)
    requires Servable(s, ev, noise)
    modifies s
    ensures RequestDone(s, s.chunks, old(s.chunks), ev, noise, p)
    ensures RequestSettled(s, old(s.chunks), ev, noise, p) ==> s.chunks == old(s.chunks)
    ensures s.chunkEntities == old(s.chunkEntities) && s.chunkEntityMap == old(s.chunkEntityMap)
    ensures s.selfEntity == old(s.selfEntity)
    ensures old(s.ChunksNonEmpty()) ==> s.ChunksNonEmpty()
    ensures old(AllValid(s.chunks)) ==> AllValid(s.chunks)
  {
    ghost var before := s.chunks;
    var startX, startZ := ev.x * CHUNK_DIMENSIONS, ev.z * CHUNK_DIMENSIONS;
    DoneAtStart(s, before, ev, noise, p);
    var z := startZ;
    while z < startZ + CHUNK_DIMENSIONS
      invariant startZ <= z <= startZ + CHUNK_DIMENSIONS
      invariant RequestDoneUpTo(s, s.chunks, before, ev, noise, p, startX, z)
      invariant RequestSettled(s, before, ev, noise, p) ==> s.chunks == before
      invariant s.chunkEntities == old(s.chunkEntities) && s.chunkEntityMap == old(s.chunkEntityMap)
      invariant s.selfEntity == old(s.selfEntity)
      invariant old(s.ChunksNonEmpty()) ==> s.ChunksNonEmpty()
      invariant old(AllValid(s.chunks)) ==> AllValid(s.chunks)
    {
      var x := startX;
      while x < startX + CHUNK_DIMENSIONS
        invariant startX <= x <= startX + CHUNK_DIMENSIONS
        invariant RequestDoneUpTo(s, s.chunks, before, ev, noise, p, x, z)
        invariant RequestSettled(s, before, ev, noise, p) ==> s.chunks == before
        invariant s.chunkEntities == old(s.chunkEntities) && s.chunkEntityMap == old(s.chunkEntityMap)
        invariant s.selfEntity == old(s.selfEntity)
        invariant old(s.ChunksNonEmpty()) ==> s.ChunksNonEmpty()
        invariant old(AllValid(s.chunks)) ==> AllValid(s.chunks)
      {
        FillRequestColumn(s, ev, noise, p, x, z, before);
        x := x + 1;
      }
      DoneRow(s, s.chunks, before, ev, noise, p, z);
      z := z + 1;
    }
    DoneAll(s, s.chunks, before, ev, noise, p);
  }

  /** `after` is `before` with the requests `events` for structure se served, in order. */
  ghost predicate GeneratedFrom(s: Structure, se: Entity, after: map<nat, Chunk>, before: map<nat, Chunk>,
                                events: seq<GrassChunkNeedsGeneratedEvent>, noise: Noise, p: Palette)
  {
    forall px: nat, py: nat, pz: nat | s.IsWithinBlocks(px, py, pz) ::
      BlockIdIn(after, s.width, s.height, px, py, pz) ==
        Generated(BlockIdIn(before, s.width, s.height, px, py, pz), se, s.BlocksHeight(), events, noise, p, px, py, pz)
  }

  /** A request for another structure leaves what se has generated so far as it is. */
  lemma GeneratedFromOther(s: Structure, se: Entity, chunks: map<nat, Chunk>, before: map<nat, Chunk>,
                           events: seq<GrassChunkNeedsGeneratedEvent>, ev: GrassChunkNeedsGeneratedEvent,
                           noise: Noise, p: Palette)
    requires ev.structureEntity != se && GeneratedFrom(s, se, chunks, before, events, noise, p)
    ensures GeneratedFrom(s, se, chunks, before, events + [ev], noise, p)
  {
    forall px: nat, py: nat, pz: nat | s.IsWithinBlocks(px, py, pz) {
      GeneratedSnoc(BlockIdIn(before, s.width, s.height, px, py, pz), se, s.BlocksHeight(), events, ev, noise, p, px, py, pz);
    }
  }

  /** Serving a request for se extends what se has generated so far by that request. */
  lemma GeneratedFromOwn(s: Structure, se: Entity, c1: map<nat, Chunk>, c2: map<nat, Chunk>, before: map<nat, Chunk>,
                         events: seq<GrassChunkNeedsGeneratedEvent>, ev: GrassChunkNeedsGeneratedEvent,
                         noise: Noise, p: Palette)
    requires ev.structureEntity == se && GeneratedFrom(s, se, c1, before, events, noise, p)
    requires RequestDone(s, c2, c1, ev, noise, p)
    ensures GeneratedFrom(s, se, c2, before, events + [ev], noise, p)
  {
    forall px: nat, py: nat, pz: nat | s.IsWithinBlocks(px, py, pz) {
      GeneratedSnoc(BlockIdIn(before, s.width, s.height, px, py, pz), se, s.BlocksHeight(), events, ev, noise, p, px, py, pz);
    }
  }

  /**
    Structure se is its snapshot with the requests `events` for it served:
    its blocks are what they generate from the snapshot's, its other fields
    are the snapshot's, and its chunks stay non-empty and well-formed when
    they were.
   */
  ghost predicate GeneratedAfter(query: Query, se: Entity, snap: Snapshot, events: seq<GrassChunkNeedsGeneratedEvent>,
                                 noise: Noise, p: Palette)
    requires se in query
    reads query[se]
  {
    var s := query[se];
    && GeneratedFrom(s, se, s.chunks, snap.chunks, events, noise, p)
    && s.chunkEntities == snap.chunkEntities && s.chunkEntityMap == snap.chunkEntityMap
    && s.selfEntity == snap.selfEntity
    && (AllNonEmpty(snap.chunks) ==> s.ChunksNonEmpty())
    && (AllValid(snap.chunks) ==> AllValid(s.chunks))
  }

  /** Every queried structure is its snapshot with the requests `events` for it served. */
  ghost predicate AllGeneratedAfter(query: Query, snaps: map<Entity, Snapshot>, events: seq<GrassChunkNeedsGeneratedEvent>,
                                    noise: Noise, p: Palette)
    reads Objects(query)
  {
    forall se | se in query :: se in snaps && GeneratedAfter(query, se, snaps[se], events, noise, p)
  }

  /**
    The generation system: serves each request of the batch in turn, on
    the structure it names, and sends one ChunkSetEvent per request. Every
    queried structure ends with exactly the blocks the requests for it
    generate from its blocks before the batch; nothing else changes.
   */
  method GeneratePlanet(query: Query, events: seq<GrassChunkNeedsGeneratedEvent>, writer: EventWriter<ChunkSetEvent>,
                        noise: Noise, p: Palette)
    requires Injective(query)
    requires forall j | 0 <= j < |events| :: events[j].structureEntity in query
    requires forall j | 0 <= j < |events| :: Servable(query[events[j].structureEntity], events[j], noise)
    modifies Objects(query), writer
    ensures writer.sent == old(writer.sent) + SetEventsOf(events)
    ensures forall se | se in query :: GeneratedAfter(query, se, old(SnapshotOf(query[se])), events, noise, p)
  {
    ghost var snaps := Snapshots(query);
    ghost var sent0 := writer.sent;
    assert forall se | se in query :: se in snaps && snaps[se] == SnapshotOf(query[se]);
    NothingGeneratedYet(query, snaps, events, noise, p);
    var j := 0;
    while j < |events|
      invariant 0 <= j <= |events|
      invariant writer.sent == sent0 + SetEventsOf(events[..j])
      invariant AllGeneratedAfter(query, snaps, events[..j], noise, p)
    {
      GenerateStep(query, events, j, writer, noise, p, snaps, sent0);
      j := j + 1;
    }
    assert events[..j] == events;
  }

  /** Before the first request every structure is its snapshot. */
  lemma NothingGeneratedYet(query: Query, snaps: map<Entity, Snapshot>, events: seq<GrassChunkNeedsGeneratedEvent>,
                            noise: Noise, p: Palette)
    requires forall se | se in query :: se in snaps && snaps[se] == SnapshotOf(query[se])
    ensures AllGeneratedAfter(query, snaps, events[..0], noise, p)
  {
    assert events[..0] == [];
  }

  /** One pass of the generation loop: serves request j and announces its chunk. */
  method GenerateStep(query: Query, events: seq<GrassChunkNeedsGeneratedEvent>, j: nat, writer: EventWriter<ChunkSetEvent>,
                      noise: Noise, p: Palette, ghost snaps: map<Entity, Snapshot>, ghost sent0: seq<ChunkSetEvent>)
    requires j < |events| && Injective(query)
    requires events[j].structureEntity in query && Servable(query[events[j].structureEntity], events[j], noise)
    requires AllGeneratedAfter(query, snaps, events[..j], noise, p)
    requires writer.sent == sent0 + SetEventsOf(events[..j])
    modifies query[events[j].structureEntity], writer
    ensures AllGeneratedAfter(query, snaps, events[..j + 1], noise, p)
    ensures writer.sent == sent0 + SetEventsOf(events[..j + 1])
  {
    ServeOne(query, events, j, noise, p, snaps);
    Announce(writer, events, j, sent0);
  }

  /** Sends the ChunkSetEvent of request j. */
  method Announce(writer: EventWriter<ChunkSetEvent>, events: seq<GrassChunkNeedsGeneratedEvent>, j: nat,
                  ghost sent0: seq<ChunkSetEvent>)
    requires j < |events| && writer.sent == sent0 + SetEventsOf(events[..j])
    modifies writer
    ensures writer.sent == sent0 + SetEventsOf(events[..j + 1])
  {
    assert events[..j + 1][..j] == events[..j];
    writer.Send(SetEventOf(events[j]));
  }

  /** One pass of the generation loop: serves request j on the structure it names. */
  method ServeOne(query: Query, events: seq<GrassChunkNeedsGeneratedEvent>, j: nat, noise: Noise, p: Palette,
                  ghost snaps: map<Entity, Snapshot>)
    requires j < |events| && Injective(query)
    requires events[j].structureEntity in query && Servable(query[events[j].structureEntity], events[j], noise)
    requires AllGeneratedAfter(query, snaps, events[..j], noise, p)
    modifies query[events[j].structureEntity]
    ensures AllGeneratedAfter(query, snaps, events[..j + 1], noise, p)
  {
    var ev := events[j];
    ghost var done := events[..j];
    assert events[..j + 1] == done + [ev];
    var se := ev.structureEntity;
    var s := query[se];
    ghost var c1 := s.chunks;
    FillChunk(s, ev, noise, p);
    GeneratedFromOwn(s, se, c1, s.chunks, snaps[se].chunks, done, ev, noise, p);
    forall other | other in query && other != se
      ensures GeneratedAfter(query, other, snaps[other], done + [ev], noise, p)
    {
      assert query[other] != s;
      assert old(GeneratedAfter(query, other, snaps[other], done, noise, p));
      GeneratedFromOther(query[other], other, query[other].chunks, snaps[other].chunks, done, ev, noise, p);
    }
  }
}
