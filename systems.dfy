/**
  The two per-tick systems that reconcile chunk occupancy with chunk
  entities. `AddChunksSystem` gathers the chunks named by this tick's block
  changes and chunk initialisations into a set, binds a freshly spawned
  entity to each named chunk that is stored, non-empty and not yet bound,
  and sends one ChunkSetEvent per initialised or newly bound chunk.
  `RemoveEmptyChunks`, which runs after it, despawns and unbinds the entity
  of every changed chunk that is no longer stored.

  The systems' query over structure components is a map from structure
  entity to Structure; distinct entities own distinct Structure objects.
 */
module ChunkSystems {
  import opened Wrappers
  import opened Vectors
  import opened Ecs
  import opened Chunks
  import opened Structures

  /** The deduplication key: a structure entity and a chunk coordinate in it. */
  datatype ChunkKey = ChunkKey(structure: Entity, chunk: ChunkCoord)

  type Query = map<Entity, Structure>

  ghost predicate Injective(query: Query) {
    forall a, b | a in query && b in query && a != b :: query[a] != query[b]
  }

  ghost function Objects(query: Query): set<Structure> {
    set se | se in query :: query[se]
  }

  predicate NoDuplicates<T(==)>(s: seq<T>) {
    forall i, j | 0 <= i < j < |s| :: s[i] != s[j]
  }

  /** The flattened index of a key's chunk in its structure. */
  function KeyIndex(s: Structure, c: ChunkCoord): nat {
    Flatten(c.x, c.y, c.z, s.width, s.height)
  }

  /** The keys named by a batch of block changes. */
  function ChangedChunkKeys(events: seq<BlockChangedEvent>): set<ChunkKey> {
    set i | 0 <= i < |events| :: ChunkKey(events[i].structureEntity, events[i].block.ChunkCoords())
  }

  /** The keys named by a batch of chunk initialisations. */
  function InitChunkKeys(inits: seq<ChunkInitEvent>): set<ChunkKey> {
    set i | 0 <= i < |inits| :: ChunkKey(inits[i].structureEntity, ChunkCoord(inits[i].x, inits[i].y, inits[i].z))
  }

  function SetEventFor(k: ChunkKey): ChunkSetEvent {
    ChunkSetEvent(k.structure, k.chunk.x, k.chunk.y, k.chunk.z)
  }

  /** Every key that names a queried structure names a chunk inside it. */
  predicate KeysInBounds(query: Query, keys: set<ChunkKey>) {
    forall k | k in keys && k.structure in query ::
      query[k.structure].ChunkInBounds(k.chunk.x, k.chunk.y, k.chunk.z)
  }

  /** The reconciler-relevant fields of a structure at one moment. */
  datatype Snapshot = Snapshot(chunks: map<nat, Chunk>, selfEntity: Option<Entity>,
                               chunkEntities: map<nat, Entity>, chunkEntityMap: map<Entity, nat>)

  ghost function SnapshotOf(s: Structure): Snapshot
    reads s
  {
    Snapshot(s.chunks, s.selfEntity, s.chunkEntities, s.chunkEntityMap)
  }

  ghost function Snapshots(query: Query): map<Entity, Snapshot>
    reads Objects(query)
  {
    map se | se in query :: SnapshotOf(query[se])
  }

  /**
    A key whose structure is queried and whose chunk, in the snapshots, is
    stored, non-empty and has no entity yet.
   */
  predicate NeedsBinding(query: Query, snaps: map<Entity, Snapshot>, k: ChunkKey) {
    && k.structure in query && k.structure in snaps
    && var snap := snaps[k.structure];
       var i := KeyIndex(query[k.structure], k.chunk);
       i in snap.chunks && !snap.chunks[i].IsEmpty() && i !in snap.chunkEntities
  }

  /** The commands that bind entity e to key k: spawn at the chunk's position, then parent it. */
  function BindCommands(query: Query, k: ChunkKey, e: Entity): seq<Command>
    requires k.structure in query
  {
    [Command.Spawn(e, query[k.structure].ChunkRelativePosition(k.chunk.x, k.chunk.y, k.chunk.z)),
     Command.AddChild(k.structure, e)]
  }

  /** The command log for binding `order[j]` to entity `next0 + j`, in order. */
  function SpawnLog(query: Query, order: seq<ChunkKey>, next0: nat): seq<Command>
    requires forall j | 0 <= j < |order| :: order[j].structure in query
  {
    if order == [] then []
    else SpawnLog(query, order[..|order| - 1], next0) +
         BindCommands(query, order[|order| - 1], next0 + |order| - 1)
  }

  /** The chunk -> entity bindings that `order` adds to structure se. */
  function NewBindings(query: Query, se: Entity, order: seq<ChunkKey>, next0: nat): map<nat, Entity>
    requires se in query
  {
    if order == [] then map[]
    else
      var m := NewBindings(query, se, order[..|order| - 1], next0);
      var k := order[|order| - 1];
      if k.structure == se then m[KeyIndex(query[se], k.chunk) := next0 + |order| - 1] else m
  }

  /** The entity -> chunk bindings that `order` adds to structure se. */
  function NewReverse(query: Query, se: Entity, order: seq<ChunkKey>, next0: nat): map<Entity, nat>
    requires se in query
  {
    if order == [] then map[]
    else
      var m := NewReverse(query, se, order[..|order| - 1], next0);
      var k := order[|order| - 1];
      if k.structure == se then m[next0 + |order| - 1 := KeyIndex(query[se], k.chunk)] else m
  }

  /** The ChunkSetEvents for the keys in `order`. */
  function BindSets(order: seq<ChunkKey>): set<ChunkSetEvent> {
    set j | 0 <= j < |order| :: SetEventFor(order[j])
  }

  /**
    Structure se differs from its snapshot exactly by the bindings of
    `order`: its chunks and own entity are as they were, and each key of
    `order` for se is bound, both ways, to entity `next0 + j`.
   */
  ghost predicate BoundAfter(query: Query, se: Entity, snap: Snapshot, order: seq<ChunkKey>, next0: nat)
    requires se in query
    reads query[se]
  {
    var s := query[se];
    && s.chunks == snap.chunks && s.selfEntity == snap.selfEntity
    && s.chunkEntities == snap.chunkEntities + NewBindings(query, se, order, next0)
    && s.chunkEntityMap == snap.chunkEntityMap + NewReverse(query, se, order, next0)
  }

  lemma BindSetsSnoc(order: seq<ChunkKey>, k: ChunkKey)
    ensures BindSets(order + [k]) == BindSets(order) + {SetEventFor(k)}
  {
    var extended := order + [k];
    assert forall j | 0 <= j < |order| :: extended[j] == order[j];
    assert extended[|order|] == k;
  }

  lemma UnionUpdate<K, V>(a: map<K, V>, b: map<K, V>, k: K, v: V)
    ensures (a + b)[k := v] == a + b[k := v]
  {
  }

  lemma NewBindingsSnoc(query: Query, se: Entity, order: seq<ChunkKey>, k: ChunkKey, next0: nat)
    requires se in query
    ensures NewBindings(query, se, order + [k], next0) ==
              if k.structure == se then NewBindings(query, se, order, next0)[KeyIndex(query[se], k.chunk) := next0 + |order|]
              else NewBindings(query, se, order, next0)
    ensures NewReverse(query, se, order + [k], next0) ==
              if k.structure == se then NewReverse(query, se, order, next0)[next0 + |order| := KeyIndex(query[se], k.chunk)]
              else NewReverse(query, se, order, next0)
  {
    assert (order + [k])[..|order|] == order;
  }

  lemma SpawnLogSnoc(query: Query, log0: seq<Command>, order: seq<ChunkKey>, k: ChunkKey, next0: nat)
    requires forall j | 0 <= j < |order| :: order[j].structure in query
    requires k.structure in query
    ensures forall j | 0 <= j < |order + [k]| :: (order + [k])[j].structure in query
    ensures log0 + SpawnLog(query, order + [k], next0) ==
              (log0 + SpawnLog(query, order, next0)) + BindCommands(query, k, next0 + |order|)
  {
    assert (order + [k])[..|order|] == order;
  }

  /**
    The chunk indices `order` binds in structure se are exactly the indices
    of its keys for se; a key outside `order` whose chunk lies in bounds
    therefore never collides with one of them.
   */
  lemma {:induction false} NewBindingsAvoid(query: Query, se: Entity, order: seq<ChunkKey>, next0: nat, k: ChunkKey)
    requires se in query && k.structure == se && k !in order
    requires query[se].ChunkInBounds(k.chunk.x, k.chunk.y, k.chunk.z)
    requires forall j | 0 <= j < |order| && order[j].structure == se ::
               query[se].ChunkInBounds(order[j].chunk.x, order[j].chunk.y, order[j].chunk.z)
    ensures KeyIndex(query[se], k.chunk) !in NewBindings(query, se, order, next0)
  {
    if order != [] {
      var prefix := order[..|order| - 1];
      var last := order[|order| - 1];
      forall j | 0 <= j < |prefix| && prefix[j].structure == se
        ensures query[se].ChunkInBounds(prefix[j].chunk.x, prefix[j].chunk.y, prefix[j].chunk.z)
      {
        assert prefix[j] == order[j];
      }
      assert order == prefix + [last];
      NewBindingsAvoid(query, se, prefix, next0, k);
      if last.structure == se {
        var s := query[se];
        if KeyIndex(s, k.chunk) == KeyIndex(s, last.chunk) {
          FlattenInjective(k.chunk.x, k.chunk.y, k.chunk.z, last.chunk.x, last.chunk.y, last.chunk.z,
                           s.width, s.height);
          assert false;
        }
      }
    }
  }

  /** Collects the keys of a batch of block changes into a set. */
  method CollectChangedChunks(events: seq<BlockChangedEvent>) returns (keys: set<ChunkKey>)
    ensures keys == ChangedChunkKeys(events)
  {
    keys := {};
    var n := 0;
    while n < |events|
      invariant 0 <= n <= |events|
      invariant keys == ChangedChunkKeys(events[..n])
    {
      var ev := events[n];
      keys := keys + {ChunkKey(ev.structureEntity, ev.block.ChunkCoords())};
      assert events[..n + 1] == events[..n] + [ev];
      n := n + 1;
    }
    assert events[..n] == events;
  }

  /** Collects the keys of a batch of chunk initialisations, and their ChunkSetEvents. */
  method CollectInitChunks(inits: seq<ChunkInitEvent>) returns (keys: set<ChunkKey>, sets: set<ChunkSetEvent>)
    ensures keys == InitChunkKeys(inits)
    ensures sets == set k | k in keys :: SetEventFor(k)
  {
    keys, sets := {}, {};
    var n := 0;
    while n < |inits|
      invariant 0 <= n <= |inits|
      invariant keys == InitChunkKeys(inits[..n])
      invariant sets == set k | k in keys :: SetEventFor(k)
    {
      var ev := inits[n];
      var k := ChunkKey(ev.structureEntity, ChunkCoord(ev.x, ev.y, ev.z));
      keys := keys + {k};
      sets := sets + {ChunkSetEvent(ev.structureEntity, ev.x, ev.y, ev.z)};
      assert inits[..n + 1] == inits[..n] + [ev];
      n := n + 1;
    }
    assert inits[..n] == inits;
  }

  /** Sends every event of a set exactly once, in some order. */
  method SendAll(writer: EventWriter<ChunkSetEvent>, events: set<ChunkSetEvent>)
    modifies writer
    ensures |writer.sent| == |old(writer.sent)| + |events|
    ensures writer.sent[..|old(writer.sent)|] == old(writer.sent)
    ensures NoDuplicates(writer.sent[|old(writer.sent)|..])
    ensures forall e :: e in writer.sent[|old(writer.sent)|..] <==> e in events
  {
    var remaining := events;
    ghost var sentNow: seq<ChunkSetEvent> := [];
    while remaining != {}
      decreases remaining
      invariant remaining <= events
      invariant writer.sent == old(writer.sent) + sentNow
      invariant |sentNow| + |remaining| == |events|
      invariant NoDuplicates(sentNow)
      invariant forall e :: e in sentNow <==> e in events - remaining
    {
      var ev :| ev in remaining;
      assert ev !in sentNow;
      writer.Send(ev);
      sentNow := sentNow + [ev];
      remaining := remaining - {ev};
    }
    assert writer.sent[|old(writer.sent)|..] == sentNow;
  }

  /**
    One step of the binding pass: when the chunk at c is stored, non-empty
    and unbound, spawns an entity at the chunk's position, parents it to the
    structure entity se and binds it to the chunk.
   */
  method BindChunk(s: Structure, se: Entity, c: ChunkCoord, commands: Commands) returns (bound: bool)
    requires s.ChunkInBounds(c.x, c.y, c.z)
    modifies s, commands
    ensures bound <==> (var i := KeyIndex(s, c);
                        i in old(s.chunks) && !old(s.chunks)[i].IsEmpty() && i !in old(s.chunkEntities))
    ensures s.chunks == old(s.chunks) && s.selfEntity == old(s.selfEntity)
    ensures bound ==> && commands.next == old(commands.next) + 1
                      && commands.log == old(commands.log) +
                           [Command.Spawn(old(commands.next), s.ChunkRelativePosition(c.x, c.y, c.z)),
                            Command.AddChild(se, old(commands.next))]
                      && s.chunkEntities == old(s.chunkEntities)[KeyIndex(s, c) := old(commands.next)]
                      && s.chunkEntityMap == old(s.chunkEntityMap)[old(commands.next) := KeyIndex(s, c)]
    ensures !bound ==> && commands.next == old(commands.next) && commands.log == old(commands.log)
                       && s.chunkEntities == old(s.chunkEntities) && s.chunkEntityMap == old(s.chunkEntityMap)
  {
    bound := false;
    var maybeChunk := s.ChunkFromChunkCoordinates(c.x, c.y, c.z);
    if maybeChunk.Some? {
      var chunk := maybeChunk.value;
      if !chunk.IsEmpty() && s.ChunkEntity(c.x, c.y, c.z).None? {
        var entity := commands.Spawn(s.ChunkRelativePosition(c.x, c.y, c.z));
        commands.AddChild(se, entity);
        s.SetChunkEntity(c.x, c.y, c.z, entity);
        bound := true;
      }
    }
  }

  /**
    The bookkeeping of the binding pass: `order` lists, without repeats,
    exactly the visited keys that needed binding.
   */
  ghost predicate Visited(query: Query, snaps: map<Entity, Snapshot>, keys: set<ChunkKey>,
                          remaining: set<ChunkKey>, order: seq<ChunkKey>)
  {
    && remaining <= keys
    && (forall j | 0 <= j < |order| :: order[j] in keys && order[j] !in remaining && order[j].structure in query)
    && NoDuplicates(order)
    && (forall k | k in keys && k !in remaining :: (k in order <==> NeedsBinding(query, snaps, k)))
  }

  /**
    Each key of `order` for se is bound both ways to its own entity: the
    chunk -> entity and entity -> chunk maps the pass adds are inverse to
    each other on the keys it binds.
   */
  lemma {:induction false} NewBindingsInverse(query: Query, se: Entity, order: seq<ChunkKey>, next0: nat, j: nat)
    requires se in query && NoDuplicates(order)
    requires forall j | 0 <= j < |order| && order[j].structure == se ::
               query[se].ChunkInBounds(order[j].chunk.x, order[j].chunk.y, order[j].chunk.z)
    requires j < |order| && order[j].structure == se
    ensures KeyIndex(query[se], order[j].chunk) in NewBindings(query, se, order, next0)
    ensures NewBindings(query, se, order, next0)[KeyIndex(query[se], order[j].chunk)] == next0 + j
    ensures next0 + j in NewReverse(query, se, order, next0)
    ensures NewReverse(query, se, order, next0)[next0 + j] == KeyIndex(query[se], order[j].chunk)
  {
    var prefix := order[..|order| - 1];
    var last := order[|order| - 1];
    assert order == prefix + [last];
    if j < |order| - 1 {
      forall a | 0 <= a < |prefix| && prefix[a].structure == se
        ensures query[se].ChunkInBounds(prefix[a].chunk.x, prefix[a].chunk.y, prefix[a].chunk.z)
      {
        assert prefix[a] == order[a];
      }
      assert prefix[j] == order[j];
      NewBindingsInverse(query, se, prefix, next0, j);
      if last.structure == se {
        assert last !in prefix;
        NewBindingsAvoid(query, se, prefix, next0, last);
      }
    }
  }

  /** Visiting one more key keeps the bookkeeping. */
  lemma VisitStep(query: Query, snaps: map<Entity, Snapshot>, keys: set<ChunkKey>,
                  remaining: set<ChunkKey>, order: seq<ChunkKey>, k: ChunkKey, bound: bool)
    requires Visited(query, snaps, keys, remaining, order) && k in remaining
    requires bound <==> NeedsBinding(query, snaps, k)
    ensures Visited(query, snaps, keys, remaining - {k}, if bound then order + [k] else order)
  {
  }

  /**
    One visit of the binding pass: binds key k when it needs binding in
    the snapshot of its structure taken before the pass, keeping that
    structure in step with the bindings so far.
   */
  method BindStep(query: Query, k: ChunkKey, commands: Commands,
                  ghost snap: Snapshot, ghost order: seq<ChunkKey>, ghost next0: nat)
    returns (bound: bool, ghost order': seq<ChunkKey>)
    requires k.structure in query && k !in order
    requires query[k.structure].ChunkInBounds(k.chunk.x, k.chunk.y, k.chunk.z)
    requires forall j | 0 <= j < |order| && order[j].structure == k.structure ::
               query[k.structure].ChunkInBounds(order[j].chunk.x, order[j].chunk.y, order[j].chunk.z)
    requires BoundAfter(query, k.structure, snap, order, next0)
    requires commands.next == next0 + |order|
    modifies query[k.structure], commands
    ensures bound <==> NeedsBinding(query, map[k.structure := snap], k)
    ensures order' == if bound then order + [k] else order
    ensures BoundAfter(query, k.structure, snap, order', next0)
    ensures commands.next == next0 + |order'|
    ensures bound ==> commands.log == old(commands.log) + BindCommands(query, k, next0 + |order|)
    ensures !bound ==> commands.log == old(commands.log)
  {
    var se := k.structure;
    var s := query[se];
    NewBindingsAvoid(query, se, order, next0, k);
    bound := BindChunk(s, se, k.chunk, commands);
    order' := if bound then order + [k] else order;
    if bound {
      ghost var i := KeyIndex(s, k.chunk);
      ghost var e := next0 + |order|;
      ghost var bindings := NewBindings(query, se, order, next0);
      ghost var reverse := NewReverse(query, se, order, next0);
      NewBindingsSnoc(query, se, order, k, next0);
      assert NewBindings(query, se, order', next0) == bindings[i := e];
      assert NewReverse(query, se, order', next0) == reverse[e := i];
      UnionUpdate(snap.chunkEntities, bindings, i, e);
      UnionUpdate(snap.chunkEntityMap, reverse, e, i);
      assert s.chunkEntities == snap.chunkEntities + bindings[i := e];
      assert s.chunkEntityMap == snap.chunkEntityMap + reverse[e := i];
    }
  }

  /** Binds key k when it needs binding, keeping every queried structure in step. */
  method BindKey(query: Query, k: ChunkKey, commands: Commands,
                 ghost snaps: map<Entity, Snapshot>, ghost order: seq<ChunkKey>, ghost next0: nat)
    returns (bound: bool, ghost order': seq<ChunkKey>)
    requires Injective(query) && k.structure in query && k !in order
    requires query[k.structure].ChunkInBounds(k.chunk.x, k.chunk.y, k.chunk.z)
    requires forall j | 0 <= j < |order| && order[j].structure == k.structure ::
               query[k.structure].ChunkInBounds(order[j].chunk.x, order[j].chunk.y, order[j].chunk.z)
    requires forall se | se in query :: se in snaps && BoundAfter(query, se, snaps[se], order, next0)
    requires commands.next == next0 + |order|
    modifies query[k.structure], commands
    ensures bound <==> NeedsBinding(query, snaps, k)
    ensures order' == if bound then order + [k] else order
    ensures forall se | se in query :: BoundAfter(query, se, snaps[se], order', next0)
    ensures commands.next == next0 + |order'|
    ensures bound ==> commands.log == old(commands.log) + BindCommands(query, k, next0 + |order|)
    ensures !bound ==> commands.log == old(commands.log)
  {
    var se := k.structure;
    bound, order' := BindStep(query, k, commands, snaps[se], order, next0);
    assert NeedsBinding(query, map[se := snaps[se]], k) == NeedsBinding(query, snaps, k);
    forall other | other in query && other != se
      ensures BoundAfter(query, other, snaps[other], order', next0)
    {
      assert query[other] != query[se];
      assert old(BoundAfter(query, other, snaps[other], order, next0));
      NewBindingsSnoc(query, other, order, k, next0);
    }
  }

  /** The body of the binding pass: visits key k. */
  method Visit(query: Query, ghost keys: set<ChunkKey>, ghost remaining: set<ChunkKey>, k: ChunkKey,
               commands: Commands, ghost snaps: map<Entity, Snapshot>, ghost order: seq<ChunkKey>,
               ghost next0: nat, ghost log0: seq<Command>, newSets: set<ChunkSetEvent>)
    returns (newSets': set<ChunkSetEvent>, ghost order': seq<ChunkKey>)
    requires Injective(query) && KeysInBounds(query, keys) && k in remaining
    requires Visited(query, snaps, keys, remaining, order)
    requires commands.next == next0 + |order|
    requires commands.log == log0 + SpawnLog(query, order, next0)
    requires forall se | se in query :: se in snaps && BoundAfter(query, se, snaps[se], order, next0)
    requires newSets == BindSets(order)
    modifies Objects(query), commands
    ensures Visited(query, snaps, keys, remaining - {k}, order')
    ensures commands.next == next0 + |order'|
    ensures commands.log == log0 + SpawnLog(query, order', next0)
    ensures forall se | se in query :: se in snaps && BoundAfter(query, se, snaps[se], order', next0)
    ensures newSets' == BindSets(order')
  {
    newSets', order' := newSets, order;
    var b := false;
    if k.structure in query {
      forall j | 0 <= j < |order| && order[j].structure == k.structure
        ensures query[k.structure].ChunkInBounds(order[j].chunk.x, order[j].chunk.y, order[j].chunk.z)
      {
        assert order[j] in keys;
      }
      b, order' := BindKey(query, k, commands, snaps, order, next0);
      if b {
        SpawnLogSnoc(query, log0, order, k, next0);
        BindSetsSnoc(order, k);
        newSets' := newSets + {SetEventFor(k)};
      }
    }
    VisitStep(query, snaps, keys, remaining, order, k, b);
  }

  /**
    The binding pass of the add-chunks system: visits every key once, in an
    unspecified order, and binds each key that needs it. `order` is the
    order of the bindings, entity `next + j` going to `order[j]`;
    `newSets` holds their ChunkSetEvents.
   */
  method BindAll(query: Query, keys: set<ChunkKey>, commands: Commands)
    returns (newSets: set<ChunkSetEvent>, ghost order: seq<ChunkKey>)
    requires Injective(query)
    requires KeysInBounds(query, keys)
    modifies Objects(query), commands
    ensures NoDuplicates(order)
    ensures forall j | 0 <= j < |order| :: order[j].structure in query
    ensures forall k :: k in order <==> k in keys && NeedsBinding(query, old(Snapshots(query)), k)
    ensures newSets == BindSets(order)
    ensures commands.next == old(commands.next) + |order|
    ensures commands.log == old(commands.log) + SpawnLog(query, order, old(commands.next))
    ensures forall se | se in query :: BoundAfter(query, se, old(SnapshotOf(query[se])), order, old(commands.next))
  {
    ghost var next0 := commands.next;
    ghost var log0 := commands.log;
    ghost var snaps := Snapshots(query);
    var remaining := keys;
    newSets := {};
    order := [];
    while remaining != {}
      decreases remaining
      invariant Visited(query, snaps, keys, remaining, order)
      invariant commands.next == next0 + |order|
      invariant commands.log == log0 + SpawnLog(query, order, next0)
      invariant forall se | se in query :: se in snaps && BoundAfter(query, se, snaps[se], order, next0)
      invariant newSets == BindSets(order)
    {
      var k :| k in remaining;
      newSets, order := Visit(query, keys, remaining, k, commands, snaps, order, next0, log0, newSets);
      remaining := remaining - {k};
    }
  }

  /**
    The add-chunks system. Every chunk named by a block change or a chunk
    initialisation is visited once; the visited chunks that needed an entity
    get one, in the order `order`. ChunkSetEvents go out, once each, for
    every initialised chunk and every newly bound chunk.
   */
  method AddChunksSystem(query: Query, inits: seq<ChunkInitEvent>, blockChanges: seq<BlockChangedEvent>,
                         writer: EventWriter<ChunkSetEvent>, commands: Commands)
    returns (ghost order: seq<ChunkKey>)
    requires Injective(query)
    requires KeysInBounds(query, ChangedChunkKeys(blockChanges) + InitChunkKeys(inits))
    modifies Objects(query), writer, commands
    ensures NoDuplicates(order)
    ensures forall j | 0 <= j < |order| :: order[j].structure in query
    ensures forall k :: k in order <==>
              && k in ChangedChunkKeys(blockChanges) + InitChunkKeys(inits)
              && NeedsBinding(query, old(Snapshots(query)), k)
    ensures commands.next == old(commands.next) + |order|
    ensures commands.log == old(commands.log) + SpawnLog(query, order, old(commands.next))
    ensures forall se | se in query :: BoundAfter(query, se, old(SnapshotOf(query[se])), order, old(commands.next))
    ensures |writer.sent| >= |old(writer.sent)| && writer.sent[..|old(writer.sent)|] == old(writer.sent)
    ensures NoDuplicates(writer.sent[|old(writer.sent)|..])
    ensures forall e :: e in writer.sent[|old(writer.sent)|..] <==>
              e in (set k | k in InitChunkKeys(inits) :: SetEventFor(k)) + BindSets(order)
  {
    var changed := CollectChangedChunks(blockChanges);
    var initKeys, initSets := CollectInitChunks(inits);
    var newSets;
    newSets, order := BindAll(query, changed + initKeys, commands);
    SendAll(writer, initSets + newSets);
  }

  /**
    The chunk indices of structure se that some block change in `events`
    names and whose chunk is not stored in `chunks`.
   */
  function EmptiedIndices(query: Query, se: Entity, chunks: map<nat, Chunk>, events: seq<BlockChangedEvent>): set<nat>
    requires se in query
  {
    set j | 0 <= j < |events| && events[j].structureEntity == se
                              && KeyIndex(query[se], events[j].block.ChunkCoords()) !in chunks
          :: KeyIndex(query[se], events[j].block.ChunkCoords())
  }

  /** The (structure entity, chunk index) pairs whose entities the removal pass despawns. */
  function DespawnTargets(query: Query, snaps: map<Entity, Snapshot>, events: seq<BlockChangedEvent>): set<(Entity, nat)> {
    set se, i | se in snaps && i in snaps[se].chunkEntities && se in query
                && i in EmptiedIndices(query, se, snaps[se].chunks, events) :: (se, i)
  }

  /** The despawn commands for the given pairs, in order. */
  function DespawnLog(snaps: map<Entity, Snapshot>, pairs: seq<(Entity, nat)>): seq<Command>
    requires forall j | 0 <= j < |pairs| :: pairs[j].0 in snaps && pairs[j].1 in snaps[pairs[j].0].chunkEntities
  {
    if pairs == [] then []
    else DespawnLog(snaps, pairs[..|pairs| - 1]) +
         [Command.DespawnRecursive(snaps[pairs[|pairs| - 1].0].chunkEntities[pairs[|pairs| - 1].1])]
  }

  /**
    Structure se differs from its snapshot exactly by the removal pass over
    `events`: the bindings of its emptied chunks are gone from the chunk ->
    entity map; everything else, the entity -> chunk map included, is as it
    was.
   */
  ghost predicate RemovedAfter(query: Query, se: Entity, snap: Snapshot, events: seq<BlockChangedEvent>)
    requires se in query
    reads query[se]
  {
    var s := query[se];
    && s.chunks == snap.chunks && s.selfEntity == snap.selfEntity
    && s.chunkEntityMap == snap.chunkEntityMap
    && s.chunkEntities == snap.chunkEntities - EmptiedIndices(query, se, snap.chunks, events)
  }

  lemma EmptiedSnoc(query: Query, se: Entity, chunks: map<nat, Chunk>, events: seq<BlockChangedEvent>, ev: BlockChangedEvent)
    requires se in query
    ensures EmptiedIndices(query, se, chunks, events + [ev]) ==
              EmptiedIndices(query, se, chunks, events) +
              (var i := KeyIndex(query[se], ev.block.ChunkCoords());
               if ev.structureEntity == se && i !in chunks then {i} else {})
  {
    var extended := events + [ev];
    assert forall j | 0 <= j < |events| :: extended[j] == events[j];
    assert extended[|events|] == ev;
  }

  lemma TargetsSnoc(query: Query, snaps: map<Entity, Snapshot>, events: seq<BlockChangedEvent>, ev: BlockChangedEvent)
    requires forall se | se in query :: se in snaps
    ensures DespawnTargets(query, snaps, events + [ev]) ==
              DespawnTargets(query, snaps, events) +
              (var se := ev.structureEntity;
               if se in query then
                 var i := KeyIndex(query[se], ev.block.ChunkCoords());
                 if i in snaps[se].chunkEntities && i !in snaps[se].chunks then {(se, i)} else {}
               else {})
  {
    forall se | se in query {
      EmptiedSnoc(query, se, snaps[se].chunks, events, ev);
    }
  }

  /** The bookkeeping of the removal pass: `pairs` lists, without repeats, the targets so far. */
  ghost predicate Despawned(query: Query, snaps: map<Entity, Snapshot>, events: seq<BlockChangedEvent>,
                      pairs: seq<(Entity, nat)>)
  {
    && (forall j | 0 <= j < |pairs| :: pairs[j].0 in snaps && pairs[j].1 in snaps[pairs[j].0].chunkEntities)
    && NoDuplicates(pairs)
    && (forall p :: p in pairs <==> p in DespawnTargets(query, snaps, events))
  }

  /**
    Handling one more block change keeps the bookkeeping: the change's
    chunk is despawned exactly when it is a target not despawned before.
   */
  lemma DespawnedStep(query: Query, snaps: map<Entity, Snapshot>, events: seq<BlockChangedEvent>,
                      ev: BlockChangedEvent, pairs: seq<(Entity, nat)>, despawned: bool)
    requires forall se | se in query :: se in snaps
    requires Despawned(query, snaps, events, pairs)
    requires despawned <==>
               (var se := ev.structureEntity;
                && se in query
                && var i := KeyIndex(query[se], ev.block.ChunkCoords());
                   && i in snaps[se].chunkEntities && i !in snaps[se].chunks
                   && i !in EmptiedIndices(query, se, snaps[se].chunks, events))
    ensures despawned ==> ev.structureEntity in query
    ensures Despawned(query, snaps, events + [ev],
                      if despawned then pairs + [(ev.structureEntity, KeyIndex(query[ev.structureEntity], ev.block.ChunkCoords()))]
                      else pairs)
  {
    TargetsSnoc(query, snaps, events, ev);
    if despawned {
      var p := (ev.structureEntity, KeyIndex(query[ev.structureEntity], ev.block.ChunkCoords()));
      assert p !in DespawnTargets(query, snaps, events);
      var extended := pairs + [p];
      assert forall j | 0 <= j < |pairs| :: extended[j] == pairs[j];
    }
  }

  lemma DespawnLogSnoc(log0: seq<Command>, snaps: map<Entity, Snapshot>, pairs: seq<(Entity, nat)>, p: (Entity, nat))
    requires forall j | 0 <= j < |pairs| :: pairs[j].0 in snaps && pairs[j].1 in snaps[pairs[j].0].chunkEntities
    requires p.0 in snaps && p.1 in snaps[p.0].chunkEntities
    ensures forall j | 0 <= j < |pairs + [p]| :: (pairs + [p])[j].0 in snaps && (pairs + [p])[j].1 in snaps[(pairs + [p])[j].0].chunkEntities
    ensures log0 + DespawnLog(snaps, pairs + [p]) ==
              (log0 + DespawnLog(snaps, pairs)) + [Command.DespawnRecursive(snaps[p.0].chunkEntities[p.1])]
  {
    assert (pairs + [p])[..|pairs|] == pairs;
  }

  /**
    The removal pass's treatment of one block change in structure s: when
    the chunk at c is not stored but has an entity, despawns the entity and
    drops the chunk -> entity binding.
   */
  method UnbindIfUnloaded(s: Structure, c: ChunkCoord, commands: Commands) returns (despawned: bool)
    requires s.ChunkInBounds(c.x, c.y, c.z)
    modifies s, commands
    ensures despawned <==> KeyIndex(s, c) !in s.chunks && KeyIndex(s, c) in old(s.chunkEntities)
    ensures s.chunks == old(s.chunks) && s.selfEntity == old(s.selfEntity) && s.chunkEntityMap == old(s.chunkEntityMap)
    ensures s.chunkEntities == if despawned then old(s.chunkEntities) - {KeyIndex(s, c)} else old(s.chunkEntities)
    ensures commands.log == old(commands.log) +
              if despawned then [Command.DespawnRecursive(old(s.chunkEntities)[KeyIndex(s, c)])] else []
    ensures commands.next == old(commands.next)
  {
    despawned := false;
    if s.ChunkFromChunkCoordinates(c.x, c.y, c.z).None? {
      var bound := s.ChunkEntity(c.x, c.y, c.z);
      if bound.Some? {
        commands.DespawnRecursive(bound.value);
        s.chunkEntities := s.chunkEntities - {Flatten(c.x, c.y, c.z, s.width, s.height)};
        despawned := true;
      }
    }
  }

  /**
    The removal pass's treatment of a block change of structure se, seen
    against the snapshot of se taken before the pass and the changes
    handled so far.
   */
  method RemoveOwn(query: Query, se: Entity, ev: BlockChangedEvent, commands: Commands,
                   ghost snap: Snapshot, ghost events: seq<BlockChangedEvent>)
    returns (despawned: bool)
    requires se in query && ev.structureEntity == se
    requires query[se].ChunkInBounds(ev.block.ChunkCoords().x, ev.block.ChunkCoords().y, ev.block.ChunkCoords().z)
    requires RemovedAfter(query, se, snap, events)
    modifies query[se], commands
    ensures RemovedAfter(query, se, snap, events + [ev])
    ensures despawned <==> (var i := KeyIndex(query[se], ev.block.ChunkCoords());
                            i in snap.chunkEntities && i !in snap.chunks
                            && i !in EmptiedIndices(query, se, snap.chunks, events))
    ensures despawned ==>
              commands.log == old(commands.log) +
                [Command.DespawnRecursive(snap.chunkEntities[KeyIndex(query[se], ev.block.ChunkCoords())])]
    ensures !despawned ==> commands.log == old(commands.log)
    ensures commands.next == old(commands.next)
  {
    var s := query[se];
    var c := ev.block.ChunkCoords();
    ghost var i := KeyIndex(s, c);
    EmptiedSnoc(query, se, snap.chunks, events, ev);
    ghost var emptied := EmptiedIndices(query, se, snap.chunks, events);
    despawned := UnbindIfUnloaded(s, c, commands);
    if despawned {
      assert s.chunkEntities == snap.chunkEntities - (emptied + {i});
    } else {
      assert s.chunkEntities == snap.chunkEntities - EmptiedIndices(query, se, snap.chunks, events + [ev]);
    }
  }

  /** The body of the removal pass: handles events[n]. */
  method RemoveStep(query: Query, events: seq<BlockChangedEvent>, n: nat, commands: Commands,
                    ghost snaps: map<Entity, Snapshot>, ghost log0: seq<Command>, ghost pairs: seq<(Entity, nat)>)
    returns (ghost pairs': seq<(Entity, nat)>)
    requires Injective(query) && KeysInBounds(query, ChangedChunkKeys(events)) && n < |events|
    requires forall se | se in query :: se in snaps && RemovedAfter(query, se, snaps[se], events[..n])
    requires Despawned(query, snaps, events[..n], pairs)
    requires commands.log == log0 + DespawnLog(snaps, pairs)
    modifies Objects(query), commands
    ensures forall se | se in query :: RemovedAfter(query, se, snaps[se], events[..n + 1])
    ensures Despawned(query, snaps, events[..n + 1], pairs')
    ensures commands.log == log0 + DespawnLog(snaps, pairs')
    ensures commands.next == old(commands.next)
  {
    pairs' := pairs;
    var ev := events[n];
    assert events[..n + 1] == events[..n] + [ev];
    var se := ev.structureEntity;
    var despawned := false;
    if se in query {
      assert ChunkKey(se, ev.block.ChunkCoords()) in ChangedChunkKeys(events);
      despawned := RemoveOwn(query, se, ev, commands, snaps[se], events[..n]);
      assert forall other | other in query && other != se :: query[other] != query[se];
    }
    forall other | other in query && other != se
      ensures RemovedAfter(query, other, snaps[other], events[..n + 1])
    {
      assert old(RemovedAfter(query, other, snaps[other], events[..n]));
      EmptiedSnoc(query, other, snaps[other].chunks, events[..n], ev);
    }
    DespawnedStep(query, snaps, events[..n], ev, pairs, despawned);
    if despawned {
      var p := (se, KeyIndex(query[se], ev.block.ChunkCoords()));
      DespawnLogSnoc(log0, snaps, pairs, p);
      pairs' := pairs + [p];
    }
  }

  /** The loop of the removal pass, against snapshots taken before it. */
  method RemovePass(query: Query, events: seq<BlockChangedEvent>, commands: Commands,
                    ghost snaps: map<Entity, Snapshot>)
    returns (ghost pairs: seq<(Entity, nat)>)
    requires Injective(query)
    requires KeysInBounds(query, ChangedChunkKeys(events))
    requires forall se | se in query :: se in snaps && RemovedAfter(query, se, snaps[se], [])
    modifies Objects(query), commands
    ensures forall se | se in query :: RemovedAfter(query, se, snaps[se], events)
    ensures Despawned(query, snaps, events, pairs)
    ensures commands.log == old(commands.log) + DespawnLog(snaps, pairs)
    ensures commands.next == old(commands.next)
  {
    ghost var log0 := commands.log;
    pairs := [];
    var n := 0;
    assert events[..0] == [];
    while n < |events|
      invariant 0 <= n <= |events|
      invariant forall se | se in query :: se in snaps && RemovedAfter(query, se, snaps[se], events[..n])
      invariant Despawned(query, snaps, events[..n], pairs)
      invariant commands.log == log0 + DespawnLog(snaps, pairs)
      invariant commands.next == old(commands.next)
    {
      pairs := RemoveStep(query, events, n, commands, snaps, log0, pairs);
      n := n + 1;
    }
    assert events[..n] == events;
  }

  /**
    The removal pass, which runs after the add-chunks system: for each block
    change, in order, whose chunk is no longer stored but still has an
    entity, despawns that entity with its children and drops the chunk ->
    entity binding. The entity -> chunk binding is left in place.
    `pairs` lists the (structure entity, chunk index) pairs despawned, in
    order; each is despawned once.
   */
  method RemoveEmptyChunks(query: Query, events: seq<BlockChangedEvent>, commands: Commands)
    returns (ghost pairs: seq<(Entity, nat)>)
    requires Injective(query)
    requires KeysInBounds(query, ChangedChunkKeys(events))
    modifies Objects(query), commands
    ensures forall se | se in query :: RemovedAfter(query, se, old(SnapshotOf(query[se])), events)
    ensures forall j | 0 <= j < |pairs| ::
              pairs[j].0 in query && pairs[j].1 in old(query[pairs[j].0].chunkEntities)
    ensures NoDuplicates(pairs)
    ensures forall p :: p in pairs <==> p in DespawnTargets(query, old(Snapshots(query)), events)
    ensures commands.log == old(commands.log) + DespawnLog(old(Snapshots(query)), pairs)
    ensures commands.next == old(commands.next)
  {
    ghost var snaps := Snapshots(query);
    assert forall se | se in query :: snaps[se] == old(SnapshotOf(query[se]));
    assert snaps.Keys == query.Keys;
    pairs := RemovePass(query, events, commands, snaps);
  }

  /**
    The removal pass leaves a stale entity -> chunk entry: for a chunk that
    was bound both ways and then unloaded, the pass drops the chunk ->
    entity binding but keeps the entity -> chunk one, which now names a
    chunk that is not stored. The as-written chunk-from-entity lookup
    requires the opposite, and the corrected lookup answers None.
   */
  lemma RemovalLeavesStaleEntry(query: Query, se: Entity, snap: Snapshot, events: seq<BlockChangedEvent>, i: nat)
    requires se in query && RemovedAfter(query, se, snap, events)
    requires i in snap.chunkEntities && i in EmptiedIndices(query, se, snap.chunks, events)
    requires snap.chunkEntities[i] in snap.chunkEntityMap && snap.chunkEntityMap[snap.chunkEntities[i]] == i
    ensures i !in query[se].chunkEntities
    ensures snap.chunkEntities[i] in query[se].chunkEntityMap
    ensures !(query[se].chunkEntityMap[snap.chunkEntities[i]] in query[se].chunks)
    ensures query[se].ChunkFromEntity(snap.chunkEntities[i]) == None
  {
    var j :| 0 <= j < |events| && events[j].structureEntity == se
             && KeyIndex(query[se], events[j].block.ChunkCoords()) !in snap.chunks
             && KeyIndex(query[se], events[j].block.ChunkCoords()) == i;
  }

  /**
    One changed chunk across a whole tick, on values: binding by `order`
    from the snapshot `snap`, then removal over the same block changes,
    leaves the chunk bound exactly when it is stored. A stored chunk is
    non-empty, so it was bound already or needed binding; an unstored one
    is named by a change, so the removal unbinds it.
   */
  lemma {:induction false} TickBindsExactlyStored(query: Query, snaps: map<Entity, Snapshot>, order: seq<ChunkKey>, next0: nat,
                                                  blockChanges: seq<BlockChangedEvent>, k: ChunkKey,
                                                  bound: map<nat, Entity>, final: map<nat, Entity>)
    requires k in ChangedChunkKeys(blockChanges) && k.structure in query && k.structure in snaps
    requires AllNonEmpty(snaps[k.structure].chunks)
    requires NoDuplicates(order)
    requires forall j | 0 <= j < |order| && order[j].structure == k.structure ::
               query[k.structure].ChunkInBounds(order[j].chunk.x, order[j].chunk.y, order[j].chunk.z)
    requires NeedsBinding(query, snaps, k) ==> k in order
    requires bound == snaps[k.structure].chunkEntities + NewBindings(query, k.structure, order, next0)
    requires final == bound - EmptiedIndices(query, k.structure, snaps[k.structure].chunks, blockChanges)
    ensures KeyIndex(query[k.structure], k.chunk) in final <==> KeyIndex(query[k.structure], k.chunk) in snaps[k.structure].chunks
  {
    var se := k.structure;
    var snap := snaps[se];
    var i := KeyIndex(query[se], k.chunk);
    var emptied := EmptiedIndices(query, se, snap.chunks, blockChanges);
    if i in snap.chunks {
      assert i !in emptied;
      if i !in snap.chunkEntities {
        assert !snap.chunks[i].IsEmpty();
        assert k in order;
        var j :| 0 <= j < |order| && order[j] == k;
        NewBindingsInverse(query, se, order, next0, j);
      }
    } else {
      var m :| 0 <= m < |blockChanges| && ChunkKey(blockChanges[m].structureEntity, blockChanges[m].block.ChunkCoords()) == k;
      assert i in emptied;
    }
  }

  /**
    One tick of the reconciler: `AddChunksSystem` and then
    `RemoveEmptyChunks` over the same block changes. When every queried
    structure keeps only non-empty chunks, the tick leaves the chunks as
    they were and every changed chunk bound to an entity exactly when it is
    stored.
   */
  method ReconcileTick(query: Query, inits: seq<ChunkInitEvent>, blockChanges: seq<BlockChangedEvent>,
                       writer: EventWriter<ChunkSetEvent>, commands: Commands)
    returns (ghost order: seq<ChunkKey>, ghost pairs: seq<(Entity, nat)>)
    requires Injective(query)
    requires KeysInBounds(query, ChangedChunkKeys(blockChanges) + InitChunkKeys(inits))
    requires forall se | se in query :: query[se].ChunksNonEmpty()
    modifies Objects(query), writer, commands
    ensures forall se | se in query :: query[se].chunks == old(query[se].chunks)
    ensures forall k | k in ChangedChunkKeys(blockChanges) && k.structure in query ::
              KeyIndex(query[k.structure], k.chunk) in query[k.structure].chunkEntities <==>
              KeyIndex(query[k.structure], k.chunk) in query[k.structure].chunks
  {
    ghost var snaps := Snapshots(query);
    ghost var next0 := commands.next;
    assert forall se | se in query :: AllNonEmpty(snaps[se].chunks);
    order := AddChunksSystem(query, inits, blockChanges, writer, commands);
    ghost var mid := Snapshots(query);
    assert forall se | se in query ::
      && mid[se].chunks == snaps[se].chunks
      && mid[se].chunkEntities == snaps[se].chunkEntities + NewBindings(query, se, order, next0);
    pairs := RemoveEmptyChunks(query, blockChanges, commands);
    assert forall se | se in query ::
      && query[se].chunks == mid[se].chunks
      && query[se].chunkEntities == mid[se].chunkEntities - EmptiedIndices(query, se, mid[se].chunks, blockChanges);
    forall k | k in ChangedChunkKeys(blockChanges) && k.structure in query
      ensures KeyIndex(query[k.structure], k.chunk) in query[k.structure].chunkEntities <==>
              KeyIndex(query[k.structure], k.chunk) in query[k.structure].chunks
    {
      var se := k.structure;
      forall j | 0 <= j < |order| && order[j].structure == se
        ensures query[se].ChunkInBounds(order[j].chunk.x, order[j].chunk.y, order[j].chunk.z)
      {
        assert order[j] in order;
      }
      TickBindsExactlyStored(query, snaps, order, next0, blockChanges, k, mid[se].chunkEntities, query[se].chunkEntities);
    }
  }
}
