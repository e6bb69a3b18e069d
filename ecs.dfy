/**
  The parts of the entity-component runtime the core talks to, reduced to
  explicit state: opaque entity handles, per-tick typed event queues, and a
  command buffer that records spawns, child links and despawns.
 */
module Ecs {
  import opened Vectors

  /** An opaque entity handle. */
  type Entity = nat

  /** A typed event queue for one tick; `sent` is everything written so far. */
  class EventWriter<T> {
    var sent: seq<T>

    constructor ()
      ensures sent == []
    {
      sent := [];
    }

    method Send(ev: T)
      modifies this
      ensures sent == old(sent) + [ev]
    {
      sent := sent + [ev];
    }
  }

  /** A side effect requested from the runtime. */
  datatype Command =
    | Spawn(entity: Entity, translation: Vec3)
    | AddChild(parent: Entity, child: Entity)
    | DespawnRecursive(entity: Entity)

  /**
    The command buffer. Spawning hands out the next unused handle, so every
    spawned entity is fresh: it is at least the `next` value seen before.
   */
  class Commands {
    var next: Entity
    var log: seq<Command>

    constructor (first: Entity)
      ensures next == first && log == []
    {
      next := first;
      log := [];
    }

    method Spawn(translation: Vec3) returns (e: Entity)
      modifies this
      ensures e == old(next) && next == old(next) + 1
      ensures log == old(log) + [Command.Spawn(e, translation)]
    {
      e := next;
      next := next + 1;
      log := log + [Command.Spawn(e, translation)];
    }

    method AddChild(parent: Entity, child: Entity)
      modifies this
      ensures next == old(next)
      ensures log == old(log) + [Command.AddChild(parent, child)]
    {
      log := log + [Command.AddChild(parent, child)];
    }

    method DespawnRecursive(e: Entity)
      modifies this
      ensures next == old(next)
      ensures log == old(log) + [Command.DespawnRecursive(e)]
    {
      log := log + [Command.DespawnRecursive(e)];
    }
  }
}
