/** The `Entity` base class of every payroll aggregate: identity, timestamps and pending domain events.
    Aggregates hold one `Entity` object instead of inheriting from it. */
module Entities {
  import Guids
  import Clock
  import opened DomainEvents

  class Entity {
    /** Assigned once, when the object is built; no code in this model reassigns it. */
    const id: Guids.Guid
    var createdAt: Clock.DateTime
    var updatedAt: Clock.DateTime
    /** Events raised since the last `ClearDomainEvents`, oldest first. */
    var domainEvents: seq<DomainEvent>

    /** A new entity gets a fresh identity and the current time for both timestamps. */
    constructor(id: Guids.Guid, now: Clock.DateTime)
      ensures this.id == id
      ensures createdAt == now && updatedAt == now
      ensures domainEvents == []
    {
      this.id := id;
      createdAt := now;
      updatedAt := now;
      domainEvents := [];
    }

    /** Rebuilds an entity as a repository reads it back: stored timestamps, no pending events. */
    constructor Load(id: Guids.Guid, createdAt: Clock.DateTime, updatedAt: Clock.DateTime)
      ensures this.id == id
      ensures this.createdAt == createdAt && this.updatedAt == updatedAt
      ensures domainEvents == []
    {
      this.id := id;
      this.createdAt := createdAt;
      this.updatedAt := updatedAt;
      domainEvents := [];
    }

    method AddDomainEvent(e: DomainEvent)
      modifies this
      ensures domainEvents == old(domainEvents) + [e]
      ensures createdAt == old(createdAt) && updatedAt == old(updatedAt)
    {
      domainEvents := domainEvents + [e];
    }

    method ClearDomainEvents()
      modifies this
      ensures domainEvents == []
      ensures createdAt == old(createdAt) && updatedAt == old(updatedAt)
    {
      domainEvents := [];
    }

    method SetUpdated(now: Clock.DateTime)
      modifies this
      ensures updatedAt == now
      ensures createdAt == old(createdAt) && domainEvents == old(domainEvents)
    {
      updatedAt := now;
    }
  }
}
