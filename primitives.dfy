/**
 * Entity identity and the aggregate root's queue of pending domain events.
 * Python's `Account(AggregateRoot)` / `User(AggregateRoot)` inheritance is
 * rendered by composition: each entity object owns one `AggregateRoot`, which
 * carries the identity and the queue, and that root is what the aggregate
 * registry enrols.
 */
module Primitives {
  import opened Externals
  import opened DomainEvents

  /** The concrete entity classes; `isinstance(other, self.__class__)` compares these. */
  datatype EntityKind = AccountEntity | UserEntity

  datatype Identity = Identity(kind: EntityKind, id: Uuid)

  /** `Entity.__eq__`: the other object is of the same class and has the same id. */
  predicate SameEntity(a: Identity, b: Identity) {
    a.kind == b.kind && a.id == b.id
  }

  /** `Entity.__hash__`: `hash(self.id)`. */
  function EntityHash(a: Identity): int {
    a.id as int
  }

  /** Equal entities hash alike, so they may share a set. */
  lemma EqualEntitiesHashAlike(a: Identity, b: Identity)
    requires SameEntity(a, b)
    ensures EntityHash(a) == EntityHash(b)
  {
  }

  /** Entity equality is an equivalence that ignores every field but class and id. */
  lemma SameEntityIsEquivalence(a: Identity, b: Identity, c: Identity)
    ensures SameEntity(a, a)
    ensures SameEntity(a, b) ==> SameEntity(b, a)
    ensures SameEntity(a, b) && SameEntity(b, c) ==> SameEntity(a, c)
  {
  }

  class AggregateRoot {
    const identity: Identity
    /** `_events`: pending events, oldest first. */
    var events: seq<DomainEvent>

    /** A new aggregate starts with no pending events. */
    constructor (identity: Identity)
      ensures this.identity == identity && events == []
    {
      this.identity := identity;
      events := [];
    }

    /** `add_event`: appends at the end of the queue. */
    method AddEvent(e: DomainEvent)
      modifies this
      ensures events == old(events) + [e]
    {
      events := events + [e];
    }

    /** `pull_events`: returns a copy of the queue and empties it (a destructive drain). */
    method PullEvents() returns (pulled: seq<DomainEvent>)
      modifies this
      ensures pulled == old(events)
      ensures events == []
    {
      pulled := events;
      events := [];
    }

    /** `clear_events`: empties the queue. */
    method ClearEvents()
      modifies this
      ensures events == []
    {
      events := [];
    }
  }

  /** Two drains in a row: the first returns the queue, the second nothing. */
  method DrainTwice(a: AggregateRoot) returns (first: seq<DomainEvent>, second: seq<DomainEvent>)
    modifies a
    ensures first == old(a.events) && second == [] && a.events == []
  {
    first := a.PullEvents();
    second := a.PullEvents();
  }
}
