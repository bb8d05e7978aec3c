/**
 * `BaseSqlAlchemyUnitOfWork`: the outbox writer. The database session is
 * represented by `hasSession` and by `added`, the outbox rows added to it
 * and not yet committed; a session commit moves them to the shared
 * `OutboxStore`, whose answer (success or the exception it raises) is a
 * parameter.
 */
module UnitOfWork {
  import opened Wrappers
  import opened Errors
  import opened Externals
  import opened DomainEvents
  import opened Primitives
  import opened AggregateRegistry
  import opened EventRegistry
  import opened OutboxRecords

  /** One outbox row per event, in order: the registry's name for its class and its `to_dict`. */
  function OutboxRows(events: seq<DomainEvent>, nameOf: EventClass -> string, c: Codecs, now: int): seq<OutboxRecord> {
    seq(|events|, i requires 0 <= i < |events| => NewRecord(nameOf(TypeOf(events[i])), ToDict(events[i], c), now))
  }

  lemma OutboxRowsAppend(events: seq<DomainEvent>, e: DomainEvent, nameOf: EventClass -> string, c: Codecs, now: int)
    ensures OutboxRows(events + [e], nameOf, c, now)
         == OutboxRows(events, nameOf, c, now) + [NewRecord(nameOf(TypeOf(e)), ToDict(e, c), now)]
  {
  }

  class SqlAlchemyUnitOfWork {
    const aggregates: AggregateRegistry
    const registry: DomainEventRegistry<EventClass>
    const store: OutboxStore
    const codecs: Codecs
    /** `_session is not None` */
    var hasSession: bool
    /** Outbox rows added to the open session and not yet committed. */
    var added: seq<OutboxRecord>

    ghost predicate Valid()
      reads this, aggregates, registry
    {
      aggregates.Valid() && registry.Valid()
    }

    /** A new unit of work has no session. */
    constructor (aggregates: AggregateRegistry, registry: DomainEventRegistry<EventClass>,
                 store: OutboxStore, codecs: Codecs)
      ensures this.aggregates == aggregates && this.registry == registry
      ensures this.store == store && this.codecs == codecs
      ensures !hasSession && added == []
    {
      this.aggregates := aggregates;
      this.registry := registry;
      this.store := store;
      this.codecs := codecs;
      hasSession := false;
      added := [];
    }

    /** `__aenter__`: opens a fresh session. */
    method Enter()
      modifies this
      ensures hasSession && added == []
    {
      hasSession := true;
      added := [];
    }

    /** `rollback`: without a session raises; otherwise discards what the session holds. */
    method Rollback() returns (r: Outcome<Error>)
      modifies this
      ensures hasSession == old(hasSession)
      ensures !old(hasSession) ==> r == Fail(SessionNotInitialized) && added == old(added)
      ensures old(hasSession) ==> r == Pass && added == []
    {
      if !hasSession {
        return Fail(SessionNotInitialized);
      }
      added := [];
      r := Pass;
    }

    /** `__aexit__`: rolls back only when an exception is propagating; never commits. */
    method Exit(raised: bool) returns (r: Outcome<Error>)
      modifies this
      ensures hasSession == old(hasSession)
      ensures !raised ==> r == Pass && added == old(added)
      ensures raised && !old(hasSession) ==> r == Fail(SessionNotInitialized) && added == old(added)
      ensures raised && old(hasSession) ==> r == Pass && added == []
    {
      r := Pass;
      if raised {
        r := Rollback();
      }
    }

    /** The loop of `commit` that adds one outbox row per drained event to the session. */
    method AddOutboxRows(events: seq<DomainEvent>, now: int)
      requires registry.Valid()
      modifies this
      ensures hasSession == old(hasSession)
      ensures added == old(added) + OutboxRows(events, registry.nameOf, codecs, now)
    {
      var i := 0;
      while i < |events|
        invariant 0 <= i <= |events|
        invariant hasSession == old(hasSession)
        invariant added == old(added) + OutboxRows(events[..i], registry.nameOf, codecs, now)
      {
        var name := registry.GetName(TypeOf(events[i]));
        added := added + [NewRecord(name, ToDict(events[i], codecs), now)];
        OutboxRowsAppend(events[..i], events[i], registry.nameOf, codecs, now);
        assert events[..i + 1] == events[..i] + [events[i]];
        i := i + 1;
      }
      assert events[..i] == events;
    }

    /**
     * `commit`: drains every registered aggregate, adds one outbox row per
     * drained event, then commits the session. Only a successful session
     * commit clears the aggregate registry; when it fails the drained events
     * exist only in the failed session.
     */
    method Commit(now: int, sessionCommit: Outcome<Error>)
      returns (r: Outcome<Error>, ghost drained: seq<DomainEvent>,
               ghost order: seq<AggregateRoot>, ghost queues: map<AggregateRoot, seq<DomainEvent>>)
      requires Valid()
      modifies this, store, aggregates, aggregates.aggregates
      ensures Valid() && hasSession == old(hasSession)
      ensures !old(hasSession) ==>
        && r == Fail(SessionNotInitialized) && drained == []
        && added == old(added) && store.rows == old(store.rows)
        && aggregates.aggregates == old(aggregates.aggregates)
        && (forall a :: a in old(aggregates.aggregates) ==> a.events == old(a.events))
      ensures old(hasSession) ==>
        && IsEnumeration(order, old(aggregates.aggregates))
        && (forall a :: a in old(aggregates.aggregates) ==> a in queues && queues[a] == old(a.events) && a.events == [])
        && drained == Flatten(order, queues)
      ensures old(hasSession) && sessionCommit.Pass? ==>
        && r == Pass && added == [] && aggregates.aggregates == {}
        && store.rows == old(store.rows) + old(added) + OutboxRows(drained, registry.nameOf, codecs, now)
      ensures old(hasSession) && sessionCommit.Fail? ==>
        && r == sessionCommit && store.rows == old(store.rows)
        && added == old(added) + OutboxRows(drained, registry.nameOf, codecs, now)
        && aggregates.aggregates == old(aggregates.aggregates)
    {
      drained := [];
      if !hasSession {
        return Fail(SessionNotInitialized), drained, [], map[];
      }
      var events;
      events, order, queues := aggregates.PullEvents();
      drained := events;
      AddOutboxRows(events, now);
      if sessionCommit.Fail? {
        return sessionCommit, drained, order, queues;
      }
      store.rows := store.rows + added;
      added := [];
      aggregates.Clear();
      r := Pass;
    }
  }
}
