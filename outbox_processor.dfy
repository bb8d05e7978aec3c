/**
 * `OutboxProcessor`: claims due PENDING rows oldest first, reconstructs and
 * publishes each one, and records the result on the row: PROCESSED on
 * success, otherwise one more attempt with exponential backoff, and FAILED
 * (dead-lettered) at the fifth failed attempt. The database's single clock
 * reading per batch is the parameter `now`; the domain event bus is the
 * parameter `publish`, the outcome of publishing each event.
 */
module OutboxProcessor {
  import opened Wrappers
  import opened Errors
  import opened Externals
  import opened DomainEvents
  import opened EventRegistry
  import opened OutboxRecords
  import UnitOfWork

  const MaxAttempts: nat := 5
  const DefaultBatchSize: nat := 20

  function Pow2(n: nat): (r: nat)
    ensures r >= 1
  {
    if n == 0 then 1 else 2 * Pow2(n - 1)
  }

  /** Seconds until the next try after `attempts` failures: `2**attempts * 10`. */
  function BackoffDelay(attempts: nat): nat {
    Pow2(attempts) * 10
  }

  /** Each further failure waits strictly longer than the previous one. */
  lemma {:induction false} BackoffStrictlyIncreasing(m: nat, n: nat)
    requires m < n
    ensures BackoffDelay(m) < BackoffDelay(n)
    decreases n
  {
    if m < n - 1 {
      BackoffStrictlyIncreasing(m, n - 1);
    }
  }

  /** The four retry delays a row can see before it is dead-lettered. */
  lemma RetryDelays()
    ensures BackoffDelay(1) == 20 && BackoffDelay(2) == 40
    ensures BackoffDelay(3) == 80 && BackoffDelay(4) == 160
  {
    assert Pow2(1) == 2;
    assert Pow2(2) == 4;
    assert Pow2(3) == 8;
  }

  /** The claim query's filter: PENDING and due. */
  predicate Claimable(r: OutboxRecord, now: int) {
    r.status == Pending && r.scheduledAt <= now
  }

  /**
   * `claimed` is what the claim query may return: at most `batchSize`
   * distinct due PENDING rows in ascending `occurred_at`, and no due row is
   * left out unless the batch is full of rows that occurred no later.
   */
  ghost predicate IsClaim(rows: seq<OutboxRecord>, now: int, batchSize: nat, claimed: seq<nat>) {
    && |claimed| <= batchSize
    && ClaimedInOrder(rows, now, claimed)
    && (forall i :: 0 <= i < |rows| && Claimable(rows[i], now) && i !in claimed ==> |claimed| == batchSize)
  }

  /**
   * `claimed` is a prefix of the query's ordered result: distinct due PENDING
   * rows in ascending `occurred_at`, none later than a due row left out.
   */
  ghost predicate ClaimedInOrder(rows: seq<OutboxRecord>, now: int, claimed: seq<nat>) {
    && (forall k :: 0 <= k < |claimed| ==> claimed[k] < |rows| && Claimable(rows[claimed[k]], now))
    && (forall k, l :: 0 <= k < l < |claimed| ==> claimed[k] != claimed[l])
    && (forall k, l :: 0 <= k < l < |claimed| ==> rows[claimed[k]].occurredAt <= rows[claimed[l]].occurredAt)
    && (forall i, k :: 0 <= i < |rows| && Claimable(rows[i], now) && i !in claimed && 0 <= k < |claimed| ==>
          rows[claimed[k]].occurredAt <= rows[i].occurredAt)
  }

  /** Appending the earliest due row not yet claimed keeps the claimed prefix ordered. */
  lemma ClaimStep(rows: seq<OutboxRecord>, now: int, claimed: seq<nat>, best: nat)
    requires ClaimedInOrder(rows, now, claimed)
    requires best < |rows| && Claimable(rows[best], now) && best !in claimed
    requires forall j :: 0 <= j < |rows| && Claimable(rows[j], now) && j !in claimed ==>
               rows[best].occurredAt <= rows[j].occurredAt
    ensures ClaimedInOrder(rows, now, claimed + [best])
  {
    var next := claimed + [best];
    assert forall k :: 0 <= k < |claimed| ==> next[k] == claimed[k];
    assert forall k :: 0 <= k < |claimed| ==> rows[claimed[k]].occurredAt <= rows[best].occurredAt;
  }

  /** One step of the claim: the due PENDING row not yet claimed with the earliest `occurred_at`, or -1. */
  method EarliestDue(rows: seq<OutboxRecord>, now: int, claimed: seq<nat>) returns (best: int)
    ensures -1 <= best < |rows|
    ensures best >= 0 ==> Claimable(rows[best], now) && best !in claimed
    ensures best >= 0 ==> forall j :: 0 <= j < |rows| && Claimable(rows[j], now) && j !in claimed ==>
              rows[best].occurredAt <= rows[j].occurredAt
    ensures best < 0 ==> forall j :: 0 <= j < |rows| ==> !Claimable(rows[j], now) || j in claimed
  {
    best := -1;
    var i := 0;
    while i < |rows|
      invariant 0 <= i <= |rows|
      invariant -1 <= best < i
      invariant best >= 0 ==> Claimable(rows[best], now) && best !in claimed
      invariant best >= 0 ==> forall j :: 0 <= j < i && Claimable(rows[j], now) && j !in claimed ==>
                  rows[best].occurredAt <= rows[j].occurredAt
      invariant best < 0 ==> forall j :: 0 <= j < i ==> !Claimable(rows[j], now) || j in claimed
    {
      if Claimable(rows[i], now) && i !in claimed && (best < 0 || rows[i].occurredAt < rows[best].occurredAt) {
        best := i;
      }
      i := i + 1;
    }
  }

  /** The claim query: repeatedly selects the earliest due PENDING row not yet taken. */
  method Claim(rows: seq<OutboxRecord>, now: int, batchSize: nat) returns (claimed: seq<nat>)
    ensures IsClaim(rows, now, batchSize, claimed)
  {
    claimed := [];
    while |claimed| < batchSize
      invariant |claimed| <= batchSize
      invariant ClaimedInOrder(rows, now, claimed)
      decreases batchSize - |claimed|
    {
      var best := EarliestDue(rows, now, claimed);
      if best < 0 {
        break;
      }
      ClaimStep(rows, now, claimed, best);
      claimed := claimed + [best];
    }
  }

  /** Lines `get_class` then `from_dict`: the event a row stands for. */
  function Decode(registry: DomainEventRegistry<EventClass>, c: Codecs, r: OutboxRecord): (d: Result<DomainEvent, Error>)
    reads registry
    requires registry.Valid()
    ensures d.Success? ==> registry.nameOf(TypeOf(d.value)) == r.eventType
  {
    var cls :- registry.GetClass(r.eventType);
    FromDict(cls, r.payload, c)
  }

  /**
   * The guarded block of the batch loop: decode, then publish; the first
   * exception wins. A row named by no registered class fails whatever the
   * bus does, and a success means an event of a class registered under the
   * row's name was published.
   */
  function Deliver(registry: DomainEventRegistry<EventClass>, c: Codecs,
                   publish: DomainEvent -> Outcome<Error>, r: OutboxRecord): (o: Outcome<Error>)
    reads registry
    requires registry.Valid()
    ensures (forall d :: d in registry.registered ==> registry.nameOf(d) != r.eventType) ==>
              o == Fail(EventReconstruction(r.eventType))
    ensures o.Pass? ==> exists e :: publish(e) == Pass && registry.nameOf(TypeOf(e)) == r.eventType
  {
    match Decode(registry, c, r)
    case Failure(e) => Fail(e)
    case Success(event) => publish(event)
  }

  /** What the batch loop writes on a claimed row once its delivery has `outcome`. */
  function AfterDispatch(r: OutboxRecord, outcome: Outcome<Error>, now: int): (s: OutboxRecord)
    ensures s.eventType == r.eventType && s.payload == r.payload && s.occurredAt == r.occurredAt
    ensures outcome.Pass? ==> s == r.(status := Processed, processedAt := Some(now))
    ensures outcome.Fail? ==> s.attempts == r.attempts + 1 && s.lastError == Some(Message(outcome.error))
    ensures outcome.Fail? && r.attempts + 1 >= MaxAttempts ==> s.status == Failed && s.scheduledAt == r.scheduledAt
    ensures outcome.Fail? && r.attempts + 1 < MaxAttempts ==>
              s.status == r.status && s.scheduledAt == now + BackoffDelay(s.attempts)
    ensures outcome.Fail? ==> s.processedAt == r.processedAt
  {
    match outcome
    case Pass => r.(status := Processed, processedAt := Some(now))
    case Fail(e) =>
      var attempts := r.attempts + 1;
      var failed := r.(attempts := attempts, lastError := Some(Message(e)));
      if attempts >= MaxAttempts then failed.(status := Failed)
      else failed.(scheduledAt := now + BackoffDelay(attempts))
  }

  /**
   * The consistency the processor keeps on every row: PROCESSED exactly when
   * a processing time is recorded, FAILED exactly at the attempt limit, an
   * error text exactly when an attempt has failed, and no time running
   * backwards.
   */
  predicate WellFormed(r: OutboxRecord) {
    && (r.status == Processed <==> r.processedAt.Some?)
    && r.attempts <= MaxAttempts
    && (r.status == Failed <==> r.attempts == MaxAttempts)
    && (r.lastError.Some? <==> r.attempts > 0)
    && r.occurredAt <= r.scheduledAt
    && (r.processedAt.Some? ==> r.scheduledAt <= r.processedAt.value)
  }

  /** A row the unit of work writes is consistent and can be claimed at once. */
  lemma NewRecordIsClaimable(eventType: string, payload: Payload, now: int)
    ensures WellFormed(NewRecord(eventType, payload, now))
    ensures Claimable(NewRecord(eventType, payload, now), now)
    ensures NewRecord(eventType, payload, now).attempts == 0
  {
  }

  /** Dispatching a claimed row keeps it consistent. */
  lemma AfterDispatchKeepsWellFormed(r: OutboxRecord, outcome: Outcome<Error>, now: int)
    requires WellFormed(r) && Claimable(r, now)
    ensures WellFormed(AfterDispatch(r, outcome, now))
  {
    var s := AfterDispatch(r, outcome, now);
    if outcome.Fail? && s.status != Failed {
      assert BackoffDelay(s.attempts) >= 0;
    }
  }

  /**
   * How a row may change between two observations: its content and creation
   * time never change, attempts never decrease, and PROCESSED and FAILED are
   * final.
   */
  predicate Evolves(a: OutboxRecord, b: OutboxRecord) {
    && a.eventType == b.eventType && a.payload == b.payload && a.occurredAt == b.occurredAt
    && a.attempts <= b.attempts
    && (a.status != Pending ==> b == a)
  }

  lemma EvolvesIsPreorder(a: OutboxRecord, b: OutboxRecord, c: OutboxRecord)
    ensures Evolves(a, a)
    ensures Evolves(a, b) && Evolves(b, c) ==> Evolves(a, c)
  {
  }

  /** Dispatch only ever moves a row forward. */
  lemma AfterDispatchEvolves(r: OutboxRecord, outcome: Outcome<Error>, now: int)
    requires Claimable(r, now)
    ensures Evolves(r, AfterDispatch(r, outcome, now))
  {
  }

  /** A row that fails every time it falls due, `k` times in a row. */
  function FailRepeatedly(r: OutboxRecord, e: Error, k: nat): OutboxRecord {
    if k == 0 then r
    else
      var prev := FailRepeatedly(r, e, k - 1);
      AfterDispatch(prev, Fail(e), prev.scheduledAt)
  }

  /**
   * A fresh row that fails each time it is retried stays PENDING through
   * four failures, each pushing its next try `BackoffDelay(k)` seconds past
   * the previous one, and is FAILED after the fifth.
   */
  lemma {:induction false} DeadLetterAfterMaxAttempts(r: OutboxRecord, e: Error, k: nat)
    requires r.status == Pending && r.attempts == 0
    requires k <= MaxAttempts
    ensures FailRepeatedly(r, e, k).attempts == k
    ensures FailRepeatedly(r, e, k).status == (if k == MaxAttempts then Failed else Pending)
    ensures 0 < k < MaxAttempts ==>
              FailRepeatedly(r, e, k).scheduledAt == FailRepeatedly(r, e, k - 1).scheduledAt + BackoffDelay(k)
    ensures 0 < k ==> FailRepeatedly(r, e, k).lastError == Some(Message(e))
  {
    if k > 0 {
      DeadLetterAfterMaxAttempts(r, e, k - 1);
    }
  }

  /** A row that fails once and then succeeds on its retry ends PROCESSED, keeping the failure's trace. */
  lemma RetryThenSuccess(r: OutboxRecord, e: Error, now: int)
    requires WellFormed(r) && Claimable(r, now) && r.attempts == 0
    ensures var retried := AfterDispatch(r, Fail(e), now);
            var done := AfterDispatch(retried, Pass, retried.scheduledAt);
            && Claimable(retried, retried.scheduledAt)
            && done.status == Processed && done.attempts == 1
            && done.lastError == Some(Message(e)) && WellFormed(done)
  {
    var retried := AfterDispatch(r, Fail(e), now);
    AfterDispatchKeepsWellFormed(r, Fail(e), now);
    AfterDispatchKeepsWellFormed(retried, Pass, retried.scheduledAt);
  }

  /**
   * The write/read round trip of the outbox: every row the unit of work
   * writes decodes, through the same registry, to the event it was written
   * for, provided that event's class is registered under a name no other
   * registered class uses.
   */
  lemma OutboxRowsDecode(registry: DomainEventRegistry<EventClass>, c: Codecs,
                         events: seq<DomainEvent>, now: int, i: nat)
    requires registry.Valid() && Lawful(c)
    requires i < |events| && EmailAccepted(events[i], c)
    requires TypeOf(events[i]) in registry.registered
    requires forall d :: d in registry.registered && registry.nameOf(d) == registry.nameOf(TypeOf(events[i])) ==>
               d == TypeOf(events[i])
    ensures Decode(registry, c, UnitOfWork.OutboxRows(events, registry.nameOf, c, now)[i]) == Success(events[i])
  {
    var e := events[i];
    GetClassOfGetName(registry, TypeOf(e));
    DomainEvents.RoundTrip(e, c);
  }

  /**
   * A row the unit of work writes for `e` is delivered exactly as `e` is
   * published, when `e`'s class is registered under a name no other
   * registered class uses.
   */
  lemma DeliverWrittenRow(registry: DomainEventRegistry<EventClass>, c: Codecs,
                          publish: DomainEvent -> Outcome<Error>, e: DomainEvent, now: int)
    requires registry.Valid() && Lawful(c) && EmailAccepted(e, c)
    requires TypeOf(e) in registry.registered
    requires forall d :: d in registry.registered && registry.nameOf(d) == registry.nameOf(TypeOf(e)) ==>
               d == TypeOf(e)
    ensures Deliver(registry, c, publish, NewRecord(registry.nameOf(TypeOf(e)), ToDict(e, c), now)) == publish(e)
  {
    GetClassOfGetName(registry, TypeOf(e));
    DomainEvents.RoundTrip(e, c);
  }

  /**
   * With a positive batch size the claim is empty exactly when no row is
   * PENDING and due.
   */
  lemma EmptyClaimIffNothingDue(rows: seq<OutboxRecord>, now: int, batchSize: nat, claimed: seq<nat>)
    requires IsClaim(rows, now, batchSize, claimed) && batchSize > 0
    ensures claimed == [] <==> forall i :: 0 <= i < |rows| ==> !Claimable(rows[i], now)
  {
    if claimed != [] {
      assert Claimable(rows[claimed[0]], now);
    }
  }

  /** A batch keeps every row consistent, and every row moves only forward. */
  lemma RoundKeepsRows(registry: DomainEventRegistry<EventClass>, c: Codecs,
                       publish: DomainEvent -> Outcome<Error>, now: int, batchSize: nat,
                       before: seq<OutboxRecord>, claimed: seq<nat>, after: seq<OutboxRecord>)
    requires registry.Valid()
    requires IsClaim(before, now, batchSize, claimed)
    requires BatchApplied(registry, c, publish, now, before, claimed, after)
    ensures forall i :: 0 <= i < |before| && WellFormed(before[i]) ==> WellFormed(after[i])
    ensures forall i, a :: 0 <= i < |before| && Evolves(a, before[i]) ==> Evolves(a, after[i])
  {
    forall i | 0 <= i < |before| && i in claimed
      ensures WellFormed(before[i]) ==> WellFormed(after[i])
      ensures Evolves(before[i], after[i])
    {
      var k :| 0 <= k < |claimed| && claimed[k] == i;
      var outcome := Deliver(registry, c, publish, before[i]);
      if WellFormed(before[i]) {
        AfterDispatchKeepsWellFormed(before[i], outcome, now);
      }
      AfterDispatchEvolves(before[i], outcome, now);
    }
    forall i, a | 0 <= i < |before| && Evolves(a, before[i])
      ensures Evolves(a, after[i])
    {
      EvolvesIsPreorder(a, before[i], after[i]);
    }
  }

  /** The `run_forever` decision after a batch. */
  datatype LoopAction = Sleep | Continue

  /**
   * `after` is `before` once a batch has delivered the rows at `claimed`
   * with `publish` at `now`: each claimed row carries its own delivery's
   * result and every other row is unchanged.
   */
  ghost predicate BatchApplied(registry: DomainEventRegistry<EventClass>, c: Codecs,
                               publish: DomainEvent -> Outcome<Error>, now: int,
                               before: seq<OutboxRecord>, claimed: seq<nat>, after: seq<OutboxRecord>)
    reads registry
    requires registry.Valid()
  {
    && |after| == |before|
    && forall i :: 0 <= i < |after| ==>
         after[i] == if i in claimed then AfterDispatch(before[i], Deliver(registry, c, publish, before[i]), now)
                     else before[i]
  }

  /** Delivering one more row, not delivered yet, extends the batch so far by that row. */
  lemma BatchAppliedStep(registry: DomainEventRegistry<EventClass>, c: Codecs,
                         publish: DomainEvent -> Outcome<Error>, now: int,
                         before: seq<OutboxRecord>, done: seq<nat>, mid: seq<OutboxRecord>, index: nat)
    requires registry.Valid()
    requires BatchApplied(registry, c, publish, now, before, done, mid)
    requires index < |before| && index !in done
    ensures BatchApplied(registry, c, publish, now, before, done + [index],
                         mid[index := AfterDispatch(mid[index], Deliver(registry, c, publish, mid[index]), now)])
  {
  }

  /**
   * One round of `run_forever`: it claims `claimed` from `before` at `now`,
   * delivers the batch with `publish` to reach `after`, and sleeps exactly
   * when its claim was empty, which with a positive batch size is exactly
   * when no row was due.
   */
  ghost predicate Round(registry: DomainEventRegistry<EventClass>, c: Codecs, batchSize: nat,
                        now: int, publish: DomainEvent -> Outcome<Error>,
                        before: seq<OutboxRecord>, claimed: seq<nat>, after: seq<OutboxRecord>, action: LoopAction)
    reads registry
    requires registry.Valid()
  {
    && IsClaim(before, now, batchSize, claimed)
    && BatchApplied(registry, c, publish, now, before, claimed, after)
    && (action == Sleep <==> claimed == [])
    && (batchSize > 0 ==> (action == Sleep <==> forall i :: 0 <= i < |before| ==> !Claimable(before[i], now)))
  }

  /** A claimed and delivered batch, with the sleep decision taken on its size, is a round. */
  lemma BatchIsRound(registry: DomainEventRegistry<EventClass>, c: Codecs, batchSize: nat,
                     now: int, publish: DomainEvent -> Outcome<Error>,
                     before: seq<OutboxRecord>, claimed: seq<nat>, after: seq<OutboxRecord>, action: LoopAction)
    requires registry.Valid()
    requires IsClaim(before, now, batchSize, claimed)
    requires BatchApplied(registry, c, publish, now, before, claimed, after)
    requires action == Sleep <==> claimed == []
    ensures Round(registry, c, batchSize, now, publish, before, claimed, after, action)
  {
    if batchSize > 0 {
      EmptyClaimIffNothingDue(before, now, batchSize, claimed);
    }
  }

  /** The first `|claims|` rounds of `run_forever`, round `k` going from `states[k]` to `states[k + 1]`. */
  ghost predicate Rounds(registry: DomainEventRegistry<EventClass>, c: Codecs, batchSize: nat,
                         nows: seq<int>, publishes: seq<DomainEvent -> Outcome<Error>>,
                         states: seq<seq<OutboxRecord>>, claims: seq<seq<nat>>, actions: seq<LoopAction>)
    reads registry
    requires registry.Valid()
  {
    && |actions| == |claims| == |states| - 1 && |claims| <= |nows| == |publishes|
    && forall k :: 0 <= k < |claims| ==>
         Round(registry, c, batchSize, nows[k], publishes[k], states[k], claims[k], states[k + 1], actions[k])
  }

  /** Appending one more round extends the rounds so far. */
  lemma RoundsExtend(registry: DomainEventRegistry<EventClass>, c: Codecs, batchSize: nat,
                     nows: seq<int>, publishes: seq<DomainEvent -> Outcome<Error>>,
                     states: seq<seq<OutboxRecord>>, claims: seq<seq<nat>>, actions: seq<LoopAction>,
                     claimed: seq<nat>, after: seq<OutboxRecord>, action: LoopAction)
    requires registry.Valid()
    requires Rounds(registry, c, batchSize, nows, publishes, states, claims, actions)
    requires |claims| < |nows|
    requires Round(registry, c, batchSize, nows[|claims|], publishes[|claims|], states[|claims|], claimed, after, action)
    ensures Rounds(registry, c, batchSize, nows, publishes, states + [after], claims + [claimed], actions + [action])
  {
    var n := |claims|;
    var states', claims', actions' := states + [after], claims + [claimed], actions + [action];
    assert forall k :: 0 <= k <= n ==> states'[k] == states[k];
    assert forall k :: 0 <= k < n ==> claims'[k] == claims[k] && actions'[k] == actions[k];
  }

  class Processor {
    const store: OutboxStore
    const registry: DomainEventRegistry<EventClass>
    const codecs: Codecs
    const batchSize: nat

    constructor (store: OutboxStore, registry: DomainEventRegistry<EventClass>, codecs: Codecs,
                 batchSize: nat := DefaultBatchSize)
      ensures this.store == store && this.registry == registry
      ensures this.codecs == codecs && this.batchSize == batchSize
    {
      this.store := store;
      this.registry := registry;
      this.codecs := codecs;
      this.batchSize := batchSize;
    }

    /**
     * `_process_batch`: claims a batch, delivers each claimed row in claim
     * order and records the result on it; one row's failure does not stop
     * the rest. Returns how many rows were claimed, successful or not.
     */
    method ProcessBatch(now: int, publish: DomainEvent -> Outcome<Error>) returns (count: nat, claimed: seq<nat>)
      requires registry.Valid()
      modifies store
      ensures IsClaim(old(store.rows), now, batchSize, claimed)
      ensures count == |claimed|
      ensures BatchApplied(registry, codecs, publish, now, old(store.rows), claimed, store.rows)
    {
      claimed := Claim(store.rows, now, batchSize);
      count := |claimed|;
      if count == 0 {
        return;
      }
      var k := 0;
      while k < |claimed|
        invariant 0 <= k <= |claimed|
        invariant BatchApplied(registry, codecs, publish, now, old(store.rows), claimed[..k], store.rows)
      {
        var index := claimed[k];
        assert index !in claimed[..k];
        var record := store.rows[index];
        var outcome := Deliver(registry, codecs, publish, record);
        BatchAppliedStep(registry, codecs, publish, now, old(store.rows), claimed[..k], store.rows, index);
        store.rows := store.rows[index := AfterDispatch(record, outcome, now)];
        assert claimed[..k + 1] == claimed[..k] + [index];
        k := k + 1;
      }
      assert claimed[..k] == claimed;
    }

    /**
     * `run_forever`, one round per entry of `nows`, with the bus's behaviour
     * in round `k` given by `publishes[k]`: `states[k]` is the outbox before
     * round `k`, `claims[k]` the batch it claims. A round sleeps exactly when
     * its batch was empty, which with a positive batch size is exactly when
     * no row was due; every row stays consistent and only moves forward.
     */
    method RunForever(nows: seq<int>, publishes: seq<DomainEvent -> Outcome<Error>>)
      returns (actions: seq<LoopAction>, ghost states: seq<seq<OutboxRecord>>, ghost claims: seq<seq<nat>>)
      requires registry.Valid() && |publishes| == |nows|
      requires forall i :: 0 <= i < |store.rows| ==> WellFormed(store.rows[i])
      modifies store
      ensures |actions| == |nows| && Rounds(registry, codecs, batchSize, nows, publishes, states, claims, actions)
      ensures states[0] == old(store.rows) && states[|nows|] == store.rows
      ensures |store.rows| == |old(store.rows)|
      ensures forall i :: 0 <= i < |store.rows| ==> WellFormed(store.rows[i])
      ensures forall i :: 0 <= i < |store.rows| ==> Evolves(old(store.rows)[i], store.rows[i])
    {
      actions := [];
      states := [store.rows];
      claims := [];
      var round := 0;
      while round < |nows|
        invariant 0 <= round <= |nows|
        invariant |actions| == round && Rounds(registry, codecs, batchSize, nows, publishes, states, claims, actions)
        invariant states[0] == old(store.rows) && states[round] == store.rows
        invariant |store.rows| == |old(store.rows)|
        invariant forall i :: 0 <= i < |store.rows| ==> WellFormed(store.rows[i])
        invariant forall i :: 0 <= i < |store.rows| ==> Evolves(old(store.rows)[i], store.rows[i])
      {
        ghost var before := store.rows;
        var count, claimed := ProcessBatch(nows[round], publishes[round]);
        RoundKeepsRows(registry, codecs, publishes[round], nows[round], batchSize, before, claimed, store.rows);
        var action := if count == 0 then Sleep else Continue;
        BatchIsRound(registry, codecs, batchSize, nows[round], publishes[round], before, claimed, store.rows, action);
        RoundsExtend(registry, codecs, batchSize, nows, publishes, states, claims, actions, claimed, store.rows, action);
        actions := actions + [action];
        states := states + [store.rows];
        claims := claims + [claimed];
        round := round + 1;
      }
    }
  }
}
