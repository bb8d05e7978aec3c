/**
 * `AggregateRegistry`: the set of aggregates touched in the current unit of
 * work. The Python set compares members with `Entity.__eq__`, so adding an
 * aggregate equal to a member (same class, same id) keeps the member. The
 * context variable's `None` and an empty set behave identically under all
 * three operations and are both represented by the empty set.
 */
module AggregateRegistry {
  import opened DomainEvents
  import opened Primitives

  /** No two members are equal entities. */
  ghost predicate DistinctEntities(s: set<AggregateRoot>) {
    forall a, b :: a in s && b in s && SameEntity(a.identity, b.identity) ==> a == b
  }

  /** The set after `set.add(a)` under entity equality. */
  ghost function Added(s: set<AggregateRoot>, a: AggregateRoot): set<AggregateRoot> {
    if exists m :: m in s && SameEntity(m.identity, a.identity) then s else s + {a}
  }

  /** Adding keeps members pairwise distinct and always leaves an entity equal to `a` in the set. */
  lemma AddedKeepsDistinct(s: set<AggregateRoot>, a: AggregateRoot)
    requires DistinctEntities(s)
    ensures DistinctEntities(Added(s, a))
    ensures s <= Added(s, a)
    ensures exists m :: m in Added(s, a) && SameEntity(m.identity, a.identity)
  {
  }

  /** Registering the same aggregate twice leaves a single entry. */
  lemma AddedIsIdempotent(s: set<AggregateRoot>, a: AggregateRoot)
    ensures Added(Added(s, a), a) == Added(s, a)
  {
    if !exists m :: m in s && SameEntity(m.identity, a.identity) {
      assert a in Added(s, a) && SameEntity(a.identity, a.identity);
    }
  }

  /** `order` lists every member of `s` exactly once. */
  ghost predicate IsEnumeration(order: seq<AggregateRoot>, s: set<AggregateRoot>) {
    && (forall i :: 0 <= i < |order| ==> order[i] in s)
    && (forall a :: a in s ==> a in order)
    && (forall i, j :: 0 <= i < j < |order| ==> order[i] != order[j])
  }

  /** The queues of `order`'s aggregates, one after the other. */
  ghost function Flatten(order: seq<AggregateRoot>, queues: map<AggregateRoot, seq<DomainEvent>>): seq<DomainEvent>
    requires forall a :: a in order ==> a in queues
  {
    if order == [] then []
    else Flatten(order[..|order| - 1], queues) + queues[order[|order| - 1]]
  }

  lemma {:induction false} FlattenAppend(o1: seq<AggregateRoot>, o2: seq<AggregateRoot>, queues: map<AggregateRoot, seq<DomainEvent>>)
    requires forall a :: a in o1 + o2 ==> a in queues
    ensures Flatten(o1 + o2, queues) == Flatten(o1, queues) + Flatten(o2, queues)
    decreases |o2|
  {
    if o2 == [] {
      assert o1 + o2 == o1;
    } else {
      var last := o2[|o2| - 1];
      assert (o1 + o2)[..|o1 + o2| - 1] == o1 + o2[..|o2| - 1];
      FlattenAppend(o1, o2[..|o2| - 1], queues);
    }
  }

  /**
   * Each aggregate's queue appears in the drained list in one piece and in
   * its own order, between the queues of the aggregates enumerated before and
   * after it.
   */
  lemma QueueStaysContiguous(order: seq<AggregateRoot>, k: nat, queues: map<AggregateRoot, seq<DomainEvent>>)
    requires k < |order|
    requires forall a :: a in order ==> a in queues
    ensures Flatten(order, queues)
         == Flatten(order[..k], queues) + queues[order[k]] + Flatten(order[k + 1..], queues)
  {
    assert order == order[..k] + ([order[k]] + order[k + 1..]);
    FlattenAppend(order[..k], [order[k]] + order[k + 1..], queues);
    FlattenAppend([order[k]], order[k + 1..], queues);
    assert Flatten([order[k]], queues) == queues[order[k]] by {
      assert [order[k]][..0] == [];
    }
  }

  /** A repetition-free enumeration has as many entries as it has members. */
  lemma {:induction false} DistinctLength(order: seq<AggregateRoot>)
    requires forall i, j :: 0 <= i < j < |order| ==> order[i] != order[j]
    ensures |set b | b in order| == |order|
  {
    if order != [] {
      var init := order[..|order| - 1];
      var last := order[|order| - 1];
      DistinctLength(init);
      assert order == init + [last];
      assert (set b | b in order) == (set b | b in init) + {last};
      assert last !in init by {
        assert forall i :: 0 <= i < |init| ==> init[i] == order[i];
      }
    }
  }

  /** With a single registered aggregate, the drain is exactly that aggregate's queue. */
  lemma DrainOfOneAggregate(order: seq<AggregateRoot>, a: AggregateRoot, queues: map<AggregateRoot, seq<DomainEvent>>)
    requires IsEnumeration(order, {a}) && a in queues
    ensures forall b :: b in order ==> b in queues
    ensures Flatten(order, queues) == queues[a]
  {
    DistinctLength(order);
    assert (set b | b in order) == {a};
    assert order[0] == a;
    assert order == [a];
    assert order[..0] == [];
  }

  class AggregateRegistry {
    var aggregates: set<AggregateRoot>

    ghost predicate Valid()
      reads this
    {
      DistinctEntities(aggregates)
    }

    constructor ()
      ensures Valid() && aggregates == {}
    {
      aggregates := {};
    }

    /** `register`: a non-aggregate (here `null`) is ignored; otherwise a set `add`. */
    method Register(a: AggregateRoot?)
      requires Valid()
      modifies this
      ensures Valid()
      ensures a == null ==> aggregates == old(aggregates)
      ensures a != null ==> aggregates == Added(old(aggregates), a)
    {
      if a == null {
        return;
      }
      if !exists m :: m in aggregates && SameEntity(m.identity, a.identity) {
        aggregates := aggregates + {a};
      }
      AddedKeepsDistinct(old(aggregates), a);
    }

    /**
     * `pull_events`: drains every registered aggregate, in the set's
     * (unspecified) iteration order `order`, and concatenates the queues.
     * The registry keeps its members.
     */
    method PullEvents() returns (all: seq<DomainEvent>, ghost order: seq<AggregateRoot>,
                                 ghost queues: map<AggregateRoot, seq<DomainEvent>>)
      requires Valid()
      modifies aggregates
      ensures Valid() && aggregates == old(aggregates)
      ensures IsEnumeration(order, aggregates)
      ensures forall a :: a in aggregates ==> a in queues && queues[a] == old(a.events)
      ensures all == Flatten(order, queues)
      ensures forall a :: a in aggregates ==> a.events == []
    {
      all := [];
      order := [];
      queues := map a | a in aggregates :: a.events;
      var remaining := aggregates;
      while remaining != {}
        invariant remaining <= aggregates
        invariant forall a :: a in order <==> a in aggregates && a !in remaining
        invariant forall i, j :: 0 <= i < j < |order| ==> order[i] != order[j]
        invariant forall a :: a in aggregates ==> a in queues && queues[a] == old(a.events)
        invariant all == Flatten(order, queues)
        invariant forall a :: a in aggregates && a !in remaining ==> a.events == []
        invariant forall a :: a in remaining ==> a.events == old(a.events)
        decreases remaining
      {
        var a :| a in remaining;
        var pulled := a.PullEvents();
        assert (order + [a])[..|order|] == order;
        all := all + pulled;
        order := order + [a];
        remaining := remaining - {a};
      }
    }

    /** `clear`: forgets every aggregate. */
    method Clear()
      modifies this
      ensures Valid() && aggregates == {}
    {
      aggregates := {};
    }
  }
}
