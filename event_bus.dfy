/**
 * `InMemoryDomainEventBus`: publishes a domain event to the handler
 * factories subscribed to its exact class, in list order. Each factory call
 * (awaited when it returns an awaitable) yields a fresh handler; a handler's
 * exception is logged and the next factory still runs, while a factory's own
 * exception leaves `publish`. Factories and handlers are opaque: `build` is
 * what a factory call yields and `handle` what a handler does with an event.
 */
module EventBus {
  import opened Wrappers
  import opened Errors
  import opened DomainEvents

  /** One handler invocation and how it ended (a failure here is only logged). */
  datatype Delivery<H> = Delivery(handler: H, outcome: Outcome<Error>)

  /** The handler invocations of one `publish`, and the factory exception that ended it, if any. */
  datatype Publication<H> = Publication(deliveries: seq<Delivery<H>>, escaped: Option<Error>)

  /** The reference semantics of the fan-out over `factories`. */
  function FanOut<F, H>(factories: seq<F>, build: F -> Result<H, Error>,
                        handle: (H, DomainEvent) -> Outcome<Error>, event: DomainEvent): Publication<H>
  {
    if factories == [] then Publication([], None)
    else
      match build(factories[0])
      case Failure(e) => Publication([], Some(e))
      case Success(h) =>
        var rest := FanOut(factories[1..], build, handle, event);
        Publication([Delivery(h, handle(h, event))] + rest.deliveries, rest.escaped)
  }

  /**
   * Handler failures are isolated: when every factory succeeds, nothing
   * escapes and every factory's handler is invoked exactly once, in order,
   * whatever the handlers do.
   */
  lemma {:induction false} HandlerFailuresAreIsolated<F, H>(factories: seq<F>, build: F -> Result<H, Error>,
                                                            handle: (H, DomainEvent) -> Outcome<Error>, event: DomainEvent)
    requires forall i :: 0 <= i < |factories| ==> build(factories[i]).Success?
    ensures FanOut(factories, build, handle, event).escaped == None
    ensures |FanOut(factories, build, handle, event).deliveries| == |factories|
    ensures forall i :: 0 <= i < |factories| ==>
              FanOut(factories, build, handle, event).deliveries[i]
              == Delivery(build(factories[i]).value, handle(build(factories[i]).value, event))
  {
    if factories != [] {
      var rest := factories[1..];
      assert forall i :: 0 <= i < |rest| ==> rest[i] == factories[i + 1];
      HandlerFailuresAreIsolated(rest, build, handle, event);
    }
  }

  /**
   * A factory that raises ends the publication: the handlers of the
   * factories before it have run, none after it, and its exception escapes.
   */
  lemma {:induction false} FactoryFailureEscapes<F, H>(factories: seq<F>, build: F -> Result<H, Error>,
                                                       handle: (H, DomainEvent) -> Outcome<Error>, event: DomainEvent, k: nat)
    requires k < |factories| && build(factories[k]).Failure?
    requires forall i :: 0 <= i < k ==> build(factories[i]).Success?
    ensures FanOut(factories, build, handle, event).escaped == Some(build(factories[k]).error)
    ensures |FanOut(factories, build, handle, event).deliveries| == k
  {
    if k > 0 {
      var rest := factories[1..];
      assert forall i :: 0 <= i < |rest| ==> rest[i] == factories[i + 1];
      FactoryFailureEscapes(rest, build, handle, event, k - 1);
    }
  }

  /** One step of the fan-out from position `i`. */
  lemma FanOutStep<F, H>(factories: seq<F>, build: F -> Result<H, Error>,
                         handle: (H, DomainEvent) -> Outcome<Error>, event: DomainEvent, i: nat)
    requires i < |factories|
    ensures build(factories[i]).Failure? ==>
              FanOut(factories[i..], build, handle, event) == Publication([], Some(build(factories[i]).error))
    ensures build(factories[i]).Success? ==>
              var h := build(factories[i]).value;
              var rest := FanOut(factories[i + 1..], build, handle, event);
              FanOut(factories[i..], build, handle, event)
              == Publication([Delivery(h, handle(h, event))] + rest.deliveries, rest.escaped)
  {
    assert factories[i..][1..] == factories[i + 1..];
  }

  class InMemoryDomainEventBus<F, H> {
    const subscribers: map<EventClass, seq<F>>
    const build: F -> Result<H, Error>
    const handle: (H, DomainEvent) -> Outcome<Error>

    /** `subscribers or {}`: a missing map behaves as an empty one. */
    constructor (subscribers: Option<map<EventClass, seq<F>>>, build: F -> Result<H, Error>,
                 handle: (H, DomainEvent) -> Outcome<Error>)
      ensures this.subscribers == (if subscribers.Some? then subscribers.value else map[])
      ensures this.build == build && this.handle == handle
    {
      this.subscribers := if subscribers.Some? then subscribers.value else map[];
      this.build := build;
      this.handle := handle;
    }

    /** The factories bound to the event's exact class. */
    function Subscribed(event: DomainEvent): seq<F> {
      if TypeOf(event) in subscribers then subscribers[TypeOf(event)] else []
    }

    /**
     * `publish`: invokes the handlers as `FanOut` describes and fails exactly
     * with a factory's exception; with no subscribers it invokes nothing.
     */
    method Publish(event: DomainEvent) returns (deliveries: seq<Delivery<H>>, r: Outcome<Error>)
      ensures FanOut(Subscribed(event), build, handle, event)
           == Publication(deliveries, if r.Fail? then Some(r.error) else None)
      ensures Subscribed(event) == [] ==> deliveries == [] && r == Pass
    {
      var factories := if TypeOf(event) in subscribers then subscribers[TypeOf(event)] else [];
      deliveries := [];
      if factories == [] {
        return deliveries, Pass;
      }
      var i := 0;
      while i < |factories|
        invariant 0 <= i <= |factories|
        invariant FanOut(factories, build, handle, event)
               == Publication(deliveries + FanOut(factories[i..], build, handle, event).deliveries,
                              FanOut(factories[i..], build, handle, event).escaped)
      {
        FanOutStep(factories, build, handle, event, i);
        var built := build(factories[i]);
        if built.Failure? {
          return deliveries, Fail(built.error);
        }
        var handler := built.value;
        var outcome := handle(handler, event);
        deliveries := deliveries + [Delivery(handler, outcome)];
        i := i + 1;
      }
      r := Pass;
    }
  }
}
