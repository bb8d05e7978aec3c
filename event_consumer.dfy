/**
 * `KafkaIntegrationEventConsumer`: routes each broker message by its
 * `event_type` header to the event class and handler provider registered
 * under that name. Providers are either callables (`build` is what a call
 * yields, awaited when needed) or handler objects used as they are; `handle`
 * is what a handler does with an event.
 */
module EventConsumer {
  import opened Wrappers
  import opened Errors
  import opened Externals
  import opened IntegrationEvents
  import opened EventProducer

  datatype Provider<P, H> = Callable(factory: P) | Ready(handler: H)

  /** One `event_map` entry: the event class and the handler provider. */
  datatype Route<P, H> = Route(cls: IntegrationEventClass, provider: Provider<P, H>)

  /** The consumer's routing configuration. */
  datatype Routing<!P, !H> = Routing(
    eventMap: map<string, Route<P, H>>,
    codecs: Codecs,
    build: P -> Result<H, Error>,
    handle: (H, IntegrationEvent) -> Outcome<Error>)

  /** How processing one message ended. */
  datatype MessageResult<H> =
    | Skipped                                  // no route for the key
    | Delivered(handler: H, event: IntegrationEvent) // the handler returned normally
    | Logged(error: Error)                     // an exception was caught and logged
    | Escaped(error: Error)                    // an exception left `_process_message`

  /** The position of the last header named `key`, if any. */
  function LastHeaderIndex(headers: seq<Header>, key: string): (r: Option<nat>)
    ensures r.None? ==> forall i :: 0 <= i < |headers| ==> headers[i].key != key
    ensures r.Some? ==> r.value < |headers| && headers[r.value].key == key
    ensures r.Some? ==> forall j :: r.value < j < |headers| ==> headers[j].key != key
  {
    if headers == [] then None
    else if headers[|headers| - 1].key == key then Some(|headers| - 1)
    else LastHeaderIndex(headers[..|headers| - 1], key)
  }

  /** `dict(headers).get(key)`: the value of the last header with that key. */
  function LookupHeader(headers: seq<Header>, key: string): Option<Bytes> {
    match LastHeaderIndex(headers, key)
    case None => None
    case Some(i) => Some(headers[i].value)
  }

  /** The routing key: the decoded `event_type` header, or `""` without one. */
  function RoutingKey(headers: seq<Header>, c: Codecs): Result<string, Error> {
    match LookupHeader(headers, EventTypeHeader)
    case None => Success("")
    case Some(bytes) =>
      match c.utf8Decode(bytes)
      case None => Failure(UnicodeDecodeError)
      case Some(key) => Success(key)
  }

  /** The routed part of `_process_message`, inside its `try`, for a key that has a route. */
  function Dispatch<P, H>(route: Route<P, H>, body: Bytes, routing: Routing<P, H>): MessageResult<H> {
    match routing.codecs.jsonLoads(body)
    case None => Logged(JsonDecodeError)
    case Some(payload) =>
      match FromDict(route.cls, payload, routing.codecs)
      case Failure(e) => Logged(e)
      case Success(event) =>
        var handler :=
          match route.provider
          case Callable(p) => routing.build(p)
          case Ready(h) => Success(h);
        match handler
        case Failure(e) => Logged(e)
        case Success(h) =>
          match routing.handle(h, event)
          case Fail(e) => Logged(e)
          case Pass => Delivered(h, event)
  }

  /**
   * `_process_message` as written: when the header does not decode, the
   * `except` block's log message reads `event_type`, which was never bound,
   * and the resulting `UnboundLocalError` leaves the method.
   */
  function ProcessMessageAsWritten<P, H>(msg: BrokerMessage, routing: Routing<P, H>): (r: MessageResult<H>)
    ensures r.Escaped? <==> RoutingKey(msg.headers, routing.codecs).Failure?
    ensures r.Escaped? ==> r.error == UnboundLocalError("event_type")
    ensures (RoutingKey(msg.headers, routing.codecs).Success? &&
             RoutingKey(msg.headers, routing.codecs).value !in routing.eventMap) ==> r == Skipped
  {
    match RoutingKey(msg.headers, routing.codecs)
    case Failure(_) => Escaped(UnboundLocalError("event_type"))
    case Success(key) =>
      if key !in routing.eventMap then Skipped else Dispatch(routing.eventMap[key], msg.value, routing)
  }

  /**
   * `_process_message` as intended: every exception is logged, including a
   * header that does not decode.
   */
  function ProcessMessage<P, H>(msg: BrokerMessage, routing: Routing<P, H>): (r: MessageResult<H>)
    ensures !r.Escaped?
    ensures RoutingKey(msg.headers, routing.codecs).Success? ==> r == ProcessMessageAsWritten(msg, routing)
    ensures (RoutingKey(msg.headers, routing.codecs).Success? &&
             RoutingKey(msg.headers, routing.codecs).value !in routing.eventMap) ==> r == Skipped
  {
    match RoutingKey(msg.headers, routing.codecs)
    case Failure(e) => Logged(e)
    case Success(key) =>
      if key !in routing.eventMap then Skipped else Dispatch(routing.eventMap[key], msg.value, routing)
  }

  /** A message whose `event_type` header is not UTF-8 escapes the code as written. */
  lemma UndecodableHeaderEscapes<P, H>(msg: BrokerMessage, routing: Routing<P, H>)
    requires LookupHeader(msg.headers, EventTypeHeader).Some?
    requires routing.codecs.utf8Decode(LookupHeader(msg.headers, EventTypeHeader).value) == None
    ensures ProcessMessageAsWritten(msg, routing) == Escaped(UnboundLocalError("event_type"))
    ensures ProcessMessage(msg, routing) == Logged(UnicodeDecodeError)
  {
  }

  /**
   * End to end: a message the producer encodes for the registered event is
   * decoded into the same event and handed to the handler from its route.
   */
  lemma ProducedMessageReachesHandler<P, H>(topic: string, event: IntegrationEvent, routing: Routing<P, H>)
    requires Lawful(routing.codecs)
    requires ClassName(TypeOf(event)) in routing.eventMap
    requires routing.eventMap[ClassName(TypeOf(event))].cls == TypeOf(event)
    ensures var route := routing.eventMap[ClassName(TypeOf(event))];
            var handler := match route.provider
                           case Callable(p) => routing.build(p)
                           case Ready(h) => Success(h);
            var r := ProcessMessage(Encode(topic, event, routing.codecs), routing);
            && (handler.Failure? ==> r == Logged(handler.error))
            && (handler.Success? && routing.handle(handler.value, event).Pass? ==> r == Delivered(handler.value, event))
            && (handler.Success? && routing.handle(handler.value, event).Fail? ==>
                  r == Logged(routing.handle(handler.value, event).error))
  {
    var m := Encode(topic, event, routing.codecs);
    assert LookupHeader(m.headers, EventTypeHeader) == Some(m.headers[0].value);
    IntegrationEvents.RoundTrip(event, routing.codecs);
  }

  /** What reaches the consumer loop: a message, a concurrent `stop()`, or a broker error. */
  datatype Arrival = Message(msg: BrokerMessage) | StopCalled | BrokerError(error: Error)

  /**
   * The results of the `async for` loop over `arrivals` while `running`: it
   * breaks on the first message after a stop, and any exception reaching it
   * (a broker error, or one escaping `process`) is logged and ends it.
   */
  function Consume<H>(arrivals: seq<Arrival>, running: bool, process: BrokerMessage -> MessageResult<H>): (r: seq<MessageResult<H>>)
    ensures |r| <= |arrivals|
    ensures forall k :: 0 <= k < |r| - 1 ==> !r[k].Escaped?
  {
    if arrivals == [] then []
    else
      match arrivals[0]
      case StopCalled => Consume(arrivals[1..], false, process)
      case BrokerError(_) => []
      case Message(msg) =>
        if !running then []
        else
          var r := process(msg);
          if r.Escaped? then [r] else [r] + Consume(arrivals[1..], running, process)
  }

  /**
   * As intended, while running and with no stop or broker error, every
   * message is processed, in order.
   */
  lemma {:induction false} EveryMessageIsProcessed<P, H>(msgs: seq<BrokerMessage>, routing: Routing<P, H>)
    ensures var arrivals := seq(|msgs|, i requires 0 <= i < |msgs| => Message(msgs[i]));
            Consume(arrivals, true, m => ProcessMessage(m, routing))
            == seq(|msgs|, i requires 0 <= i < |msgs| => ProcessMessage(msgs[i], routing))
  {
    var arrivals := seq(|msgs|, i requires 0 <= i < |msgs| => Message(msgs[i]));
    if msgs != [] {
      EveryMessageIsProcessed(msgs[1..], routing);
      assert arrivals[1..] == seq(|msgs[1..]|, i requires 0 <= i < |msgs[1..]| => Message(msgs[1..][i]));
      var rest := seq(|msgs[1..]|, i requires 0 <= i < |msgs[1..]| => ProcessMessage(msgs[1..][i], routing));
      assert seq(|msgs|, i requires 0 <= i < |msgs| => ProcessMessage(msgs[i], routing))
          == [ProcessMessage(msgs[0], routing)] + rest;
    }
  }

  /**
   * As written, one message with an undecodable header ends consumption:
   * the messages after it are never processed.
   */
  lemma UndecodableHeaderStopsTheLoop<P, H>(bad: BrokerMessage, later: seq<Arrival>, routing: Routing<P, H>)
    requires LookupHeader(bad.headers, EventTypeHeader).Some?
    requires routing.codecs.utf8Decode(LookupHeader(bad.headers, EventTypeHeader).value) == None
    ensures Consume([Message(bad)] + later, true, m => ProcessMessageAsWritten(m, routing))
         == [Escaped(UnboundLocalError("event_type"))]
    ensures Consume([Message(bad)] + later, true, m => ProcessMessage(m, routing))
         == [Logged(UnicodeDecodeError)] + Consume(later, true, m => ProcessMessage(m, routing))
  {
    UndecodableHeaderEscapes(bad, routing);
    assert ([Message(bad)] + later)[1..] == later;
  }

  class KafkaIntegrationEventConsumer<P, H> {
    const routing: Routing<P, H>
    var client: ClientState
    var isRunning: bool

    /** A new consumer has no client and is not running. */
    constructor (routing: Routing<P, H>)
      ensures this.routing == routing && client == NoClient && !isRunning
    {
      this.routing := routing;
      client := NoClient;
      isRunning := false;
    }

    method Start()
      modifies this
      ensures client == Started && isRunning
    {
      client := Started;
      isRunning := true;
    }

    /** `stop`: clears the running flag; stops the client when there is one. */
    method Stop()
      modifies this
      ensures !isRunning
      ensures old(client) == NoClient ==> client == NoClient
      ensures old(client) != NoClient ==> client == Stopped
    {
      isRunning := false;
      if client != NoClient {
        client := Stopped;
      }
    }

    /**
     * `run_forever` over `arrivals`, as written: refused before `start`;
     * otherwise the loop's results are `Consume`'s over the as-written
     * `_process_message`, so an exception escaping one message (an
     * undecodable `event_type` header) is logged and ends the loop.
     */
    method RunForever(arrivals: seq<Arrival>) returns (results: seq<MessageResult<H>>, r: Outcome<Error>)
      modifies this
      ensures old(client) == NoClient ==> r == Fail(ConsumerNotStarted) && results == [] && client == NoClient
      ensures old(client) != NoClient ==>
                r == Pass && results == Consume(arrivals, old(isRunning), m => ProcessMessageAsWritten(m, routing))
    {
      results := [];
      if client == NoClient {
        return results, Fail(ConsumerNotStarted);
      }
      var i := 0;
      while i < |arrivals|
        invariant 0 <= i <= |arrivals|
        invariant client != NoClient
        invariant Consume(arrivals, old(isRunning), m => ProcessMessageAsWritten(m, routing))
               == results + Consume(arrivals[i..], isRunning, m => ProcessMessageAsWritten(m, routing))
      {
        assert arrivals[i..][1..] == arrivals[i + 1..];
        match arrivals[i] {
          case StopCalled =>
            Stop();
          case BrokerError(_) =>
            break;
          case Message(msg) =>
            if !isRunning {
              break;
            }
            var result := ProcessMessageAsWritten(msg, routing);
            results := results + [result];
            if result.Escaped? {
              break;
            }
        }
        i := i + 1;
      }
      r := Pass;
    }
  }
}
