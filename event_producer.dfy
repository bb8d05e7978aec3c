/**
 * `KafkaIntegrationEventProducer`: encodes an integration event as a broker
 * message and sends it. The broker is a log of the messages it accepted;
 * whether one `send_and_wait` succeeds is a parameter.
 */
module EventProducer {
  import opened Wrappers
  import opened Errors
  import opened Externals
  import opened IntegrationEvents

  datatype Header = Header(key: string, value: Bytes)

  datatype BrokerMessage = BrokerMessage(topic: string, value: Bytes, headers: seq<Header>)

  /** The header carrying the routing key. */
  const EventTypeHeader: string := "event_type"

  /**
   * The message `publish` sends: the JSON of `to_dict()` as the body and one
   * header, the UTF-8 of the event's class name, to the topic given.
   */
  function Encode(topic: string, event: IntegrationEvent, c: Codecs): (m: BrokerMessage)
    ensures m.topic == topic
    ensures c.jsonLoads(m.value) == Some(ToDict(event, c)) <== Lawful(c)
    ensures |m.headers| == 1 && m.headers[0].key == EventTypeHeader
    ensures Lawful(c) ==> c.utf8Decode(m.headers[0].value) == Some(ClassName(TypeOf(event)))
  {
    BrokerMessage(topic, c.jsonDumps(ToDict(event, c)),
                  [Header(EventTypeHeader, c.utf8Encode(ClassName(TypeOf(event))))])
  }

  /** The broker's record of accepted messages. */
  class Broker {
    var log: seq<BrokerMessage>

    constructor ()
      ensures log == []
    {
      log := [];
    }
  }

  /** `_producer`: never created, created and started, or stopped (the field is not reset). */
  datatype ClientState = NoClient | Started | Stopped

  class KafkaIntegrationEventProducer {
    const broker: Broker
    const codecs: Codecs
    var client: ClientState

    constructor (broker: Broker, codecs: Codecs)
      ensures this.broker == broker && this.codecs == codecs && client == NoClient
    {
      this.broker := broker;
      this.codecs := codecs;
      client := NoClient;
    }

    method Start()
      modifies this
      ensures client == Started
    {
      client := Started;
    }

    /** `stop`: a no-op without a client; otherwise the client stays set, stopped. */
    method Stop()
      modifies this
      ensures old(client) == NoClient ==> client == NoClient
      ensures old(client) != NoClient ==> client == Stopped
    {
      if client != NoClient {
        client := Stopped;
      }
    }

    /**
     * `publish`: refused before `start`; otherwise the encoded message is
     * sent, and the broker records it exactly when the send succeeds.
     */
    method Publish(topic: string, event: IntegrationEvent, send: Outcome<Error>) returns (r: Outcome<Error>)
      modifies broker
      ensures client == NoClient ==> r == Fail(ProducerNotStarted) && broker.log == old(broker.log)
      ensures client != NoClient ==> r == send
      ensures client != NoClient && send.Pass? ==> broker.log == old(broker.log) + [Encode(topic, event, codecs)]
      ensures client != NoClient && send.Fail? ==> broker.log == old(broker.log)
    {
      if client == NoClient {
        return Fail(ProducerNotStarted);
      }
      var message := Encode(topic, event, codecs);
      if send.Pass? {
        broker.log := broker.log + [message];
      }
      r := send;
    }
  }
}
