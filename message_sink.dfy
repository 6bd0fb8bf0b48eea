/** Message sinks: publishing routed messages over AMQP, and a sink that
    forwards each message to one of several named sinks. */
module MessageSink {
  import opened Common

  /** AMQP message properties: property name to value. */
  type Properties = map<string, Json>

  const ENCODING: string := "utf-8"
  const CONTENT_TYPE: string := "application/json"

  /** A message body: serialized text and the encoding it is sent in. */
  datatype Payload = Encoded(text: string, encoding: string)

  /** One basic.publish sent on a channel. */
  datatype Publication = Publication(payload: Payload, exchangeName: string, routingKey: string,
                                     properties: Properties)

  /** A properties dictionary owned by the caller, which the sink updates
      in place. */
  class PropertyMap {
    var entries: Properties

    constructor (entries: Properties)
      ensures this.entries == entries
    {
      this.entries := entries;
    }
  }

  /** An AMQP channel of the broker connection: what it has published. */
  class Channel {
    var published: seq<Publication>

    constructor ()
      ensures published == []
    {
      published := [];
    }

    method Publish(p: Publication)
      modifies this
      ensures published == old(published) + [p]
    {
      published := published + [p];
    }
  }

  /** The AMQP protocol object of a broker connection. */
  class Protocol {
    const journal: Journal
    var channelsOpened: nat
    var closed: bool

    constructor (journal: Journal)
      ensures this.journal == journal && channelsOpened == 0 && !closed
    {
      this.journal := journal;
      channelsOpened := 0;
      closed := false;
    }

    /** Opens a new channel. */
    method OpenChannel() returns (c: Channel)
      modifies this
      ensures fresh(c) && c.published == []
      ensures channelsOpened == old(channelsOpened) + 1 && closed == old(closed)
    {
      c := new Channel();
      channelsOpened := channelsOpened + 1;
    }

    method Close()
      modifies this, journal
      ensures closed && channelsOpened == old(channelsOpened)
      ensures journal.events == old(journal.events) + [ProtocolClosed]
    {
      closed := true;
      journal.Record(ProtocolClosed);
    }
  }

  /** The network transport of a broker connection. */
  class Transport {
    const journal: Journal
    var closed: bool

    constructor (journal: Journal)
      ensures this.journal == journal && !closed
    {
      this.journal := journal;
      closed := false;
    }

    method Close()
      modifies this, journal
      ensures closed
      ensures journal.events == old(journal.events) + [TransportClosed]
    {
      closed := true;
      journal.Record(TransportClosed);
    }
  }

  /** The properties a message is published with: the caller's properties
      with content_type and content_encoding set by the sink, overriding the
      caller's values for those two keys and keeping every other one. */
  function WithContentHeaders(properties: Properties): (r: Properties)
    ensures r.Keys == properties.Keys + {"content_type", "content_encoding"}
    ensures r["content_type"] == JStr(CONTENT_TYPE) && r["content_encoding"] == JStr(ENCODING)
    ensures forall k :: k in properties && k != "content_type" && k != "content_encoding" ==> r[k] == properties[k]
  {
    properties["content_type" := JStr(CONTENT_TYPE)]["content_encoding" := JStr(ENCODING)]
  }

  /** Adding the content headers twice is the same as adding them once. */
  lemma WithContentHeadersIdempotent(properties: Properties)
    ensures WithContentHeaders(WithContentHeaders(properties)) == WithContentHeaders(properties)
  {
    var once := WithContentHeaders(properties);
    var twice := WithContentHeaders(once);
    assert twice.Keys == once.Keys;
    forall k | k in once
      ensures twice[k] == once[k]
    {
      if k != "content_type" && k != "content_encoding" {
        assert twice[k] == once[k];
      }
    }
  }

  /** Publishes messages as JSON on one channel of a broker connection. */
  class AmqpMessageSink {
    const transport: Transport
    const protocol: Protocol
    /** The channel once opened; it is opened on first use and reused. */
    var channel: Channel?
    /** The JSON serializer. */
    const jsonDumps: Json -> string

    constructor (transport: Transport, protocol: Protocol, jsonDumps: Json -> string)
      ensures this.transport == transport && this.protocol == protocol
      ensures this.jsonDumps == jsonDumps && channel == null
    {
      this.transport := transport;
      this.protocol := protocol;
      this.jsonDumps := jsonDumps;
      channel := null;
    }

    /** The channel of the sink, opened on the first call only. */
    method GetChannel() returns (c: Channel)
      modifies this, protocol
      ensures channel == c
      ensures old(channel) != null ==> c == old(channel) && protocol.channelsOpened == old(protocol.channelsOpened)
      ensures old(channel) == null ==> fresh(c) && c.published == [] && protocol.channelsOpened == old(protocol.channelsOpened) + 1
      ensures protocol.closed == old(protocol.closed)
    {
      if channel == null {
        channel := protocol.OpenChannel();
      }
      c := channel;
    }

    /** Publishes the JSON serialization of `message`, encoded in UTF-8,
        to `exchangeName` with `routingKey`. The caller's `properties`, or a
        new empty dictionary when there are none, receive the content
        headers in place and are sent with the message. */
    method ConsumeMessage(message: Json, sinkName: string, exchangeName: string, routingKey: string,
                          properties: PropertyMap?)
      modifies this, protocol, channel, properties
      ensures properties != null ==> properties.entries == WithContentHeaders(old(properties.entries))
      ensures old(channel) != null ==> channel == old(channel)
      ensures old(channel) == null ==> fresh(channel)
      ensures protocol.channelsOpened == old(protocol.channelsOpened) + (if old(channel) == null then 1 else 0)
      ensures protocol.closed == old(protocol.closed)
      ensures channel != null && channel.published ==
        (if old(channel) == null then [] else old(channel.published)) +
        [Publication(Encoded(jsonDumps(message), ENCODING), exchangeName, routingKey,
                     WithContentHeaders(if properties == null then map[] else old(properties.entries)))]
    {
      var serialized := Encoded(jsonDumps(message), ENCODING);
      var props: PropertyMap;
      if properties == null {
        props := new PropertyMap(map[]);
      } else {
        props := properties;
      }
      props.entries := props.entries["content_type" := JStr(CONTENT_TYPE)];
      props.entries := props.entries["content_encoding" := JStr(ENCODING)];
      var c := GetChannel();
      c.Publish(Publication(serialized, exchangeName, routingKey, props.entries));
    }

    /** Closes the protocol, then the transport. */
    method Close()
      requires protocol.journal == transport.journal
      modifies protocol, transport, protocol.journal
      ensures protocol.closed && transport.closed
      ensures protocol.journal.events == old(protocol.journal.events) + [ProtocolClosed, TransportClosed]
    {
      protocol.Close();
      transport.Close();
    }
  }

  /** Forwards every message to the sink named by its route. */
  class MultiMessageSink {
    const sinks: map<string, AmqpMessageSink>

    constructor (sinks: map<string, AmqpMessageSink>)
      ensures this.sinks == sinks
    {
      this.sinks := sinks;
    }

    /** Forwards the message, with every argument unchanged, to the sink
        named `sinkName`; an unknown name raises KeyError and forwards
        nothing. */
    method ConsumeMessage(message: Json, sinkName: string, exchangeName: string, routingKey: string,
                          properties: PropertyMap?) returns (r: Outcome<Error>)
      modifies if sinkName in sinks then {sinks[sinkName], sinks[sinkName].protocol} else {}
      modifies if sinkName in sinks then {sinks[sinkName].channel, properties} else {}
      ensures sinkName !in sinks <==> r.Fail?
      ensures r.Fail? ==> r.error == KeyError(JStr(sinkName))
      ensures sinkName in sinks ==>
        var s := sinks[sinkName];
        && (properties != null ==> properties.entries == WithContentHeaders(old(properties.entries)))
        && (old(s.channel) != null ==> s.channel == old(s.channel))
        && (old(s.channel) == null ==> fresh(s.channel))
        && s.protocol.channelsOpened == old(s.protocol.channelsOpened) + (if old(s.channel) == null then 1 else 0)
        && s.protocol.closed == old(s.protocol.closed)
        && s.channel != null
        && s.channel.published ==
             (if old(s.channel) == null then [] else old(s.channel.published)) +
             [Publication(Encoded(s.jsonDumps(message), ENCODING), exchangeName, routingKey,
                          WithContentHeaders(if properties == null then map[] else old(properties.entries)))]
    {
      if sinkName !in sinks {
        return Fail(KeyError(JStr(sinkName)));
      }
      var sink := sinks[sinkName];
      sink.ConsumeMessage(message, sinkName, exchangeName, routingKey, properties);
      r := Pass;
    }

    /** Closes every sink. */
    method Close()
      requires forall s :: s in sinks.Values ==> s.protocol.journal == s.transport.journal
      modifies set s | s in sinks.Values :: s.protocol
      modifies set s | s in sinks.Values :: s.transport
      modifies set s | s in sinks.Values :: s.protocol.journal
      ensures forall k :: k in sinks ==> sinks[k].protocol.closed && sinks[k].transport.closed
    {
      var todo := sinks.Keys;
      while todo != {}
        invariant todo <= sinks.Keys
        invariant forall k :: k in sinks && k !in todo ==> sinks[k].protocol.closed && sinks[k].transport.closed
        decreases |todo|
      {
        var k :| k in todo;
        sinks[k].Close();
        todo := todo - {k};
      }
    }
  }
}
