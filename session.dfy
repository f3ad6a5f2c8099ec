/**
 * `RabbitMQConnection`: one consumer session against a broker, configured
 * from a parameters file, then connected, read from, acknowledged on and
 * closed.
 */
module Session {
  import opened Wrappers
  import opened Numbers
  import opened Config
  import opened Shutdown
  import opened Broker
  import opened MessageData

  /**
   * Where a session stands. The Java class keeps no such tag and guards
   * none of these transitions; here each operation states the phase it
   * needs.
   */
  datatype Phase =
    | Idle           // configured, connect not yet called
    | Connected      // connection, channel and registered consumer in place
    | ConnectFailed  // connect threw part-way; the caller should discard the session
    | Closed         // close was called

  class RabbitMQConnection {
    /** The property bag: created once, added to by every init. */
    var properties: Properties
    var factory: Option<ConnectionFactory>
    var connection: Option<Connection>
    var channel: Option<Channel>
    var consumer: QueueingConsumer?
    ghost var phase: Phase
    /** Every request sent to the broker client, oldest first. */
    ghost var calls: seq<BrokerCall>

    ghost predicate Valid()
      reads this
    {
      && (factory.Some? ==> "queueName" in properties)
      && (phase.Idle? ==> connection.None? && channel.None? && consumer == null)
      && (!phase.Idle? ==> factory.Some?)
      && (phase.Connected? ==>
            && connection.Some? && channel.Some? && consumer != null
            && channel.value.connection == connection.value
            && consumer.channel == channel.value)
    }

    /** The field initialisers: an empty bag and no factory or handles. */
    constructor ()
      ensures Valid() && phase.Idle? && calls == []
      ensures properties == map[] && factory.None?
    {
      properties := map[];
      factory := None;
      connection := None;
      channel := None;
      consumer := null;
      phase := Idle;
      calls := [];
    }

    /**
     * The Java constructor: the field initialisers followed by `init(path)`;
     * a failing init means no session at all.
     */
    static method Create(path: Option<string>, files: FileSystem, crypto: Crypto)
      returns (r: Result<RabbitMQConnection, InitError>)
      ensures var o := InitFromPathOutcome(map[], None, path, files, crypto);
              && (r.Err? <==> o.error.Some?)
              && (r.Err? ==> o.error == Some(r.error))
              && (r.Ok? ==>
                    && fresh(r.value) && r.value.Valid()
                    && r.value.phase.Idle? && r.value.calls == []
                    && r.value.properties == o.properties
                    && r.value.factory == o.factory && o.factory.Some?)
    {
      var session := new RabbitMQConnection();
      var err := session.Init(path, files, crypto);
      if err.Some? {
        return Err(err.value);
      }
      r := Ok(session);
    }

    /** `init(String)`. */
    method Init(path: Option<string>, files: FileSystem, crypto: Crypto) returns (err: Option<InitError>)
      requires Valid()
      modifies this`properties, this`factory
      ensures Valid()
      ensures InitOutcome(properties, factory, err)
              == InitFromPathOutcome(old(properties), old(factory), path, files, crypto)
      ensures old(factory).None? && err.None? ==> factory.Some?
    {
      if path.None? {
        return Some(NoParametersFile);
      }
      if path.value !in files {
        return Some(ParametersFileNotFound(path.value));
      }
      err := InitFromStream(files[path.value], crypto);
    }

    /** `init(InputStream)`: load into the bag, validate, then set up the factory setter by setter. */
    method InitFromStream(source: Option<Properties>, crypto: Crypto) returns (err: Option<InitError>)
      requires Valid()
      modifies this`properties, this`factory
      ensures Valid()
      ensures InitOutcome(properties, factory, err)
              == InitFromStreamOutcome(old(properties), old(factory), source, crypto)
      ensures old(factory).None? && err.None? ==> factory.Some?
    {
      if source.None? {
        return Some(ParametersUnreadable);
      }
      properties := properties + source.value;
      if "queueName" !in properties {
        return Some(QueueNameMissing);
      }
      var ssl := TlsSetup(properties, crypto);
      if ssl.Err? {
        return Some(ssl.error);
      }
      factory := Some(NewConnectionFactory);
      factory := Some(factory.value.(host := GetProperty(properties, "host", "localhost")));
      var portText := GetProperty(properties, "port", "5672");
      var port := ParseInt(portText);
      if port.None? {
        return Some(PortNotNumeric(portText));
      }
      factory := Some(factory.value.(port := port.value));
      factory := Some(factory.value.(username := GetProperty(properties, "username", "guest")));
      factory := Some(factory.value.(password := GetProperty(properties, "password", "guest")));
      factory := Some(factory.value.(virtualHost := GetProperty(properties, "vhost", "/")));
      if ssl.value.Some? {
        factory := Some(factory.value.(ssl := ssl.value));
      }
      err := None;
    }

    /**
     * Opens one connection from the factory, one channel on it, one consumer
     * on that channel, and consumes the configured queue with the caller's
     * acknowledgement mode. A refused step is thrown as it is, and what was
     * opened before it stays in place.
     */
    method Connect(autoAck: bool, fault: Option<ConnectStage>) returns (err: Option<ConnectError>)
      requires Valid() && phase.Idle?
      requires factory.Some?
      modifies this`connection, this`channel, this`consumer, this`phase, this`calls
      ensures Valid()
      ensures err == (if fault.Some? then Some(ConnectivityError(fault.value)) else None)
      ensures phase == (if fault.None? then Connected else ConnectFailed)
      ensures calls == old(calls) + ConnectCalls(factory.value, properties["queueName"], autoAck, fault)
      ensures fault == Some(OpenConnection) ==> connection.None? && channel.None? && consumer == null
      ensures fault != Some(OpenConnection) ==> connection == Some(Connection(factory.value))
      ensures fault == Some(OpenChannel) ==> channel.None? && consumer == null
      ensures fault.None? || fault == Some(Consume) ==>
                && channel == Some(Channel(Connection(factory.value)))
                && consumer != null && fresh(consumer)
                && consumer.channel == channel.value && consumer.queue == []
    {
      var f := factory.value;
      calls := calls + [NewConnection(f)];
      if fault == Some(OpenConnection) {
        phase := ConnectFailed;
        return Some(ConnectivityError(OpenConnection));
      }
      connection := Some(Connection(f));
      calls := calls + [CreateChannel(connection.value)];
      if fault == Some(OpenChannel) {
        phase := ConnectFailed;
        return Some(ConnectivityError(OpenChannel));
      }
      channel := Some(Channel(connection.value));
      consumer := new QueueingConsumer(channel.value);
      calls := calls + [BasicConsume(channel.value, properties["queueName"], autoAck)];
      if fault == Some(Consume) {
        phase := ConnectFailed;
        return Some(ConnectivityError(Consume));
      }
      phase := Connected;
      err := None;
    }

    /**
     * Closes the channel, then the connection, attempting both whatever the
     * first does, and throws one exception listing what failed.
     */
    method Close(channelFails: bool, connectionFails: bool) returns (err: Option<ShutdownError>)
      requires Valid() && (phase.Connected? || phase.ConnectFailed?)
      requires channel.Some? && connection.Some?
      modifies this`phase, this`calls
      ensures Valid() && phase == Closed
      ensures calls == old(calls) + [CloseChannel(channel.value), CloseConnection(connection.value)]
      ensures err.Some? <==> channelFails || connectionFails
      ensures err.Some? ==> err.value.message == JoinLines(FailureDescriptions(channelFails, connectionFails))
    {
      var sb := "";
      var delim := "";
      calls := calls + [CloseChannel(channel.value)];
      if channelFails {
        sb := sb + ChannelCloseFailure;
        delim := LineSeparator;
      }
      calls := calls + [CloseConnection(connection.value)];
      if connectionFails {
        sb := sb + delim + ConnectionCloseFailure;
      }
      phase := Closed;
      if |sb| > 0 {
        err := Some(RabbitMQConnectionException(sb));
      } else {
        err := None;
      }
    }

    method GetHost() returns (host: string)
      requires factory.Some?
      ensures host == factory.value.host
    {
      host := factory.value.host;
    }

    method GetPort() returns (port: int32)
      requires factory.Some?
      ensures port == factory.value.port
    {
      port := factory.value.port;
    }

    method GetUsername() returns (username: string)
      requires factory.Some?
      ensures username == factory.value.username
    {
      username := factory.value.username;
    }

    method GetVirtualHost() returns (virtualHost: string)
      requires factory.Some?
      ensures virtualHost == factory.value.virtualHost
    {
      virtualHost := factory.value.virtualHost;
    }

    /** Takes the next delivery and copies its body and tag into the holder, unchanged. */
    method NextData(data: RabbitMQMessageData)
      requires Valid() && phase.Connected?
      requires |consumer.queue| > 0
      modifies consumer, data
      ensures consumer.queue == old(consumer.queue)[1..]
      ensures data.bytes == Some(old(consumer.queue)[0].body)
      ensures data.deliveryTag == old(consumer.queue)[0].envelope.deliveryTag
    {
      var delivery := consumer.NextDelivery();
      data.SetBytes(Some(delivery.body));
      data.SetDeliveryTag(delivery.envelope.deliveryTag);
    }

    /**
     * Acknowledges exactly the holder's tag, as a single message; nothing is
     * remembered, so a tag acknowledged before is sent again.
     */
    method BasicAck(data: RabbitMQMessageData, fails: bool) returns (err: Option<AckError>)
      requires Valid() && channel.Some? && !phase.Closed?
      modifies this`calls
      ensures calls == old(calls) + [Ack(channel.value, data.deliveryTag, false)]
      ensures err == (if fails then Some(AckIOError(data.deliveryTag)) else None)
    {
      var tag := data.GetDeliveryTag();
      calls := calls + [Ack(channel.value, tag, false)];
      err := if fails then Some(AckIOError(tag)) else None;
    }
  }

  /**
   * One turn of a caller's retrieve-then-acknowledge loop: the broker is
   * asked to acknowledge exactly the tag it delivered.
   */
  method ReceiveAndAck(session: RabbitMQConnection, data: RabbitMQMessageData, ackFails: bool)
    returns (err: Option<AckError>)
    requires session.Valid() && session.phase.Connected?
    requires |session.consumer.queue| > 0
    modifies session.consumer, data, session`calls
    ensures session.calls
            == old(session.calls) + [Ack(session.channel.value, old(session.consumer.queue)[0].envelope.deliveryTag, false)]
    ensures session.consumer.queue == old(session.consumer.queue)[1..]
    ensures data.bytes == Some(old(session.consumer.queue)[0].body)
    ensures data.deliveryTag == old(session.consumer.queue)[0].envelope.deliveryTag
  {
    session.NextData(data);
    err := session.BasicAck(data, ackFails);
  }
}
