/**
 * The broker client library as the session sees it: handles for the
 * connection and channel, the deliveries a queueing consumer buffers, and
 * the calls the session makes on the broker, in order.
 */
module Broker {
  import opened Wrappers
  import opened Numbers
  import opened Config

  /** A connection opened from a factory's settings. */
  datatype Connection = Connection(factory: ConnectionFactory)

  /** A channel opened on a connection. */
  datatype Channel = Channel(connection: Connection)

  datatype Envelope = Envelope(deliveryTag: int64)

  /** One message pushed by the broker: its body and the tag that acknowledges it. */
  datatype Delivery = Delivery(body: seq<int8>, envelope: Envelope)

  /** A request the session sends to the broker client. */
  datatype BrokerCall =
    | NewConnection(factory: ConnectionFactory)
    | CreateChannel(connection: Connection)
    | BasicConsume(channel: Channel, queue: string, autoAck: bool)
    | CloseChannel(channel: Channel)
    | CloseConnection(connection: Connection)
    | Ack(channel: Channel, deliveryTag: int64, multiple: bool)

  /** The step of `connect` the broker refuses. */
  datatype ConnectStage = OpenConnection | OpenChannel | Consume

  /** The exception `connect` lets through unwrapped. */
  datatype ConnectError = ConnectivityError(stage: ConnectStage)

  /** An `IOException` from the channel when acknowledging. */
  datatype AckError = AckIOError(deliveryTag: int64)

  /** The calls a connect attempt makes, up to and including the one refused. */
  function ConnectCalls(factory: ConnectionFactory, queue: string, autoAck: bool, fault: Option<ConnectStage>)
    : (calls: seq<BrokerCall>)
    ensures |calls| == match fault
                       case Some(OpenConnection) => 1
                       case Some(OpenChannel) => 2
                       case _ => 3
    ensures calls[0] == NewConnection(factory)
    ensures |calls| > 1 ==> calls[1] == CreateChannel(Connection(factory))
    ensures |calls| > 2 ==> calls[2] == BasicConsume(Channel(Connection(factory)), queue, autoAck)
  {
    var connection := Connection(factory);
    var all := [NewConnection(factory), CreateChannel(connection), BasicConsume(Channel(connection), queue, autoAck)];
    match fault
    case Some(OpenConnection) => all[..1]
    case Some(OpenChannel) => all[..2]
    case _ => all
  }

  /** A `QueueingConsumer`: deliveries wait in its queue until taken. */
  class QueueingConsumer {
    const channel: Channel
    var queue: seq<Delivery>

    constructor (ch: Channel)
      ensures channel == ch && queue == []
    {
      channel := ch;
      queue := [];
    }

    /** The client library's delivery callback: the broker pushes one message. */
    method HandleDelivery(d: Delivery)
      modifies this
      ensures queue == old(queue) + [d]
    {
      queue := queue + [d];
    }

    /** Takes the oldest buffered delivery. */
    method NextDelivery() returns (d: Delivery)
      requires |queue| > 0
      modifies this
      ensures d == old(queue)[0] && queue == old(queue)[1..]
    {
      d := queue[0];
      queue := queue[1..];
    }
  }
}
