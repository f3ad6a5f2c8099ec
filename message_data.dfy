/** The holder `nextData` fills and `basicAck` reads. */
module MessageData {
  import opened Wrappers
  import opened Numbers

  class RabbitMQMessageData {
    /** The body; `None` stands for Java's null. */
    var bytes: Option<seq<int8>>
    var deliveryTag: int64

    /** Fields declared without initialisers: no body, tag 0. */
    constructor ()
      ensures bytes.None? && deliveryTag == 0
    {
      bytes := None;
      deliveryTag := 0;
    }

    method GetBytes() returns (b: Option<seq<int8>>)
      ensures b == bytes
    {
      b := bytes;
    }

    method SetBytes(b: Option<seq<int8>>)
      modifies this`bytes
      ensures bytes == b && deliveryTag == old(deliveryTag)
    {
      bytes := b;
    }

    method GetDeliveryTag() returns (t: int64)
      ensures t == deliveryTag
    {
      t := deliveryTag;
    }

    method SetDeliveryTag(t: int64)
      modifies this`deliveryTag
      ensures deliveryTag == t && bytes == old(bytes)
    {
      deliveryTag := t;
    }
  }
}
