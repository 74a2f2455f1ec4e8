/** The topic and the two producers that append to it. */
module Producer {
  import opened Types

  const MESSAGE_VERSION := "1"

  datatype FetchRequest =
    FetchRequest(version: string, url: string, requestedAt: Time, requestID: string, source: string)

  /** What the consumer finds in a message's bytes. */
  datatype Payload = Malformed(bytes: seq<byte>) | Decoded(request: FetchRequest)

  datatype Message = Message(key: string, value: Payload)

  class KafkaProducer {
    var partitions: seq<seq<Message>>

    constructor (n: nat)
      requires n >= 1
      ensures partitions == seq(n, _ => [])
    {
      partitions := seq(n, _ => []);
    }

    /** `chosen` is the partition the balancer picks: the one with the fewest bytes, whatever the key. */
    method Publish(msg: FetchRequest, chosen: nat, reply: Reply) returns (err: Option<string>)
      requires chosen < |partitions|
      modifies this
      ensures partitions == if Applied(reply)
        then old(partitions)[chosen := old(partitions)[chosen] + [Message(msg.url, Decoded(msg))]]
        else old(partitions)
      ensures err == if reply.Done? then None else Some("publish to kafka: " + reply.cause)
    {
      if Applied(reply) {
        partitions := partitions[chosen := partitions[chosen] + [Message(msg.url, Decoded(msg))]];
      }
      err := if reply.Done? then None else Some("publish to kafka: " + reply.cause);
    }
  }

  class MockProducer {
    var messages: seq<FetchRequest>
    var err: Option<string>

    constructor ()
      ensures messages == [] && err == None
    {
      messages, err := [], None;
    }

    method Publish(msg: FetchRequest) returns (e: Option<string>)
      modifies this`messages
      ensures e == err
      ensures messages == if err.Some? then old(messages) else old(messages) + [msg]
    {
      if err.Some? {
        return err;
      }
      messages := messages + [msg];
      e := None;
    }
  }
}
