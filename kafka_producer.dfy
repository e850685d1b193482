/** The broker producer (internal/repository/kafka_producer.go): one log
    entry becomes one message on the configured topic, keyed by the entry's
    service name so that a service's events share a partition. */
module KafkaProducer {
  import opened Domain

  /** A message as handed to the broker. */
  datatype ProducerMessage = ProducerMessage(topic: string, key: string, value: Json)

  /** The message `SendLog` builds, or the marshalling error that stops it. */
  function BuildMessage(topic: string, entry: LogEntry): (r: Result<ProducerMessage>)
    ensures r.Success? <==> Encodable(entry)
    ensures r.Failure? ==> r.error == YearRangeError
    ensures r.Success? ==>
      && r.value.topic == topic
      && r.value.key == entry.serviceName
      && Unmarshal(r.value.value) == Success(entry)
  {
    match Marshal(entry)
    case Failure(e) => Failure(e)
    case Success(bytes) => Success(ProducerMessage(topic, entry.serviceName, bytes))
  }

  /** Entries of one service carry one key, whatever else they hold. */
  lemma SameServiceSameKey(topic: string, a: LogEntry, b: LogEntry)
    requires Encodable(a) && Encodable(b)
    ensures BuildMessage(topic, a).value.key == BuildMessage(topic, b).value.key
            <==> a.serviceName == b.serviceName
  {
  }

  /** A synchronous producer; `sent` is what the broker has accepted from it,
      in order. */
  class Producer {
    const topic: string
    var sent: seq<ProducerMessage>

    constructor (topic: string)
      ensures this.topic == topic && sent == []
    {
      this.topic := topic;
      sent := [];
    }

    /** `SendLog`. `delivery` is what `SendMessage` reports once the client's
        own retries are over. A marshalling error or a send error is returned
        unchanged and nothing is recorded; success records exactly one message. */
    method SendLog(entry: LogEntry, delivery: Outcome) returns (err: Option<Error>)
      modifies this
      ensures BuildMessage(topic, entry).Failure? ==>
        err == Some(BuildMessage(topic, entry).error) && sent == old(sent)
      ensures BuildMessage(topic, entry).Success? && delivery.Fail? ==>
        err == Some(delivery.error) && sent == old(sent)
      ensures BuildMessage(topic, entry).Success? && delivery.Ok? ==>
        err == None && sent == old(sent) + [BuildMessage(topic, entry).value]
    {
      var bytes := Marshal(entry);
      if bytes.Failure? {
        return Some(bytes.error);
      }
      var msg := ProducerMessage(topic, entry.serviceName, bytes.value);
      if delivery.Fail? {
        return Some(delivery.error);
      }
      sent := sent + [msg];
      return None;
    }
  }
}
