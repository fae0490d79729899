/** The broker client the facade publishes to and subscribes through, as the
    scripted fake of the NATS client interface that the tests configure: it
    records every publish and subscribe, answers with a scripted error, and
    hands each new subscription's callback the payloads scripted for its
    subject. */
module Nats {
  import opened Model
  import Stream

  /** The broker address of one (tenant, device, direction) triple. Its string
      rendering is not part of this model; two subjects are equal exactly when
      their triples are. */
  datatype Subject = Subject(tenantID: string, deviceID: string, direction: string)

  datatype Publication = Publication(subject: Subject, data: seq<byte>)

  class Client {
    /** Every publish received, in order. */
    var published: seq<Publication>
    /** The subject of every subscribe received, in order. */
    var subscriptions: seq<Subject>
    /** Scripted replies. */
    var publishErr: Option<Error>
    var subscribeErr: Option<Error>
    var deliveries: map<Subject, seq<seq<byte>>>

    constructor ()
      ensures published == [] && subscriptions == []
      ensures publishErr == None && subscribeErr == None && deliveries == map[]
    {
      published, subscriptions := [], [];
      publishErr, subscribeErr, deliveries := None, None, map[];
    }

    /** The payloads the broker delivers to a new subscription on s. */
    function PendingFor(s: Subject): seq<seq<byte>>
      reads this
    {
      if s in deliveries then deliveries[s] else []
    }

    method Publish(subject: Subject, data: seq<byte>) returns (err: Option<Error>)
      modifies this
      ensures published == old(published) + [Publication(subject, data)]
      ensures err == publishErr
      ensures subscriptions == old(subscriptions)
      ensures publishErr == old(publishErr) && subscribeErr == old(subscribeErr)
      ensures deliveries == old(deliveries)
    {
      published := published + [Publication(subject, data)];
      err := publishErr;
    }

    /** Registers sink's callback on subject. When the subscription succeeds,
        the callback receives the subject's pending payloads, in order. */
    method Subscribe(subject: Subject, sink: Stream.MessageStream) returns (err: Option<Error>)
      modifies this, sink
      ensures subscriptions == old(subscriptions) + [subject]
      ensures err == subscribeErr
      ensures err == None ==> sink.queue == old(sink.queue) + Stream.Decoded(PendingFor(subject))
      ensures err != None ==> sink.queue == old(sink.queue)
      ensures published == old(published)
      ensures publishErr == old(publishErr) && subscribeErr == old(subscribeErr)
      ensures deliveries == old(deliveries)
    {
      subscriptions := subscriptions + [subject];
      err := subscribeErr;
      if err == None {
        var payloads := PendingFor(subject);
        for i := 0 to |payloads|
          modifies sink
          invariant sink.queue == old(sink.queue) + Stream.Decoded(payloads[..i])
        {
          Stream.DecodedAppend(payloads[..i], [payloads[i]]);
          assert payloads[..i + 1] == payloads[..i] + [payloads[i]];
          sink.Deliver(payloads[i]);
        }
        assert payloads[..|payloads|] == payloads;
      }
    }
  }
}
