/** The per-subscription message stream the facade hands to its caller (a Go
    channel of decoded messages), modelled as a FIFO queue. The broker's
    delivery callback is the only producer; the caller is the only consumer. */
module Stream {
  import opened Model
  import Codec

  /** The messages a run of deliveries puts on a stream, in delivery order; a
      payload that does not decode is dropped. */
  function Decoded(payloads: seq<seq<byte>>): seq<Message>
  {
    if payloads == [] then []
    else
      (match Codec.Decode(payloads[0])
       case Success(m) => [m]
       case Failure(_) => []) + Decoded(payloads[1..])
  }

  function EncodeAll(ms: seq<Message>): seq<seq<byte>>
  {
    seq(|ms|, i requires 0 <= i < |ms| => Codec.Encode(ms[i]))
  }

  /** Deliveries in two runs put on the stream what the runs put on it one
      after the other: the stream neither reorders nor loses well-formed
      messages. */
  lemma {:induction false} DecodedAppend(a: seq<seq<byte>>, b: seq<seq<byte>>)
    ensures Decoded(a + b) == Decoded(a) + Decoded(b)
  {
    if a == [] {
      assert a + b == b;
    } else {
      assert (a + b)[0] == a[0];
      assert (a + b)[1..] == a[1..] + b;
      DecodedAppend(a[1..], b);
    }
  }

  /** Delivering the encodings of ms yields exactly ms, in order. */
  lemma {:induction false} DecodedEncodings(ms: seq<Message>)
    ensures Decoded(EncodeAll(ms)) == ms
  {
    if ms != [] {
      Codec.RoundTrip(ms[0]);
      assert EncodeAll(ms)[1..] == EncodeAll(ms[1..]);
      DecodedEncodings(ms[1..]);
    }
  }

  /** Only payloads that decode reach the stream: every message on it came from
      some delivered payload. */
  lemma {:induction false} DecodedFromPayloads(payloads: seq<seq<byte>>, m: Message)
    requires m in Decoded(payloads)
    ensures exists i :: 0 <= i < |payloads| && Codec.Decode(payloads[i]) == Success(m)
  {
    if Codec.Decode(payloads[0]) == Success(m) {
      assert 0 < |payloads|;
    } else {
      assert m in Decoded(payloads[1..]);
      DecodedFromPayloads(payloads[1..], m);
      var i :| 0 <= i < |payloads[1..]| && Codec.Decode(payloads[1..][i]) == Success(m);
      assert payloads[i + 1] == payloads[1..][i];
    }
  }

  class MessageStream {
    /** Messages delivered and not yet received, oldest first. */
    var queue: seq<Message>

    constructor ()
      ensures queue == []
    {
      queue := [];
    }

    /** The delivery callback: decode the raw payload and enqueue the message,
        or drop the payload when it does not decode. */
    method Deliver(payload: seq<byte>)
      modifies this
      ensures queue == old(queue) + Decoded([payload])
    {
      var r := Codec.Decode(payload);
      if r.Success? {
        queue := queue + [r.value];
      }
      assert [payload][1..] == [];
    }

    /** Take the oldest message. None stands for a receive on an empty channel,
        which in Go would wait for the next delivery. */
    method Receive() returns (m: Option<Message>)
      modifies this
      ensures old(queue) == [] ==> m == None && queue == []
      ensures old(queue) != [] ==> m == Some(old(queue)[0]) && queue == old(queue)[1..]
    {
      if queue == [] {
        m := None;
      } else {
        m := Some(queue[0]);
        queue := queue[1..];
      }
    }
  }
}
