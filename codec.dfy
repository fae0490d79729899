/** The wire codec that carries a Message across the broker.

    The byte format is this model's own (it is not msgpack): every character of
    the type tag is written as three bytes holding its code point, big-endian;
    a byte 0xFF, which can never start a character, ends the tag; the payload
    follows unchanged. What the facade relies on is proved below: decoding an
    encoding gives back the message. */
module Codec {
  import opened Model

  datatype DecodeError = Truncated | InvalidChar

  const Terminator: byte := 0xFF

  function CharBytes(c: char): seq<byte>
  {
    var n := c as int;
    [(n / 0x1_0000) as byte, (n / 0x100 % 0x100) as byte, (n % 0x100) as byte]
  }

  function CharOf(hi: byte, mid: byte, lo: byte): Option<char>
  {
    var n := hi as int * 0x1_0000 + mid as int * 0x100 + lo as int;
    if n < 0xD800 || 0xE000 <= n < 0x11_0000 then Some(n as char) else None
  }

  function EncodeTag(t: string): seq<byte>
  {
    if t == [] then [] else CharBytes(t[0]) + EncodeTag(t[1..])
  }

  /** Reads a type tag up to its terminator; returns the tag and the bytes after
      the terminator. */
  function DecodeTag(b: seq<byte>): Result<(string, seq<byte>), DecodeError>
    decreases |b|
  {
    if |b| == 0 then Failure(Truncated)
    else if b[0] == Terminator then Success(([], b[1..]))
    else if |b| < 3 then Failure(Truncated)
    else match CharOf(b[0], b[1], b[2])
      case None => Failure(InvalidChar)
      case Some(c) =>
        match DecodeTag(b[3..])
        case Failure(e) => Failure(e)
        case Success(r) => Success(([c] + r.0, r.1))
  }

  function Encode(m: Message): seq<byte>
  {
    EncodeTag(m.msgType) + [Terminator] + m.data
  }

  function Decode(b: seq<byte>): Result<Message, DecodeError>
  {
    match DecodeTag(b)
    case Failure(e) => Failure(e)
    case Success(r) => Success(Message(r.0, r.1))
  }

  lemma CharRoundTrip(c: char)
    ensures CharBytes(c)[0] != Terminator
    ensures CharOf(CharBytes(c)[0], CharBytes(c)[1], CharBytes(c)[2]) == Some(c)
  {
  }

  lemma {:induction false} TagRoundTrip(t: string, rest: seq<byte>)
    ensures DecodeTag(EncodeTag(t) + [Terminator] + rest) == Success((t, rest))
  {
    var b := EncodeTag(t) + [Terminator] + rest;
    if t == [] {
      assert b == [Terminator] + rest;
    } else {
      var cb := CharBytes(t[0]);
      CharRoundTrip(t[0]);
      assert b == cb + (EncodeTag(t[1..]) + [Terminator] + rest);
      assert b[..3] == cb;
      assert b[3..] == EncodeTag(t[1..]) + [Terminator] + rest;
      TagRoundTrip(t[1..], rest);
      assert [t[0]] + t[1..] == t;
    }
  }

  /** Decoding an encoding gives back exactly the encoded message. */
  lemma RoundTrip(m: Message)
    ensures Decode(Encode(m)) == Success(m)
  {
    TagRoundTrip(m.msgType, m.data);
  }

  /** Distinct messages have distinct encodings. */
  lemma EncodeInjective(m1: Message, m2: Message)
    ensures Encode(m1) == Encode(m2) <==> m1 == m2
  {
    RoundTrip(m1);
    RoundTrip(m2);
  }
}
