/** The framed connection and the request envelope of `ipc/command.rs`. */
module Command {
  import opened Wrappers
  import opened Frame

  /** A decoded JSON value. */
  datatype Json =
    | Null
    | Bool(b: bool)
    | Number(text: string)
    | Text(s: string)
    | List(items: seq<Json>)
    | Object(fields: map<string, Json>)

  /** The "type" member of a request, if it is an object that has a textual one. */
  function TypeField(body: Json): Option<string> {
    if body.Object? && "type" in body.fields && body.fields["type"].Text?
    then Some(body.fields["type"].s)
    else None
  }

  datatype RejectReason = Auth | Busy

  datatype IpcError = FrameFailure(error: FrameError) | Other(message: string) | Hangup

  /** What a caller hands to `reply`: it serialises to bytes, or fails to. */
  datatype Message = Payload(bytes: seq<byte>) | Unserialisable

  /** The payloads that `reply` puts on the wire. */
  function Accepted(messages: seq<Message>, max: nat): seq<seq<byte>> {
    if messages == [] then []
    else (if messages[0].Payload? && |messages[0].bytes| <= max then [messages[0].bytes] else [])
         + Accepted(messages[1..], max)
  }

  lemma {:induction false} AcceptedAppends(a: seq<Message>, b: seq<Message>, max: nat)
    ensures Accepted(a + b, max) == Accepted(a, max) + Accepted(b, max)
  {
    if a == [] {
      assert a + b == b;
    } else {
      assert (a + b)[0] == a[0] && (a + b)[1..] == a[1..] + b;
      AcceptedAppends(a[1..], b, max);
    }
  }

  /** How many of these messages can be sent. */
  function Sendable(messages: seq<Message>, max: nat): nat {
    if messages == [] then 0
    else
      var last := messages[|messages| - 1];
      Sendable(messages[..|messages| - 1], max) + (if last.Payload? && |last.bytes| <= max then 1 else 0)
  }

  lemma {:induction false} AcceptedCount(messages: seq<Message>, max: nat)
    ensures |Accepted(messages, max)| == Sendable(messages, max)
  {
    if messages != [] {
      var n := |messages| - 1;
      AcceptedCount(messages[..n], max);
      AcceptedAppends(messages[..n], [messages[n]], max);
      assert messages == messages[..n] + [messages[n]];
    }
  }

  /** A message that can be sent is put on the wire behind all those before it that can. */
  lemma AcceptedAt(messages: seq<Message>, max: nat, i: nat)
    requires i < |messages| && messages[i].Payload? && |messages[i].bytes| <= max
    ensures var at := Sendable(messages[..i], max);
            at < |Accepted(messages, max)| && Accepted(messages, max)[at] == messages[i].bytes
  {
    var before, behind := messages[..i], messages[i..];
    AcceptedCount(before, max);
    AcceptedAppends(before, behind, max);
    assert messages == before + behind;
    assert Accepted(behind, max)[0] == messages[i].bytes;
  }

  /** One client. */
  class Connection {
    const stream: Socket
    const maxFrame: nat

    constructor (stream: Socket, maxFrame: nat)
      ensures this.stream == stream && this.maxFrame == maxFrame
    {
      this.stream, this.maxFrame := stream, maxFrame;
    }

    /** A message that is rejected adds no byte to the wire. */
    method Reply(message: Message) returns (r: Result<()>)
      modifies stream`out
      ensures stream.out == if message.Payload? && |message.bytes| <= maxFrame
                            then Put(old(stream.out), Encode(message.bytes))
                            else old(stream.out)
      ensures stream.out == PutAll(old(stream.out), Accepted([message], maxFrame))
      ensures message.Unserialisable? ==> r == Err(Json)
      ensures message.Payload? && |message.bytes| > maxFrame ==> r == Err(TooLarge(|message.bytes|, maxFrame))
      ensures message.Payload? && |message.bytes| <= maxFrame ==>
                (r.Ok? <==> Fits(old(stream.out), Encode(message.bytes)))
    {
      match message {
        case Unserialisable =>
          r := Err(FrameError.Json);
        case Payload(bytes) =>
          assert Accepted([message], maxFrame) == if |bytes| <= maxFrame then [bytes] else [];
          assert |bytes| <= maxFrame ==> PutAll(stream.out, [bytes]) == Put(stream.out, Encode(bytes));
          r := WriteFrameBytes(stream, bytes, maxFrame);
      }
    }

    method ReadValue(parse: seq<byte> -> Option<Json>) returns (r: Result<Json>)
      modifies stream`incoming
      ensures stream.incoming == AfterFrame(old(stream.incoming), maxFrame)
      ensures r == match Decode(Data(old(stream.incoming)), EndOf(old(stream.incoming)), maxFrame)
                   case Err(e) => Err(e)
                   case Ok(payload) => if parse(payload).Some? then Ok(parse(payload).value) else Err(FrameError.Json)
    {
      var payload := ReadFrameBytes(stream, maxFrame);
      if payload.Err? {
        return Err(payload.error);
      }
      var body := parse(payload.value);
      r := if body.Some? then Ok(body.value) else Err(FrameError.Json);
    }
  }
}
