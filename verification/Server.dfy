/** The session engine of `ipc/server.rs`: `dispatch_one` and `handle_conn`. */
module Server {
  import opened Wrappers
  import opened Frame
  import opened Codec
  import opened Command

  datatype SessionMode = OneShot | Persistent

  /** What the session can be seen to do: run a command or call a hook. */
  datatype Call =
    | Execute(name: string, body: Json)
    | Unknown(name: string, body: Json)
    | Error(error: IpcError)
    | Reject(reason: RejectReason)

  /** What a command or hook does with the connection: raw reads of these sizes,
      replies, and (for a command) its result. */
  datatype Effect = Effect(drains: seq<nat>, replies: seq<Message>, outcome: Option<IpcError>)

  /** The JSON parser, the registered command names, the frame cap, and the behaviour
      of commands and hooks. The latter may depend on everything that was called so
      far, so a statement for every `behave` holds for commands with any state of
      their own, shared with any other thread. */
  datatype Service = Service(parse: seq<byte> -> Option<Json>, commands: set<string>,
                             max: nat, behave: seq<Call> -> Effect)

  /** A connection and the calls made for it. */
  datatype View = View(incoming: Stream, out: Out, trace: seq<Call>)

  function Consume(s: Stream, sizes: seq<nat>): Stream
    decreases sizes
  {
    if sizes == [] then s else Consume(ReadOnce(s, sizes[0]).1, sizes[1..])
  }

  /** Make one call: its effect is decided by the calls up to and including it. */
  function Perform(svc: Service, v: View, call: Call): View {
    var e := svc.behave(v.trace + [call]);
    View(Consume(v.incoming, e.drains), PutAll(v.out, Accepted(e.replies, svc.max)), v.trace + [call])
  }

  function Outcome(svc: Service, v: View, call: Call): Option<IpcError> {
    svc.behave(v.trace + [call]).outcome
  }

  /** Which call a request leads to. */
  function Route(commands: set<string>, body: Json): (c: Call) {
    match TypeField(body)
    case None => Unknown("", body)
    case Some(name) => if name in commands then Execute(name, body) else Unknown(name, body)
  }

  /** The error that stands for a command that hung up. */
  const HANGUP: FrameError := UnexpectedEof(0, 0)

  /** The state after one dispatch, and its result. */
  function Dispatch(svc: Service, v: View): (View, Result<()>) {
    var v1 := v.(incoming := AfterFrame(v.incoming, svc.max));
    match Decode(Data(v.incoming), EndOf(v.incoming), svc.max)
    case Err(e) => (v1, Err(e))
    case Ok(payload) =>
      match svc.parse(payload)
      case None => (v1, Err(FrameError.Json))
      case Some(body) =>
        var call := Route(svc.commands, body);
        var v2 := Perform(svc, v1, call);
        if call.Unknown? then (v2, Ok(()))
        else match Outcome(svc, v1, call)
          case None => (v2, Ok(()))
          case Some(Hangup) => (v2, Err(HANGUP))
          case Some(e) => (Perform(svc, v2, Error(e)), Ok(()))
  }

  /** Errors that end a persistent session without a word. */
  predicate Silent(e: FrameError) {
    e.UnexpectedEof? || e == Io(EofKind) || e == Io(ConnectionReset)
  }

  function Requests(svc: Service, v: View): View
    decreases Volume(v.incoming)
  {
    var (v1, r) := Dispatch(svc, v);
    if r.Ok? then
      DispatchConsumes(svc, v);
      Requests(svc, v1)
    else if Silent(r.error) then v1
    else Perform(svc, v1, Error(FrameFailure(r.error)))
  }

  function Handle(svc: Service, mode: SessionMode, allowed: bool, v: View): View {
    if !allowed then Perform(svc, v, Reject(Auth))
    else match mode
      case OneShot =>
        var (v1, r) := Dispatch(svc, v);
        if r.Ok? then v1 else Perform(svc, v1, Error(FrameFailure(r.error)))
      case Persistent => Requests(svc, v)
  }

  lemma {:induction false} ConsumeShrinks(s: Stream, sizes: seq<nat>)
    ensures Volume(Consume(s, sizes)) <= Volume(s)
    decreases sizes
  {
    if sizes != [] {
      var rest := ReadOnce(s, sizes[0]).1;
      assert Volume(rest) <= Volume(s) by {
        if sizes[0] != 0 && s != [] && s[0].Bytes? && |s[0].data| > sizes[0] {
          assert rest[1..] == s[1..];
        }
      }
      ConsumeShrinks(rest, sizes[1..]);
    }
  }

  lemma AfterEndShrinks(s: Stream)
    ensures Volume(AfterEnd(s)) <= Volume(s)
  {
  }

  /** Every request that is dispatched takes its header off the stream. */
  lemma DispatchConsumes(svc: Service, v: View)
    ensures var (v1, r) := Dispatch(svc, v);
            Volume(v1.incoming) + (if r.Ok? || r == Err(HANGUP) then HEADER_LEN else 0)
            <= Volume(v.incoming)
  {
    var d := Decode(Data(v.incoming), EndOf(v.incoming), svc.max);
    AfterEndShrinks(v.incoming);
    if d.Ok? || d.error.TooLarge? {
      DropKeeps(v.incoming, if d.Ok? then HEADER_LEN + |d.value| else HEADER_LEN);
    }
    if d.Ok? && svc.parse(d.value).Some? {
      var v1 := v.(incoming := AfterFrame(v.incoming, svc.max));
      var call := Route(svc.commands, svc.parse(d.value).value);
      var v2 := Perform(svc, v1, call);
      ConsumeShrinks(v1.incoming, svc.behave(v1.trace + [call]).drains);
      var e := Outcome(svc, v1, call);
      if call.Execute? && e.Some? && !e.value.Hangup? {
        ConsumeShrinks(v2.incoming, svc.behave(v2.trace + [Error(e.value)]).drains);
      }
    }
  }

  /** One connection while it is being served. */
  class Session {
    const conn: Connection
    var trace: seq<Call>

    constructor (conn: Connection)
      ensures this.conn == conn && trace == []
    {
      this.conn, trace := conn, [];
    }

    function Now(): View
      reads this, conn.stream
    {
      View(conn.stream.incoming, conn.stream.out, trace)
    }

    /** Raw reads of a command. */
    method Drain(sizes: seq<nat>)
      modifies conn.stream`incoming
      ensures conn.stream.incoming == Consume(old(conn.stream.incoming), sizes)
    {
      var i := 0;
      while i < |sizes|
        invariant i <= |sizes|
        invariant Consume(conn.stream.incoming, sizes[i..]) == Consume(old(conn.stream.incoming), sizes)
      {
        if sizes[i] > 0 {
          var buf := new byte[sizes[i]];
          var _ := conn.stream.Read(buf, 0);
        }
        i := i + 1;
      }
    }

    /** The replies of a command, which may ignore that one was not accepted. */
    method ReplyAll(messages: seq<Message>)
      modifies conn.stream`out
      ensures conn.stream.out == PutAll(old(conn.stream.out), Accepted(messages, conn.maxFrame))
    {
      ghost var was, max := conn.stream.out, conn.maxFrame;
      var i := 0;
      while i < |messages|
        invariant i <= |messages|
        invariant conn.stream.out == PutAll(was, Accepted(messages[..i], max))
      {
        var done, next := messages[..i], [messages[i]];
        assert messages[..i + 1] == done + next;
        AcceptedAppends(done, next, max);
        PutAllInTwo(was, Accepted(done, max), Accepted(next, max));
        var _ := conn.Reply(messages[i]);
        i := i + 1;
      }
      assert messages[..i] == messages;
    }

    /** A command or hook at work, through the connection it was given. */
    method Do(svc: Service, call: Call) returns (outcome: Option<IpcError>)
      requires svc.max == conn.maxFrame
      modifies this, conn.stream
      ensures Now() == Perform(svc, old(Now()), call)
      ensures outcome == Outcome(svc, old(Now()), call)
    {
      trace := trace + [call];
      var e := svc.behave(trace);
      Drain(e.drains);
      ReplyAll(e.replies);
      outcome := e.outcome;
    }

    method DispatchOne(svc: Service) returns (r: Result<()>)
      requires svc.max == conn.maxFrame
      modifies this, conn.stream
      ensures (Now(), r) == Dispatch(svc, old(Now()))
    {
      var body := conn.ReadValue(svc.parse);
      if body.Err? {
        return Err(body.error);
      }
      var name := TypeField(body.value);
      if name.None? {
        var _ := Do(svc, Unknown("", body.value));
        return Ok(());
      }
      if name.value !in svc.commands {
        var _ := Do(svc, Unknown(name.value, body.value));
        return Ok(());
      }
      var e := Do(svc, Execute(name.value, body.value));
      if e.Some? {
        match e.value {
          case Hangup => return Err(HANGUP);
          case other => var _ := Do(svc, Error(other));
        }
      }
      r := Ok(());
    }

    method HandleConn(svc: Service, mode: SessionMode, allowed: bool)
      requires svc.max == conn.maxFrame
      modifies this, conn.stream
      ensures Now() == Handle(svc, mode, allowed, old(Now()))
    {
      if !allowed {
        var _ := Do(svc, Reject(Auth));
        return;
      }
      match mode {
        case OneShot =>
          var r := DispatchOne(svc);
          if r.Err? {
            var _ := Do(svc, Error(FrameFailure(r.error)));
          }
        case Persistent =>
          while true
            invariant Requests(svc, Now()) == Requests(svc, old(Now()))
            decreases Volume(conn.stream.incoming)
          {
            DispatchConsumes(svc, Now());
            var r := DispatchOne(svc);
            if r.Ok? {
              continue;
            }
            if r.error.UnexpectedEof? {
              break;
            }
            if r.error.Io? && (r.error.kind == EofKind || r.error.kind == ConnectionReset) {
              break;
            }
            var _ := Do(svc, Error(FrameFailure(r.error)));
            break;
          }
      }
    }
  }
}
