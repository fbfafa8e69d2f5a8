/** What the session engine of `ipc/server.rs` guarantees over whole sessions. */
module SessionProps {
  import opened Wrappers
  import opened Frame
  import opened Codec
  import opened Command
  import opened Server

  // -------------------------------------- the session refines parse-and-dispatch

  /** The calls a persistent session makes for a given list of frames, after `h`. */
  function Play(svc: Service, s: Script, h: seq<Call>): seq<Call>
    decreases s
  {
    match s
    case Stop(e) => if Silent(e) then h else h + [Error(FrameFailure(e))]
    case More(p, next) =>
      match svc.parse(p)
      case None => h + [Error(FrameFailure(FrameError.Json))]
      case Some(body) =>
        var call := Route(svc.commands, body);
        if call.Unknown? then Play(svc, next, h + [call])
        else match svc.behave(h + [call]).outcome
          case None => Play(svc, next, h + [call])
          case Some(Hangup) => h + [call]
          case Some(e) => Play(svc, next, h + [call, Error(e)])
  }

  /** No command or hook takes anything off the input stream. */
  ghost predicate LeavesInputAlone(svc: Service) {
    forall h :: svc.behave(h).drains == []
  }

  /** The frames that the bytes of the incoming stream are cut into. */
  function ScriptFor(svc: Service, v: View): Script {
    Frames(Data(v.incoming), EndOf(v.incoming), svc.max)
  }

  /** A dispatch takes the first frame off the script, and makes its calls. */
  lemma DispatchPlaysOne(svc: Service, v: View)
    requires LeavesInputAlone(svc) && Dispatch(svc, v).1.Ok?
    ensures var v1 := Dispatch(svc, v).0;
            Play(svc, ScriptFor(svc, v), v.trace) == Play(svc, ScriptFor(svc, v1), v1.trace)
  {
    var v1 := Dispatch(svc, v).0;
    var payload := Decode(Data(v.incoming), EndOf(v.incoming), svc.max).value;
    DropKeeps(v.incoming, HEADER_LEN + |payload|);
    assert v1.incoming == Drop(v.incoming, HEADER_LEN + |payload|);
    assert ScriptFor(svc, v) == More(payload, ScriptFor(svc, v1));
    var call := Route(svc.commands, svc.parse(payload).value);
    var e := svc.behave(v.trace + [call]).outcome;
    if call.Execute? && e.Some? {
      assert v.trace + [call] + [Error(e.value)] == v.trace + [call, Error(e.value)];
    }
  }

  /** Whatever the chunk schedule, the calls of a persistent session are those that
      the bytes of the stream, cut into frames up front, call for. */
  lemma {:induction false} SessionRefinesScript(svc: Service, v: View)
    requires LeavesInputAlone(svc)
    ensures Requests(svc, v).trace == Play(svc, ScriptFor(svc, v), v.trace)
    decreases Volume(v.incoming)
  {
    if Dispatch(svc, v).1.Ok? {
      DispatchConsumes(svc, v);
      DispatchPlaysOne(svc, v);
      SessionRefinesScript(svc, Dispatch(svc, v).0);
    }
  }

  /** The request bodies that were dispatched, in order. */
  function Bodies(calls: seq<Call>): seq<Json> {
    if calls == [] then []
    else (if calls[0].Execute? || calls[0].Unknown? then [calls[0].body] else []) + Bodies(calls[1..])
  }

  lemma {:induction false} BodiesSplit(a: seq<Call>, b: seq<Call>)
    ensures Bodies(a + b) == Bodies(a) + Bodies(b)
  {
    if a == [] {
      assert a + b == b;
    } else {
      BodiesSplit(a[1..], b);
      assert (a + b)[0] == a[0] && (a + b)[1..] == a[1..] + b;
      var first := if a[0].Execute? || a[0].Unknown? then [a[0].body] else [];
      assert first + (Bodies(a[1..]) + Bodies(b)) == (first + Bodies(a[1..])) + Bodies(b);
    }
  }

  /** A dispatch is one command or `unknown` call, with perhaps an error hook behind it. */
  lemma BodyOfOneDispatch(made: seq<Call>)
    requires 1 <= |made| <= 2 && (made[0].Execute? || made[0].Unknown?)
    requires |made| == 2 ==> made[1].Error?
    ensures Bodies(made) == [made[0].body]
  {
    assert made[1..] == if |made| == 1 then [] else [made[1]];
    assert |made| == 2 ==> [made[1]][1..] == [];
  }

  /** The first bodies of a list of frames, in order: the k-th is the k-th frame. */
  ghost predicate AreFrames(svc: Service, bodies: seq<Json>, ps: seq<seq<byte>>) {
    |bodies| <= |ps| && forall k :: 0 <= k < |bodies| ==> svc.parse(ps[k]) == Some(bodies[k])
  }

  /** Why a session stops in front of frame `p`: its last command hung up, or `p` is not JSON. */
  ghost predicate StopsBefore(svc: Service, p: seq<byte>, calls: seq<Call>) {
    && calls != []
    && var last := calls[|calls| - 1];
       || (last.Execute? && svc.behave(calls).outcome == Some(Hangup))
       || (svc.parse(p) == None && last == Error(FrameFailure(FrameError.Json)))
  }

  /** The calls made after `h` dispatch the frames `ps`: every dispatched body is
      exactly the next frame, and no frame is left out except behind the call that
      ended the session. */
  ghost predicate Serves(svc: Service, ps: seq<seq<byte>>, h: seq<Call>, calls: seq<Call>) {
    && h <= calls
    && var bodies := Bodies(calls[|h|..]);
       && AreFrames(svc, bodies, ps)
       && (|bodies| < |ps| ==> StopsBefore(svc, ps[|bodies|], calls))
  }

  lemma {:induction false} BodiesAreFrames(svc: Service, s: Script, h: seq<Call>)
    ensures Serves(svc, Payloads(s), h, Play(svc, s, h))
    decreases s
  {
    var calls := Play(svc, s, h);
    if s.More? && svc.parse(s.payload).Some? {
      var body := svc.parse(s.payload).value;
      var call := Route(svc.commands, body);
      var e := svc.behave(h + [call]).outcome;
      if call.Execute? && e == Some(Hangup) {
        assert calls[|h|..] == [call] && [call][1..] == [];
      } else {
        var made := if call.Unknown? || e.None? then [call] else [call, Error(e.value)];
        BodiesAreFrames(svc, s.next, h + made);
        BodyOfOneDispatch(made);
        assert calls == Play(svc, s.next, h + made);
        ServesOneMore(svc, s.payload, body, Payloads(s.next), h, made, calls);
      }
    } else if calls != h {
      assert calls[|h|..] == [calls[|h|]] && [calls[|h|]][1..] == [];
    }
  }

  lemma ServesOneMore(svc: Service, p: seq<byte>, body: Json, ps: seq<seq<byte>>,
                      h: seq<Call>, made: seq<Call>, calls: seq<Call>)
    requires svc.parse(p) == Some(body) && Bodies(made) == [body]
    requires Serves(svc, ps, h + made, calls)
    ensures Serves(svc, [p] + ps, h, calls)
  {
    var later := calls[|h + made|..];
    assert calls[|h|..] == made + later;
    BodiesSplit(made, later);
    FramesOneMore(svc, p, body, Bodies(later), ps);
    assert |Bodies(later)| < |ps| ==> ([p] + ps)[|Bodies(later)| + 1] == ps[|Bodies(later)|];
  }

  lemma FramesOneMore(svc: Service, p: seq<byte>, body: Json, bodies: seq<Json>, ps: seq<seq<byte>>)
    requires svc.parse(p) == Some(body) && AreFrames(svc, bodies, ps)
    ensures AreFrames(svc, [body] + bodies, [p] + ps)
  {
    forall k | 0 <= k < |bodies| + 1
      ensures svc.parse(([p] + ps)[k]) == Some(([body] + bodies)[k])
    {
      if k > 0 {
        assert ([p] + ps)[k] == ps[k - 1] && ([body] + bodies)[k] == bodies[k - 1];
      }
    }
  }

  ghost predicate NeverHangsUp(svc: Service) {
    forall h :: svc.behave(h).outcome != Some(Hangup)
  }

  /** From one side of the wire to the other: the calls of a session are those of
      the requests that the client framed, however their bytes arrive ... */
  lemma ClientDrivesSession(svc: Service, requests: seq<seq<byte>>, v: View)
    requires LeavesInputAlone(svc)
    requires AllFramable(requests, svc.max) && Data(v.incoming) == EncodeAll(requests)
    ensures var end := Stop(Cut(0, HEADER_LEN, EndOf(v.incoming)));
            Requests(svc, v).trace == Play(svc, ScriptOf(requests, end), v.trace)
  {
    SessionRefinesScript(svc, v);
    StreamRoundTrip(requests, [], EndOf(v.incoming), svc.max);
    assert EncodeAll(requests) + [] == EncodeAll(requests);
  }

  /** ... and if no command hangs up, every request is dispatched, once and in order. */
  lemma ClientRequestsAreServed(svc: Service, requests: seq<seq<byte>>, v: View)
    requires LeavesInputAlone(svc) && NeverHangsUp(svc)
    requires AllFramable(requests, svc.max) && Data(v.incoming) == EncodeAll(requests)
    requires forall p <- requests :: svc.parse(p).Some?
    ensures var calls := Requests(svc, v).trace;
            && v.trace <= calls
            && var bodies := Bodies(calls[|v.trace|..]);
               |bodies| == |requests| && AreFrames(svc, bodies, requests)
  {
    ClientDrivesSession(svc, requests, v);
    var end := Stop(Cut(0, HEADER_LEN, EndOf(v.incoming)));
    BodiesAreFrames(svc, ScriptOf(requests, end), v.trace);
    ScriptOfParts(requests, end);
    assert requests + [] == requests;
  }

  /** A fault inside a frame ends the session at once, an interrupted read like any other:
      it is not retried, even if the rest of the frame arrives behind it. The error hook
      hears of it unless it means that the peer is gone. */
  lemma FaultEndsSession(svc: Service, v: View, payload: seq<byte>, p: nat, kind: IoKind)
    requires Framable(payload, svc.max) && p < |Encode(payload)|
    requires Data(v.incoming) == Encode(payload)[..p] && EndOf(v.incoming) == Broken(kind)
    ensures Requests(svc, v).trace == if kind == EofKind || kind == ConnectionReset then v.trace
                                      else v.trace + [Error(FrameFailure(Io(kind)))]
  {
    TruncationReport(payload, p, EndOf(v.incoming), svc.max);
  }

  // ------------------------------------------------ hang-up and the end of a session

  /** The calls of one dispatch, and what its result says about them. No error of the
      reader looks like a hang-up, because the reader never reads all it needs. */
  lemma DispatchCalls(svc: Service, v: View)
    ensures var (v1, r) := Dispatch(svc, v);
            var n := |v1.trace| - |v.trace|;
            && v.trace <= v1.trace && n <= 2
            && (r.Err? && r.error.UnexpectedEof? && r.error != HANGUP ==> r.error.read < r.error.needed)
            && (r == Err(HANGUP) <==>
                  n == 1 && v1.trace[|v.trace|].Execute? && svc.behave(v1.trace).outcome == Some(Hangup))
            && (r.Err? && r.error != HANGUP ==> n == 0)
            && (r.Ok? && n == 1 && v1.trace[|v.trace|].Execute? ==> svc.behave(v1.trace).outcome == None)
            && (n == 1 ==> v1.trace[|v.trace|].Execute? || v1.trace[|v.trace|].Unknown?)
            && (r.Ok? ==> n != 0)
            && (n == 2 ==>
                  && v1.trace[|v.trace|].Execute? && v1.trace[|v.trace| + 1].Error?
                  && svc.behave(v1.trace[..|v.trace| + 1]).outcome == Some(v1.trace[|v.trace| + 1].error)
                  && v1.trace[|v.trace| + 1].error != Hangup)
  {
    var d := Decode(Data(v.incoming), EndOf(v.incoming), svc.max);
    if d.Ok? && svc.parse(d.value).Some? {
      var call := Route(svc.commands, svc.parse(d.value).value);
      var v1 := Dispatch(svc, v).0;
      assert v1.trace[..|v.trace| + 1] == v.trace + [call];
    }
  }

  /** Call `k` of a session whose own calls start at `from` is in order: a command that
      hung up is the last call; one that failed is followed by the report of its error;
      an error hook either reports the command before it, or the end of the session. */
  ghost predicate InOrder(svc: Service, calls: seq<Call>, from: nat, k: nat)
    requires from <= k < |calls|
  {
    var e := svc.behave(calls[..k + 1]).outcome;
    match calls[k]
    case Execute(_, _) =>
      (match e
       case None => true
       case Some(Hangup) => k == |calls| - 1
       case Some(other) => k + 1 < |calls| && calls[k + 1] == Error(other))
    case Error(other) =>
      || (&& other.FrameFailure? && !other.error.UnexpectedEof?
          && other.error != Io(EofKind) && other.error != Io(ConnectionReset) && k == |calls| - 1)
      || (from < k && calls[k - 1].Execute? && svc.behave(calls[..k]).outcome == Some(other) && other != Hangup)
    case Unknown(_, _) => true
    case Reject(_) => false
  }

  ghost predicate Orderly(svc: Service, calls: seq<Call>, from: nat) {
    from <= |calls| && forall k :: from <= k < |calls| ==> InOrder(svc, calls, from, k)
  }

  lemma OneBodyEach(svc: Service, v: View)
    ensures var (v1, r) := Dispatch(svc, v);
            && v.trace <= v1.trace
            && |Bodies(v1.trace[|v.trace|..])| == if r.Ok? || r == Err(HANGUP) then 1 else 0
  {
    DispatchCalls(svc, v);
    var made := Dispatch(svc, v).0.trace[|v.trace|..];
    if made != [] {
      BodyOfOneDispatch(made);
    }
  }

  lemma OrderlyOneMore(svc: Service, v: View, calls: seq<Call>)
    requires var (v1, r) := Dispatch(svc, v);
             r.Ok? && v1.trace <= calls && Orderly(svc, calls, |v1.trace|)
    ensures Orderly(svc, calls, |v.trace|)
  {
    var v1 := Dispatch(svc, v).0;
    DispatchCalls(svc, v);
    forall k | |v.trace| <= k < |calls|
      ensures InOrder(svc, calls, |v.trace|, k)
    {
      if k < |v1.trace| {
        assert calls[..k + 1] == v1.trace[..k + 1] && calls[..k] == v1.trace[..k];
        assert v1.trace[..|v1.trace|] == v1.trace;
      } else {
        assert InOrder(svc, calls, |v1.trace|, k);
      }
    }
  }

  lemma LastCalls(svc: Service, v: View)
    requires Dispatch(svc, v).1.Err?
    ensures v.trace <= Requests(svc, v).trace
    ensures Orderly(svc, Requests(svc, v).trace, |v.trace|)
    ensures HEADER_LEN * |Bodies(Requests(svc, v).trace[|v.trace|..])| <= Volume(v.incoming)
  {
    var (v1, r) := Dispatch(svc, v);
    var calls := Requests(svc, v).trace;
    DispatchCalls(svc, v);
    DispatchConsumes(svc, v);
    OneBodyEach(svc, v);
    if r == Err(HANGUP) {
      assert calls[..|v.trace| + 1] == v1.trace;
    } else if !Silent(r.error) {
      assert calls[|v.trace|..] == [calls[|v.trace|]] && [calls[|v.trace|]][1..] == [];
    }
  }

  lemma BodiesBetween(a: seq<Call>, b: seq<Call>, c: seq<Call>)
    requires a <= b <= c
    ensures Bodies(c[|a|..]) == Bodies(b[|a|..]) + Bodies(c[|b|..])
  {
    assert c[|a|..] == b[|a|..] + c[|b|..];
    BodiesSplit(b[|a|..], c[|b|..]);
  }

  /** Every persistent session is orderly, and dispatches at most one request for
      every four bytes of its input, whatever its commands do with that input. */
  lemma {:induction false} PersistentSessionIsOrderly(svc: Service, v: View)
    ensures v.trace <= Requests(svc, v).trace
    ensures Orderly(svc, Requests(svc, v).trace, |v.trace|)
    ensures HEADER_LEN * |Bodies(Requests(svc, v).trace[|v.trace|..])| <= Volume(v.incoming)
    decreases Volume(v.incoming)
  {
    var (v1, r) := Dispatch(svc, v);
    var calls := Requests(svc, v).trace;
    DispatchConsumes(svc, v);
    OneBodyEach(svc, v);
    if r.Ok? {
      PersistentSessionIsOrderly(svc, v1);
      BodiesBetween(v.trace, v1.trace, calls);
      OrderlyOneMore(svc, v, calls);
    } else {
      LastCalls(svc, v);
    }
  }

  /** A command that hangs up silently ends the session, error hook included, exactly
      in persistent mode: the comment on `IpcError::Hangup` does not hold for one-shot
      sessions, which hand the sentinel to the error hook. */
  lemma HangupIsSilentIffPersistent(svc: Service, mode: SessionMode, v: View)
    requires Dispatch(svc, v).1 == Err(HANGUP)
    ensures var calls := Handle(svc, mode, true, v).trace;
            && |calls| > |v.trace| && calls[|v.trace|].Execute?
            && (mode == Persistent <==> |calls| == |v.trace| + 1)
            && (mode == OneShot ==> calls[|v.trace| + 1..] == [Error(FrameFailure(UnexpectedEof(0, 0)))])
  {
    DispatchCalls(svc, v);
  }

  /** A run that shows it: the single command hangs up, and the hook is called. */
  lemma OneShotHangupCallsTheHook() returns (svc: Service, v: View)
    ensures Dispatch(svc, v).1 == Err(HANGUP) && LeavesInputAlone(svc)
    ensures Handle(svc, OneShot, true, v).trace
         == [Execute("done", Object(map["type" := Text("done")])), Error(FrameFailure(HANGUP))]
    ensures Handle(svc, Persistent, true, v).trace == [Execute("done", Object(map["type" := Text("done")]))]
  {
    var body := Object(map["type" := Text("done")]);
    var parse: seq<byte> -> Option<Json> := payload => if payload == [0x7B] then Some(body) else None;
    var behave: seq<Call> -> Effect := calls => Effect([], [], Some(Hangup));
    svc := Service(parse, {"done"}, 1024, behave);
    var s: Stream := [Bytes([1, 0]), Bytes([0, 0, 0x7B])];
    v := View(s, Out([], []), []);
    assert s[1..] == [Bytes([0, 0, 0x7B])] && s[1..][1..] == [];
    assert Data(s[1..]) == [0, 0, 0x7B] + Data([]);
    var data: seq<byte> := [1, 0, 0, 0, 0x7B];
    assert Data(s) == [1, 0] + Data(s[1..]) == data;
    assert data[..HEADER_LEN] == [1, 0, 0, 0] && FromLe([1, 0, 0, 0]) == 1;
    assert data[HEADER_LEN..HEADER_LEN + 1] == [data[4]];
    assert Decode(Data(s), EndOf(s), svc.max) == Ok([0x7B]);
  }

  /** A peer that auth refuses is told so and nothing else happens; one that it allows is
      never rejected. */
  lemma AuthDecides(svc: Service, mode: SessionMode, allowed: bool, v: View)
    ensures var calls := Handle(svc, mode, allowed, v).trace;
            && v.trace <= calls
            && (!allowed ==> calls == v.trace + [Reject(Auth)])
            && (allowed ==> forall k :: |v.trace| <= k < |calls| ==> !calls[k].Reject?)
  {
    if allowed && mode == OneShot {
      DispatchCalls(svc, v);
    } else if allowed {
      PersistentSessionIsOrderly(svc, v);
      var calls := Handle(svc, mode, allowed, v).trace;
      forall k | |v.trace| <= k < |calls|
        ensures !calls[k].Reject?
      {
        assert InOrder(svc, calls, |v.trace|, k);
      }
    }
  }

  /** A one-shot session dispatches at most one request, and hands every error, the end of
      the stream included, to the error hook. */
  lemma OneShotServesOnce(svc: Service, v: View)
    ensures var (v1, r) := Dispatch(svc, v);
            var calls := Handle(svc, OneShot, true, v).trace;
            && v.trace <= calls && |Bodies(calls[|v.trace|..])| <= 1
            && calls == if r.Ok? then v1.trace else v1.trace + [Error(FrameFailure(r.error))]
  {
    OneBodyEach(svc, v);
    var (v1, r) := Dispatch(svc, v);
    var calls := Handle(svc, OneShot, true, v).trace;
    if r.Err? {
      var hook := [Error(FrameFailure(r.error))];
      assert calls[|v.trace|..] == v1.trace[|v.trace|..] + hook;
      BodiesSplit(v1.trace[|v.trace|..], hook);
      assert hook[1..] == [];
    }
  }

  // ------------------------------------------------------------ the sending side

  /** The payloads that the calls from `from` on put on the wire. */
  function Sent(svc: Service, calls: seq<Call>, from: nat): seq<seq<byte>>
    requires from <= |calls|
    decreases |calls| - from
  {
    if from == |calls| then []
    else Accepted(svc.behave(calls[..from + 1]).replies, svc.max) + Sent(svc, calls, from + 1)
  }

  lemma {:induction false} SentInTwo(svc: Service, a: seq<Call>, b: seq<Call>, from: nat)
    requires from <= |a| && a <= b
    ensures Sent(svc, b, from) == Sent(svc, a, from) + Sent(svc, b, |a|)
    decreases |a| - from
  {
    if from < |a| {
      assert a[..from + 1] == b[..from + 1];
      SentInTwo(svc, a, b, from + 1);
    }
  }

  /** `w` is `v` after more calls, and all that was sent in between is their frames. */
  ghost predicate Grew(svc: Service, v: View, w: View) {
    && v.trace <= w.trace
    && w.out == PutAll(v.out, Sent(svc, w.trace, |v.trace|))
  }

  lemma GrewTwice(svc: Service, u: View, v: View, w: View)
    requires Grew(svc, u, v) && Grew(svc, v, w)
    ensures Grew(svc, u, w)
  {
    SentInTwo(svc, v.trace, w.trace, |u.trace|);
    PutAllInTwo(u.out, Sent(svc, v.trace, |u.trace|), Sent(svc, w.trace, |v.trace|));
  }

  lemma PerformGrows(svc: Service, v: View, call: Call)
    ensures Grew(svc, v, Perform(svc, v, call))
  {
    var calls := v.trace + [call];
    assert calls[..|v.trace| + 1] == calls;
    var sent := Accepted(svc.behave(calls).replies, svc.max);
    assert Sent(svc, calls, |v.trace|) == sent + [] == sent;
  }

  lemma DispatchGrows(svc: Service, v: View)
    ensures Grew(svc, v, Dispatch(svc, v).0)
  {
    var v1 := v.(incoming := AfterFrame(v.incoming, svc.max));
    var d := Decode(Data(v.incoming), EndOf(v.incoming), svc.max);
    if d.Ok? && svc.parse(d.value).Some? {
      var call := Route(svc.commands, svc.parse(d.value).value);
      var v2 := Perform(svc, v1, call);
      PerformGrows(svc, v1, call);
      var e := Outcome(svc, v1, call);
      if call.Execute? && e.Some? && !e.value.Hangup? {
        PerformGrows(svc, v2, Error(e.value));
        GrewTwice(svc, v1, v2, Perform(svc, v2, Error(e.value)));
      }
    }
  }

  lemma {:induction false} RequestsGrow(svc: Service, v: View)
    ensures Grew(svc, v, Requests(svc, v))
    decreases Volume(v.incoming)
  {
    var (v1, r) := Dispatch(svc, v);
    DispatchGrows(svc, v);
    if r.Ok? {
      DispatchConsumes(svc, v);
      RequestsGrow(svc, v1);
      GrewTwice(svc, v, v1, Requests(svc, v));
    } else if !Silent(r.error) {
      PerformGrows(svc, v1, Error(FrameFailure(r.error)));
      GrewTwice(svc, v, v1, Requests(svc, v));
    }
  }

  lemma HandleGrows(svc: Service, mode: SessionMode, allowed: bool, v: View)
    ensures Grew(svc, v, Handle(svc, mode, allowed, v))
  {
    PerformGrows(svc, v, Reject(Auth));
    RequestsGrow(svc, v);
    DispatchGrows(svc, v);
    var (v1, r) := Dispatch(svc, v);
    if r.Err? {
      PerformGrows(svc, v1, Error(FrameFailure(r.error)));
      GrewTwice(svc, v, v1, Perform(svc, v1, Error(FrameFailure(r.error))));
    }
  }

  /** Two streams of the same bytes and the same end give the same session, calls and
      output alike, however differently they are cut into chunks. */
  lemma SessionIgnoresChunks(svc: Service, v: View, w: View)
    requires LeavesInputAlone(svc)
    requires Data(v.incoming) == Data(w.incoming) && EndOf(v.incoming) == EndOf(w.incoming)
    requires v.trace == w.trace && v.out == w.out
    ensures Requests(svc, v).trace == Requests(svc, w).trace && Requests(svc, v).out == Requests(svc, w).out
  {
    SessionRefinesScript(svc, v);
    SessionRefinesScript(svc, w);
    RequestsGrow(svc, v);
    RequestsGrow(svc, w);
  }

  lemma {:induction false} SentAreFramable(svc: Service, calls: seq<Call>, from: nat)
    requires from <= |calls| && svc.max <= U32_MAX
    ensures AllFramable(Sent(svc, calls, from), svc.max)
    decreases |calls| - from
  {
    if from < |calls| {
      AcceptedAreFramable(svc.behave(calls[..from + 1]).replies, svc.max);
      SentAreFramable(svc, calls, from + 1);
    }
  }

  lemma {:induction false} AcceptedAreFramable(messages: seq<Message>, max: nat)
    requires max <= U32_MAX
    ensures AllFramable(Accepted(messages, max), max)
  {
    if messages != [] {
      AcceptedAreFramable(messages[1..], max);
    }
  }

  /** On a connection that takes every byte, a peer that reads what a whole session
      sent, under any chunk schedule, gets exactly the replies that `reply` accepted:
      complete frames, nothing in between, nothing after them. */
  lemma OutputIsWellFramed(svc: Service, mode: SessionMode, allowed: bool, v: View, received: Stream)
    requires svc.max <= U32_MAX && v.out == Out([], []) && v.trace == []
    requires Data(received) == Handle(svc, mode, allowed, v).out.sent
    ensures var calls := Handle(svc, mode, allowed, v).trace;
            && Payloads(ReadAll(received, svc.max)) == Sent(svc, calls, 0)
            && StopError(ReadAll(received, svc.max)) == Cut(0, HEADER_LEN, EndOf(received))
  {
    HandleGrows(svc, mode, allowed, v);
    var calls := Handle(svc, mode, allowed, v).trace;
    PutAllWhole(v.out, Sent(svc, calls, 0));
    SentAreFramable(svc, calls, 0);
    WireRoundTrip(Sent(svc, calls, 0), received, svc.max);
  }

  lemma {:induction false} PutAllWhole(o: Out, ps: seq<seq<byte>>)
    requires o.room == []
    ensures PutAll(o, ps) == Out(o.sent + EncodeAll(ps), [])
    decreases ps
  {
    if ps == [] {
      assert o.sent + [] == o.sent;
    } else {
      PutAllWhole(Put(o, Encode(ps[0])), ps[1..]);
      ConcatIsAssociative(o.sent, Encode(ps[0]), EncodeAll(ps[1..]));
    }
  }

  /** What gets across of each of these frames. */
  function Pieces(o: Out, ps: seq<seq<byte>>): seq<seq<byte>>
    decreases ps
  {
    if ps == [] then [] else [Piece(o, Encode(ps[0]))] + Pieces(Put(o, Encode(ps[0])), ps[1..])
  }

  function Joined(pieces: seq<seq<byte>>): seq<byte> {
    if pieces == [] then [] else pieces[0] + Joined(pieces[1..])
  }

  /** How many of these frames were cut. */
  function Cuts(pieces: seq<seq<byte>>, ps: seq<seq<byte>>): nat
    requires |pieces| == |ps|
  {
    if ps == [] then 0 else (if pieces[0] == Encode(ps[0]) then 0 else 1) + Cuts(pieces[1..], ps[1..])
  }

  lemma {:induction false} PutAllJoins(o: Out, ps: seq<seq<byte>>)
    ensures PutAll(o, ps).sent == o.sent + Joined(Pieces(o, ps))
    decreases ps
  {
    if ps == [] {
      assert o.sent + [] == o.sent;
    } else {
      var o1, piece := Put(o, Encode(ps[0])), Piece(o, Encode(ps[0]));
      var later := Pieces(o1, ps[1..]);
      PutAllJoins(o1, ps[1..]);
      assert Pieces(o, ps)[0] == piece && Pieces(o, ps)[1..] == later;
      ConcatIsAssociative(o.sent, piece, Joined(later));
    }
  }

  lemma {:induction false} PutAllPieces(o: Out, ps: seq<seq<byte>>)
    ensures var pieces := Pieces(o, ps);
            && |pieces| == |ps| && (forall k :: 0 <= k < |ps| ==> pieces[k] <= Encode(ps[k]))
            && |PutAll(o, ps).room| + Cuts(pieces, ps) == |o.room|
    decreases ps
  {
    if ps != [] {
      var o1, pieces := Put(o, Encode(ps[0])), Pieces(o, ps);
      PutAllPieces(o1, ps[1..]);
      assert pieces[1..] == Pieces(o1, ps[1..]);
      assert pieces[0] == Encode(ps[0]) <==> Fits(o, Encode(ps[0]));
    }
  }

  /** However often writes fail and work again: the output is one piece of each accepted
      reply, in order, each the beginning of its frame; and as many frames are cut as writes
      failed. */
  lemma OutputIsCutFrames(svc: Service, mode: SessionMode, allowed: bool, v: View)
    requires v.trace == []
    ensures var w := Handle(svc, mode, allowed, v);
            var frames := Sent(svc, w.trace, 0);
            var pieces := Pieces(v.out, frames);
            && w.out.sent == v.out.sent + Joined(pieces)
            && |pieces| == |frames| && (forall k :: 0 <= k < |frames| ==> pieces[k] <= Encode(frames[k]))
            && |w.out.room| + Cuts(pieces, frames) == |v.out.room|
  {
    HandleGrows(svc, mode, allowed, v);
    var frames := Sent(svc, Handle(svc, mode, allowed, v).trace, 0);
    PutAllJoins(v.out, frames);
    PutAllPieces(v.out, frames);
  }

  /** Once a write has failed, every further one fails. */
  predicate BreaksForGood(room: seq<nat>, writes: nat) {
    |room| > writes && forall k :: 0 < k < |room| ==> room[k] == 0
  }

  /** The part of a byte string that gets across a connection that breaks after `n` bytes. */
  function CutAt(bytes: seq<byte>, n: nat): seq<byte> {
    if |bytes| <= n then bytes else bytes[..n]
  }

  lemma CutBehind(sent: seq<byte>, e: seq<byte>, rest: seq<byte>, n: nat)
    requires |e| <= n
    ensures sent + e + CutAt(rest, n - |e|) == sent + CutAt(e + rest, n)
  {
  }

  lemma CutWithin(sent: seq<byte>, e: seq<byte>, rest: seq<byte>, n: nat)
    requires |e| > n
    ensures sent + e[..n] + CutAt(rest, 0) == sent + CutAt(e + rest, n)
  {
  }

  lemma PutBroken(o: Out, e: seq<byte>, writes: nat)
    requires BreaksForGood(o.room, writes + 1)
    ensures var o1, n := Put(o, e), o.room[0];
            && BreaksForGood(o1.room, writes)
            && if |e| <= n then o1.sent == o.sent + e && o1.room[0] == n - |e|
               else o1.sent == o.sent + e[..n] && o1.room[0] == 0
  {
  }

  lemma {:induction false} PutAllBroken(o: Out, ps: seq<seq<byte>>)
    requires BreaksForGood(o.room, |ps|)
    ensures PutAll(o, ps).sent == o.sent + CutAt(EncodeAll(ps), o.room[0])
    decreases ps
  {
    if ps != [] {
      var e, rest, n := Encode(ps[0]), EncodeAll(ps[1..]), o.room[0];
      PutBroken(o, e, |ps| - 1);
      PutAllBroken(Put(o, e), ps[1..]);
      if |e| <= n {
        CutBehind(o.sent, e, rest, n);
      } else {
        CutWithin(o.sent, e, rest, n);
      }
    }
  }

  /** A connection that breaks for good cuts the sequence of frames short, at the byte
      where it broke. */
  lemma BrokenOutputIsAPrefix(svc: Service, mode: SessionMode, allowed: bool, v: View)
    requires v.trace == []
    requires BreaksForGood(v.out.room, |Sent(svc, Handle(svc, mode, allowed, v).trace, 0)|)
    ensures var w := Handle(svc, mode, allowed, v);
            w.out.sent == v.out.sent + CutAt(EncodeAll(Sent(svc, w.trace, 0)), v.out.room[0])
  {
    HandleGrows(svc, mode, allowed, v);
    PutAllBroken(v.out, Sent(svc, Handle(svc, mode, allowed, v).trace, 0));
  }

  /** A write that fails only once is worse: nothing marks the cut, so that the reader
      takes the next frame, though it was sent in full, for the rest of the one before. */
  lemma TransientFailureGarblesOutput(o: Out)
    requires o == Out([], [2])
    ensures Fits(Put(o, Encode([7])), Encode([8]))
    ensures Decode(PutAll(o, [[7], [8]]).sent, Eof, 1024) == Err(TooLarge(0x1_0001, 1024))
  {
    SmallHeader();
    var o1 := Put(o, Encode([7]));
    assert o1.sent == [1, 0] && o1.room == [];
    var o2 := Put(o1, Encode([8]));
    assert [[7], [8]][1..] == [[8]] && PutAll(o1, [[8]]) == PutAll(o2, []);
    assert o2.sent[..HEADER_LEN] == [1, 0, 1, 0];
  }

  lemma SmallHeader()
    ensures Header(1) == [1, 0, 0, 0] && FromLe([1, 0, 1, 0]) == 0x1_0001
  {
  }
}
