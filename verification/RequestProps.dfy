/** What a session of `ipc/server.rs` does with each request, and with each way in which
    its input ends, in terms of the bytes and the names alone. */
module RequestProps {
  import opened Wrappers
  import opened Frame
  import opened Codec
  import opened Command
  import opened Server
  import opened SessionProps

  // -------------------------------------------------- how the end of the input is met

  /** A client that closes its end, between two frames or in the middle of one, ends a
      persistent session without a call: the error hook hears nothing of it. */
  lemma EndOfInputIsSilent(svc: Service, v: View, payload: seq<byte>, p: nat)
    requires Framable(payload, svc.max) && p < |Encode(payload)|
    requires Data(v.incoming) == Encode(payload)[..p] && EndOf(v.incoming) == Eof
    ensures Requests(svc, v).trace == v.trace && Requests(svc, v).out == v.out
  {
    TruncationReport(payload, p, Eof, svc.max);
  }

  /** A header that announces more than the cap ends it too, and is reported. */
  lemma OversizedFrameIsReported(svc: Service, v: View, len: nat, rest: seq<byte>)
    requires svc.max < len <= U32_MAX && Data(v.incoming) == Header(len) + rest
    ensures Requests(svc, v).trace == v.trace + [Error(FrameFailure(TooLarge(len, svc.max)))]
  {
    OversizedIsRefused(len, rest, EndOf(v.incoming), svc.max);
  }

  /** Call `k` reports the error that the command right before it has returned. */
  ghost predicate ReportsCommand(svc: Service, calls: seq<Call>, from: nat, k: nat)
    requires from <= k < |calls|
  {
    && from < k && calls[k].Error? && calls[k - 1].Execute?
    && svc.behave(calls[..k]).outcome == Some(calls[k].error)
  }

  /** Among the calls from `from` on, the error hook is only called for commands that failed,
      or in the end for a frame that is not JSON. */
  ghost predicate OnlyReportsCommands(svc: Service, calls: seq<Call>, from: nat) {
    forall k :: from <= k < |calls| && calls[k].Error? ==>
      || ReportsCommand(svc, calls, from, k)
      || (k == |calls| - 1 && calls[k].error == FrameFailure(FrameError.Json))
  }

  lemma {:induction false} PlayOnlyReportsCommands(svc: Service, s: Script, h: seq<Call>)
    requires StopError(s).UnexpectedEof?
    ensures h <= Play(svc, s, h) && OnlyReportsCommands(svc, Play(svc, s, h), |h|)
    decreases s
  {
    if s.More? && svc.parse(s.payload).Some? {
      var call := Route(svc.commands, svc.parse(s.payload).value);
      var e := svc.behave(h + [call]).outcome;
      if !(call.Execute? && e == Some(Hangup)) {
        var made := if call.Unknown? || e.None? then [call] else [call, Error(e.value)];
        var calls := Play(svc, s, h);
        PlayOnlyReportsCommands(svc, s.next, h + made);
        assert calls == Play(svc, s.next, h + made);
        assert calls[..|h| + 1] == h + [call];
        forall k | |h| <= k < |calls| && calls[k].Error?
          ensures ReportsCommand(svc, calls, |h|, k)
               || (k == |calls| - 1 && calls[k].error == FrameFailure(FrameError.Json))
        {
          assert k < |h + made| || ReportsCommand(svc, calls, |h + made|, k)
              || (k == |calls| - 1 && calls[k].error == FrameFailure(FrameError.Json));
        }
      }
    }
  }

  /** A whole session ends as quietly: after any requests, a client may go away at any byte
      of another frame, and no error hook is called on that account. */
  lemma ClientMayLeaveAnytime(svc: Service, requests: seq<seq<byte>>, payload: seq<byte>, p: nat, v: View)
    requires LeavesInputAlone(svc)
    requires AllFramable(requests, svc.max) && Framable(payload, svc.max) && p < |Encode(payload)|
    requires Data(v.incoming) == EncodeAll(requests) + Encode(payload)[..p] && EndOf(v.incoming) == Eof
    ensures var calls := Requests(svc, v).trace;
            v.trace <= calls && OnlyReportsCommands(svc, calls, |v.trace|)
  {
    SessionRefinesScript(svc, v);
    TruncationReport(payload, p, Eof, svc.max);
    var last := Frames(Encode(payload)[..p], Eof, svc.max);
    StreamRoundTrip(requests, Encode(payload)[..p], Eof, svc.max);
    ScriptOfParts(requests, last);
    PlayOnlyReportsCommands(svc, ScriptOf(requests, last), v.trace);
  }

  function Total(sizes: seq<nat>): nat {
    if sizes == [] then 0 else sizes[0] + Total(sizes[1..])
  }

  /** Raw reads of a command take the next bytes of the input, one after the other: at
      least one, and no more than they ask for. */
  lemma {:induction false} RawReadsTakeNextBytes(s: Stream, sizes: seq<nat>) returns (taken: nat)
    requires Total(sizes) <= |Data(s)|
    ensures taken <= Total(sizes) && (Total(sizes) > 0 ==> taken > 0)
    ensures Consume(s, sizes) == Drop(s, taken) && Data(Consume(s, sizes)) == Data(s)[taken..]
    decreases sizes
  {
    if sizes == [] {
      taken := 0;
    } else if sizes[0] == 0 {
      taken := RawReadsTakeNextBytes(s, sizes[1..]);
    } else {
      ReadFurther(s, 0, sizes[0]);
      var n := |ReadOnce(s, sizes[0]).0.value|;
      DropKeeps(s, n);
      var later := RawReadsTakeNextBytes(Drop(s, n), sizes[1..]);
      DropTwice(s, n, later);
      taken := n + later;
    }
    DropKeeps(s, taken);
  }

  // ------------------------------------------------------- which call a request leads to

  /** The call goes to a registered command under the name that the request gives; or to
      the hook for unknown requests, with the name that is not registered, or with no name
      if the request has none. */
  ghost predicate IsRouted(svc: Service, call: Call) {
    match call
    case Execute(name, body) =>
      && name in svc.commands
      && body.Object? && "type" in body.fields && body.fields["type"] == Text(name)
    case Unknown(name, body) =>
      if body.Object? && "type" in body.fields && body.fields["type"].Text?
      then name !in svc.commands && body.fields["type"] == Text(name)
      else name == ""
    case _ => true
  }

  /** All calls from `from` on. */
  ghost predicate AllRouted(svc: Service, calls: seq<Call>, from: nat) {
    forall k :: from <= k < |calls| ==> IsRouted(svc, calls[k])
  }

  lemma DispatchIsRouted(svc: Service, v: View)
    ensures v.trace <= Dispatch(svc, v).0.trace
    ensures AllRouted(svc, Dispatch(svc, v).0.trace, |v.trace|)
  {
    var calls := Dispatch(svc, v).0.trace;
    DispatchCalls(svc, v);
    forall k | |v.trace| <= k < |calls|
      ensures IsRouted(svc, calls[k])
    {
    }
  }

  lemma {:induction false} RequestsAreRouted(svc: Service, v: View)
    ensures v.trace <= Requests(svc, v).trace
    ensures AllRouted(svc, Requests(svc, v).trace, |v.trace|)
    decreases Volume(v.incoming)
  {
    var v1 := Dispatch(svc, v).0;
    DispatchIsRouted(svc, v);
    if Dispatch(svc, v).1.Ok? {
      DispatchConsumes(svc, v);
      RequestsAreRouted(svc, v1);
    }
  }

  /** In every session: what is executed is a registered command, under the name that its
      request asks for; every other request goes to the hook, under the same name. */
  lemma CallsAreRouted(svc: Service, mode: SessionMode, allowed: bool, v: View)
    ensures var calls := Handle(svc, mode, allowed, v).trace;
            v.trace <= calls && AllRouted(svc, calls, |v.trace|)
  {
    DispatchIsRouted(svc, v);
    RequestsAreRouted(svc, v);
  }

  // -------------------------------------------------------------- what a client is told

  /** All that the calls from `from` on hand to `reply`, in order. */
  function Said(svc: Service, calls: seq<Call>, from: nat): seq<Message>
    requires from <= |calls|
    decreases |calls| - from
  {
    if from == |calls| then [] else svc.behave(calls[..from + 1]).replies + Said(svc, calls, from + 1)
  }

  lemma {:induction false} SentIsAccepted(svc: Service, calls: seq<Call>, from: nat)
    requires from <= |calls|
    ensures Sent(svc, calls, from) == Accepted(Said(svc, calls, from), svc.max)
    decreases |calls| - from
  {
    if from < |calls| {
      SentIsAccepted(svc, calls, from + 1);
      AcceptedAppends(svc.behave(calls[..from + 1]).replies, Said(svc, calls, from + 1), svc.max);
    }
  }

  /** What a client has got from a server that said all this: each message that can be sent,
      in its place, and nothing else. */
  ghost predicate Got(got: seq<seq<byte>>, said: seq<Message>, max: nat) {
    && |got| == Sendable(said, max)
    && forall i :: 0 <= i < |said| && said[i].Payload? && |said[i].bytes| <= max ==>
         var at := Sendable(said[..i], max);
         at < |got| && got[at] == said[i].bytes
  }

  /** On a connection that takes every byte, the peer of a whole session reads the replies
      that were given in it, in order, without those that are too long or do not serialise. */
  lemma RepliesArrive(svc: Service, mode: SessionMode, allowed: bool, v: View, received: Stream)
    requires svc.max <= U32_MAX && v.out == Out([], []) && v.trace == []
    requires Data(received) == Handle(svc, mode, allowed, v).out.sent
    ensures var calls := Handle(svc, mode, allowed, v).trace;
            Got(Payloads(ReadAll(received, svc.max)), Said(svc, calls, 0), svc.max)
  {
    var calls := Handle(svc, mode, allowed, v).trace;
    var said := Said(svc, calls, 0);
    OutputIsWellFramed(svc, mode, allowed, v, received);
    SentIsAccepted(svc, calls, 0);
    AcceptedCount(said, svc.max);
    forall i | 0 <= i < |said| && said[i].Payload? && |said[i].bytes| <= svc.max
      ensures var at := Sendable(said[..i], svc.max);
              at < |Accepted(said, svc.max)| && Accepted(said, svc.max)[at] == said[i].bytes
    {
      AcceptedAt(said, svc.max, i);
    }
  }

  /** No command or hook gives a reply that cannot be sent. */
  ghost predicate AllRepliesFit(svc: Service) {
    forall h :: forall m <- svc.behave(h).replies :: m.Payload? && |m.bytes| <= svc.max
  }

  lemma {:induction false} SaidFits(svc: Service, calls: seq<Call>, from: nat)
    requires from <= |calls| && AllRepliesFit(svc)
    ensures forall m <- Said(svc, calls, from) :: m.Payload? && |m.bytes| <= svc.max
    decreases |calls| - from
  {
    if from < |calls| {
      SaidFits(svc, calls, from + 1);
    }
  }

  lemma {:induction false} AllSendable(messages: seq<Message>, max: nat)
    requires forall m <- messages :: m.Payload? && |m.bytes| <= max
    ensures Sendable(messages, max) == |messages|
  {
    if messages != [] {
      AllSendable(messages[..|messages| - 1], max);
    }
  }

  /** If all of them can be sent, it reads every single one. */
  lemma EveryReplyArrives(svc: Service, mode: SessionMode, allowed: bool, v: View, received: Stream)
    requires svc.max <= U32_MAX && v.out == Out([], []) && v.trace == [] && AllRepliesFit(svc)
    requires Data(received) == Handle(svc, mode, allowed, v).out.sent
    ensures var said := Said(svc, Handle(svc, mode, allowed, v).trace, 0);
            var got := Payloads(ReadAll(received, svc.max));
            |got| == |said| && forall i :: 0 <= i < |said| ==> said[i] == Payload(got[i])
  {
    var calls := Handle(svc, mode, allowed, v).trace;
    var said := Said(svc, calls, 0);
    RepliesArrive(svc, mode, allowed, v, received);
    SaidFits(svc, calls, 0);
    AllSendable(said, svc.max);
    forall i | 0 <= i < |said|
      ensures said[i] == Payload(Payloads(ReadAll(received, svc.max))[i])
    {
      AllSendable(said[..i], svc.max);
      assert said[i] in said;
    }
  }
}
