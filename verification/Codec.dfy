/** What the framing of `ipc/frame.rs` guarantees between a writer and a reader:
    round trips, prefix freedom and the report of a truncated frame. */
module Codec {
  import opened Frame

  /** A payload that the writer accepts and whose length its header can carry. */
  predicate Framable(payload: seq<byte>, max: nat) {
    |payload| <= max && |payload| <= U32_MAX
  }

  predicate AllFramable(payloads: seq<seq<byte>>, max: nat) {
    forall p <- payloads :: Framable(p, max)
  }

  lemma HeaderRoundTrip(n: nat)
    requires n <= U32_MAX
    ensures FromLe(ToLe(n)) == n
  {
    var b0, b1, b2, b3 := n % 0x100, n / 0x100 % 0x100, n / 0x1_0000 % 0x100, n / 0x100_0000;
    assert n / 0x1_0000 == n / 0x100 / 0x100 && n / 0x100_0000 == n / 0x1_0000 / 0x100;
    assert n == b0 + 0x100 * (n / 0x100) == b0 + 0x100 * (b1 + 0x100 * (b2 + 0x100 * b3));
  }

  /** A frame followed by anything decodes to its payload, exactly when the length
      fits the header: a longer one is announced as `u32::MAX` and cut there. */
  lemma FrameRoundTrip(payload: seq<byte>, tail: seq<byte>, end: End, max: nat)
    requires |payload| <= max
    ensures Decode(Encode(payload) + tail, end, max) == Ok(payload) <==> |payload| <= U32_MAX
    ensures |payload| > U32_MAX ==> Decode(Encode(payload) + tail, end, max) == Ok(payload[..U32_MAX])
  {
    var data := Encode(payload) + tail;
    var len := if |payload| <= U32_MAX then |payload| else U32_MAX;
    HeaderRoundTrip(len);
    assert data[..HEADER_LEN] == Header(|payload|);
    assert data[HEADER_LEN..HEADER_LEN + len] == payload[..len];
    assert |payload| <= U32_MAX ==> payload[..len] == payload;
  }

  /** Every strict prefix of a frame is reported with the exact number of bytes
      that arrived and that were wanted, or with the fault that cut it. */
  lemma TruncationReport(payload: seq<byte>, p: nat, end: End, max: nat)
    requires Framable(payload, max) && p < |Encode(payload)|
    ensures Decode(Encode(payload)[..p], end, max)
         == Err(if p < HEADER_LEN then Cut(p, HEADER_LEN, end) else Cut(p - HEADER_LEN, |payload|, end))
  {
    HeaderRoundTrip(|payload|);
    if p >= HEADER_LEN {
      assert Encode(payload)[..p][..HEADER_LEN] == Header(|payload|);
    }
  }

  /** A header that announces more than the cap is refused with both numbers, before any byte
      behind it is looked at. */
  lemma OversizedIsRefused(len: nat, rest: seq<byte>, end: End, max: nat)
    requires max < len <= U32_MAX
    ensures Decode(Header(len) + rest, end, max) == Err(TooLarge(len, max))
  {
    HeaderRoundTrip(len);
    assert (Header(len) + rest)[..HEADER_LEN] == Header(len);
  }

  /** And those bytes stay in the stream. */
  lemma OversizedIsLeftUnread(len: nat, rest: seq<byte>, s: Stream, max: nat)
    requires max < len <= U32_MAX && Data(s) == Header(len) + rest
    ensures Data(AfterFrame(s, max)) == rest && EndOf(AfterFrame(s, max)) == EndOf(s)
  {
    OversizedIsRefused(len, rest, EndOf(s), max);
    DropKeeps(s, HEADER_LEN);
  }

  function Power256(k: nat): (p: nat)
    ensures p > 0
  {
    if k == 0 then 1 else 0x100 * Power256(k - 1)
  }

  /** The header is the length in base 256, lowest digit first. */
  lemma HeaderIsLittleEndian(len: nat, k: nat)
    requires len <= U32_MAX && k < HEADER_LEN
    ensures Header(len)[k] as nat == len / Power256(k) % 0x100
  {
    assert Power256(1) == 0x100 && Power256(2) == 0x1_0000 && Power256(3) == 0x100_0000;
  }

  /** No frame is a prefix of another one. */
  lemma PrefixFree(p: seq<byte>, q: seq<byte>)
    requires |p| <= U32_MAX && |q| <= U32_MAX
    requires Encode(p) <= Encode(q)
    ensures p == q
  {
    var max := |p| + |q|;
    FrameRoundTrip(p, Encode(q)[|Encode(p)|..], Eof, max);
    FrameRoundTrip(q, [], Eof, max);
    assert Encode(p) + Encode(q)[|Encode(p)|..] == Encode(q) == Encode(q) + [];
  }

  // ------------------------------------------------------------ whole streams

  /** The frames of a byte stream in order, and why there are no more of them. */
  datatype Script = More(payload: seq<byte>, next: Script) | Stop(error: FrameError)

  function Frames(data: seq<byte>, end: End, max: nat): Script
    decreases |data|
  {
    match Decode(data, end, max)
    case Ok(payload) => More(payload, Frames(data[HEADER_LEN + |payload|..], end, max))
    case Err(e) => Stop(e)
  }

  function Payloads(s: Script): seq<seq<byte>> {
    match s
    case More(p, next) => [p] + Payloads(next)
    case Stop(_) => []
  }

  function StopError(s: Script): FrameError {
    match s
    case More(_, next) => StopError(next)
    case Stop(e) => e
  }

  function ScriptOf(payloads: seq<seq<byte>>, last: Script): Script {
    if payloads == [] then last else More(payloads[0], ScriptOf(payloads[1..], last))
  }

  /** Reading a stream again and again, as a connection does it. */
  function ReadAll(s: Stream, max: nat): Script
    decreases Volume(s)
  {
    match Decode(Data(s), EndOf(s), max)
    case Ok(payload) =>
      DropKeeps(s, HEADER_LEN + |payload|);
      More(payload, ReadAll(AfterFrame(s, max), max))
    case Err(e) => Stop(e)
  }

  /** The chunk schedule does not matter: only the bytes and their end do. */
  lemma {:induction false} ReadAllIgnoresChunks(s: Stream, max: nat)
    ensures ReadAll(s, max) == Frames(Data(s), EndOf(s), max)
    decreases Volume(s)
  {
    var d := Decode(Data(s), EndOf(s), max);
    if d.Ok? {
      DropKeeps(s, HEADER_LEN + |d.value|);
      ReadAllIgnoresChunks(AfterFrame(s, max), max);
    }
  }

  /** Framed payloads come back one by one, in front of whatever follows them. */
  lemma {:induction false} StreamRoundTrip(payloads: seq<seq<byte>>, tail: seq<byte>, end: End, max: nat)
    requires AllFramable(payloads, max)
    ensures Frames(EncodeAll(payloads) + tail, end, max) == ScriptOf(payloads, Frames(tail, end, max))
  {
    if payloads == [] {
      assert EncodeAll(payloads) + tail == tail;
    } else {
      var p, rest := payloads[0], EncodeAll(payloads[1..]) + tail;
      assert p in payloads;
      assert EncodeAll(payloads) + tail == Encode(p) + rest;
      FrameRoundTrip(p, rest, end, max);
      assert (Encode(p) + rest)[HEADER_LEN + |p|..] == rest;
      StreamRoundTrip(payloads[1..], tail, end, max);
    }
  }

  lemma {:induction false} ScriptOfParts(payloads: seq<seq<byte>>, last: Script)
    ensures Payloads(ScriptOf(payloads, last)) == payloads + Payloads(last)
    ensures StopError(ScriptOf(payloads, last)) == StopError(last)
  {
    if payloads != [] {
      ScriptOfParts(payloads[1..], last);
    }
  }

  /** Under any short-read schedule, what was framed is what is read, with nothing
      left over: the reader then stops with zero of four header bytes. */
  lemma WireRoundTrip(payloads: seq<seq<byte>>, s: Stream, max: nat)
    requires AllFramable(payloads, max)
    requires Data(s) == EncodeAll(payloads)
    ensures Payloads(ReadAll(s, max)) == payloads
    ensures StopError(ReadAll(s, max)) == Cut(0, HEADER_LEN, EndOf(s))
  {
    ReadAllIgnoresChunks(s, max);
    assert EncodeAll(payloads) + [] == EncodeAll(payloads);
    StreamRoundTrip(payloads, [], EndOf(s), max);
    ScriptOfParts(payloads, Frames([], EndOf(s), max));
    assert payloads + [] == payloads;
  }

  lemma {:induction false} EncodeAllAppends(a: seq<seq<byte>>, b: seq<seq<byte>>)
    ensures EncodeAll(a + b) == EncodeAll(a) + EncodeAll(b)
  {
    if a == [] {
      assert a + b == b;
    } else {
      assert (a + b)[0] == a[0] && (a + b)[1..] == a[1..] + b;
      EncodeAllAppends(a[1..], b);
    }
  }
}
