/** The length-prefixed framing codec of `ipc/frame.rs`, over a socket that may
    return short reads, fail in the middle of a frame, or refuse to take more bytes. */
module Frame {
  import opened Wrappers

  newtype byte = x: int | 0 <= x < 0x100

  const HEADER_LEN: nat := 4
  const U32_MAX: nat := 0xFFFF_FFFF

  /** The `io::ErrorKind`s that the callers tell apart. */
  datatype IoKind = EofKind | ConnectionReset | Interrupted | OtherKind

  datatype FrameError =
    | TooLarge(len: nat, max: nat)
    | UnexpectedEof(read: nat, needed: nat)
    | Json
    | Io(kind: IoKind)

  datatype Result<+T> = Ok(value: T) | Err(error: FrameError)

  // ---------------------------------------------------------------- the wire

  type Chunk = b: seq<byte> | |b| > 0 witness [0]

  /** What the kernel hands to one `read`: a non-empty run of bytes, or an error.
      The cut of a byte stream into chunks is its short-read schedule. */
  datatype Arrival = Bytes(data: Chunk) | Fault(kind: IoKind)

  /** Everything that will arrive, in order; after it every read reports end of file. */
  type Stream = seq<Arrival>

  /** How the readable bytes end. */
  datatype End = Eof | Broken(kind: IoKind)

  /** The bytes that can be read before the first fault. */
  function Data(s: Stream): seq<byte> {
    if s == [] || s[0].Fault? then [] else s[0].data + Data(s[1..])
  }

  function EndOf(s: Stream): End {
    if s == [] then Eof else if s[0].Fault? then Broken(s[0].kind) else EndOf(s[1..])
  }

  /** What is left once `Data` was read and the end was reported. */
  function AfterEnd(s: Stream): Stream {
    if s == [] then [] else if s[0].Fault? then s[1..] else AfterEnd(s[1..])
  }

  /** The stream without its first `n` bytes. */
  function Drop(s: Stream, n: nat): Stream
    requires n <= |Data(s)|
  {
    if n == 0 then s
    else if |s[0].data| <= n then Drop(s[1..], n - |s[0].data|)
    else [Bytes(s[0].data[n..])] + s[1..]
  }

  /** One `read` into a buffer of `want` bytes. */
  function ReadOnce(s: Stream, want: nat): (Result<seq<byte>>, Stream) {
    if want == 0 || s == [] then (Ok([]), s)
    else match s[0]
      case Fault(k) => (Err(Io(k)), s[1..])
      case Bytes(b) =>
        if |b| <= want then (Ok(b), s[1..])
        else (Ok(b[..want]), [Bytes(b[want..])] + s[1..])
  }

  /** All bytes of a stream, those behind a fault included. */
  function Volume(s: Stream): nat {
    if s == [] then 0 else (if s[0].Bytes? then |s[0].data| else 0) + Volume(s[1..])
  }

  /** The writing side: what was sent, and how many bytes the peer still takes before the
      next write fails, then before the one after that, and so on. Behind the last of these
      no write fails: a time-out is one entry, a broken pipe an entry with zeros behind it. */
  datatype Out = Out(sent: seq<byte>, room: seq<nat>)

  predicate Fits(o: Out, b: seq<byte>) {
    o.room == [] || |b| <= o.room[0]
  }

  /** The part of `b` that one `write_all` gets across. */
  function Piece(o: Out, b: seq<byte>): seq<byte> {
    if Fits(o, b) then b else b[..o.room[0]]
  }

  function Put(o: Out, b: seq<byte>): Out {
    Out(o.sent + Piece(o, b),
        if o.room == [] then []
        else if Fits(o, b) then [o.room[0] - |b|] + o.room[1..]
        else o.room[1..])
  }

  /** One frame after the other, whether or not the ones before it got across. */
  function PutAll(o: Out, payloads: seq<seq<byte>>): Out
    decreases payloads
  {
    if payloads == [] then o else PutAll(Put(o, Encode(payloads[0])), payloads[1..])
  }

  /** A connected `UnixStream`. */
  class Socket {
    var incoming: Stream
    var out: Out
    const writeFault: IoKind

    constructor (incoming: Stream, room: seq<nat>, writeFault: IoKind)
      ensures this.incoming == incoming && out == Out([], room) && this.writeFault == writeFault
    {
      this.incoming, out, this.writeFault := incoming, Out([], room), writeFault;
    }

    method Read(buf: array<byte>, from: nat) returns (r: Result<nat>)
      requires from < buf.Length
      modifies this`incoming, buf
      ensures var (got, rest) := ReadOnce(old(incoming), buf.Length - from);
              && incoming == rest
              && (got.Err? ==> r == Err(got.error) && buf[..] == old(buf[..]))
              && (got.Ok? ==> && r == Ok(|got.value|) && |got.value| <= buf.Length - from
                              && buf[..] == old(buf[..from]) + got.value + old(buf[from + |got.value|..]))
    {
      var got, rest := ReadOnce(incoming, buf.Length - from).0, ReadOnce(incoming, buf.Length - from).1;
      incoming := rest;
      if got.Err? {
        return Err(got.error);
      }
      forall i | 0 <= i < |got.value| {
        buf[from + i] := got.value[i];
      }
      r := Ok(|got.value|);
    }

    method WriteAll(b: seq<byte>) returns (r: Result<()>)
      modifies this`out
      ensures out == Put(old(out), b)
      ensures r == if Fits(old(out), b) then Ok(()) else Err(Io(writeFault))
    {
      r := if Fits(out, b) then Ok(()) else Err(Io(writeFault));
      out := Put(out, b);
    }
  }

  // --------------------------------------------------------------- the codec

  function ToLe(n: nat): (h: seq<byte>)
    requires n <= U32_MAX
    ensures |h| == HEADER_LEN
  {
    [(n % 0x100) as byte, (n / 0x100 % 0x100) as byte,
     (n / 0x1_0000 % 0x100) as byte, (n / 0x100_0000) as byte]
  }

  function FromLe(h: seq<byte>): nat
    requires |h| == HEADER_LEN
  {
    h[0] as nat + 0x100 * h[1] as nat + 0x1_0000 * h[2] as nat + 0x100_0000 * h[3] as nat
  }

  /** A payload length that does not fit the header is written as `u32::MAX`. */
  function Header(len: nat): (h: seq<byte>)
    ensures |h| == HEADER_LEN
  {
    ToLe(if len <= U32_MAX then len else U32_MAX)
  }

  function Encode(payload: seq<byte>): seq<byte> {
    Header(|payload|) + payload
  }

  function EncodeAll(payloads: seq<seq<byte>>): seq<byte> {
    if payloads == [] then [] else Encode(payloads[0]) + EncodeAll(payloads[1..])
  }

  /** How a reader that wanted `needed` bytes reports getting only `read` of them. */
  function Cut(read: nat, needed: nat, end: End): FrameError {
    match end
    case Eof => UnexpectedEof(read, needed)
    case Broken(k) => Io(k)
  }

  /** What the bytes of a stream say its first frame is: no chunk schedule in sight. */
  function Decode(data: seq<byte>, end: End, max: nat): Result<seq<byte>> {
    if |data| < HEADER_LEN then Err(Cut(|data|, HEADER_LEN, end))
    else
      var len := FromLe(data[..HEADER_LEN]);
      if len > max then Err(TooLarge(len, max))
      else if |data| - HEADER_LEN < len then Err(Cut(|data| - HEADER_LEN, len, end))
      else Ok(data[HEADER_LEN..HEADER_LEN + len])
  }

  /** Where the stream stands after the first frame was read, or failed to be. */
  function AfterFrame(s: Stream, max: nat): Stream {
    match Decode(Data(s), EndOf(s), max)
    case Ok(payload) => Drop(s, HEADER_LEN + |payload|)
    case Err(TooLarge(_, _)) => Drop(s, HEADER_LEN)
    case Err(_) => AfterEnd(s)
  }

  method WriteFrameBytes(writer: Socket, payload: seq<byte>, max: nat) returns (r: Result<()>)
    modifies writer`out
    ensures |payload| > max ==> r == Err(TooLarge(|payload|, max)) && writer.out == old(writer.out)
    ensures |payload| <= max ==> writer.out == Put(old(writer.out), Encode(payload))
    ensures |payload| <= max ==>
              r == if Fits(old(writer.out), Encode(payload)) then Ok(()) else Err(Io(writer.writeFault))
  {
    var len := |payload|;
    if len > max {
      return Err(TooLarge(len, max));
    }
    PutInTwo(writer.out, Header(len), payload);
    r := writer.WriteAll(Header(len));
    if r.Err? {
      return;
    }
    r := writer.WriteAll(payload);
  }

  /** A read right behind the first `filled` bytes extends them. */
  lemma FilledFurther(data: seq<byte>, before: seq<byte>, got: seq<byte>, after: seq<byte>, filled: nat)
    requires filled <= |data| && filled + |got| <= |before| && got <= data[filled..]
    requires before[..filled] == data[..filled]
    requires after == before[..filled] + got + before[filled + |got|..]
    ensures after[..filled + |got|] == data[..filled + |got|]
  {
    assert after[..filled + |got|] == data[..filled] + got;
  }

  /** One read behind the first `filled` bytes: the next bytes, or the end of the data. */
  lemma ReadFurther(s: Stream, filled: nat, want: nat)
    requires filled <= |Data(s)| && want > 0
    ensures var (got, rest) := ReadOnce(Drop(s, filled), want);
            match got
            case Ok(b) =>
              && |b| <= want && filled + |b| <= |Data(s)|
              && b <= Data(s)[filled..] && rest == Drop(s, filled + |b|)
              && (b == [] ==> filled == |Data(s)| && EndOf(s) == Eof && rest == AfterEnd(s))
            case Err(e) =>
              filled == |Data(s)| && EndOf(s).Broken? && e == Io(EndOf(s).kind) && rest == AfterEnd(s)
  {
    DropKeeps(s, filled);
    var d, got := Drop(s, filled), ReadOnce(Drop(s, filled), want).0;
    if got.Ok? {
      assert got.value <= Data(d);
      DropTwice(s, filled, |got.value|);
    }
  }

  method ReadExact(reader: Socket, buf: array<byte>) returns (r: Result<()>)
    modifies reader`incoming, buf
    ensures var was, n := old(reader.incoming), buf.Length;
            if n <= |Data(was)|
            then r == Ok(()) && buf[..] == Data(was)[..n] && reader.incoming == Drop(was, n)
            else r == Err(Cut(|Data(was)|, n, EndOf(was))) && reader.incoming == AfterEnd(was)
  {
    ghost var was := reader.incoming;
    var filled := 0;
    while filled < buf.Length
      invariant filled <= buf.Length && filled <= |Data(was)|
      invariant buf[..filled] == Data(was)[..filled]
      invariant reader.incoming == Drop(was, filled)
    {
      ghost var before, got := buf[..], ReadOnce(Drop(was, filled), buf.Length - filled).0;
      ReadFurther(was, filled, buf.Length - filled);
      var n := reader.Read(buf, filled);
      if n.Err? {
        return Err(n.error);
      }
      if n.value == 0 {
        return Err(UnexpectedEof(filled, buf.Length));
      }
      FilledFurther(Data(was), before, got.value, buf[..], filled);
      filled := filled + n.value;
    }
    assert buf[..] == buf[..filled];
    r := Ok(());
  }

  method ReadFrameBytes(reader: Socket, max: nat) returns (r: Result<seq<byte>>)
    modifies reader`incoming
    ensures r == Decode(Data(old(reader.incoming)), EndOf(old(reader.incoming)), max)
    ensures reader.incoming == AfterFrame(old(reader.incoming), max)
  {
    ghost var was := reader.incoming;
    var header := new byte[HEADER_LEN];
    var got := ReadExact(reader, header);
    if got.Err? {
      return Err(got.error);
    }
    var len := FromLe(header[..]);
    if len > max {
      return Err(TooLarge(len, max));
    }
    var payload := new byte[len];
    DropKeeps(was, HEADER_LEN);
    got := ReadExact(reader, payload);
    if got.Err? {
      return Err(got.error);
    }
    DropTwice(was, HEADER_LEN, len);
    assert Data(was)[HEADER_LEN..][..len] == Data(was)[HEADER_LEN..HEADER_LEN + len];
    r := Ok(payload[..]);
  }

  // ------------------------------------------------------- facts about the wire

  lemma {:induction false} DropKeeps(s: Stream, n: nat)
    requires n <= |Data(s)|
    ensures Data(Drop(s, n)) == Data(s)[n..]
    ensures EndOf(Drop(s, n)) == EndOf(s) && AfterEnd(Drop(s, n)) == AfterEnd(s)
    ensures Volume(Drop(s, n)) == Volume(s) - n
  {
    if n != 0 {
      var b := s[0].data;
      if |b| <= n {
        DropKeeps(s[1..], n - |b|);
      } else {
        var d := Drop(s, n);
        assert d[0] == Bytes(b[n..]) && d[1..] == s[1..];
      }
    }
  }

  lemma {:induction false} DropTwice(s: Stream, n: nat, m: nat)
    requires n + m <= |Data(s)|
    ensures |Data(Drop(s, n))| >= m && Drop(Drop(s, n), m) == Drop(s, n + m)
  {
    DropKeeps(s, n);
    if n != 0 && m != 0 {
      var b := s[0].data;
      if |b| <= n {
        DropTwice(s[1..], n - |b|, m);
      } else {
        var d := Drop(s, n);
        assert d[0] == Bytes(b[n..]) && d[1..] == s[1..];
        if |b| <= n + m {
          assert |b[n..]| <= m;
        } else {
          assert b[n..][m..] == b[n + m..];
        }
      }
    }
  }

  /** Two writes are one, unless the first of them fails: then that is all. */
  lemma PutInTwo(o: Out, a: seq<byte>, b: seq<byte>)
    ensures Fits(o, a) ==> Put(Put(o, a), b) == Put(o, a + b)
    ensures Fits(o, a + b) <==> Fits(o, a) && (Fits(o, a) ==> Fits(Put(o, a), b))
    ensures !Fits(o, a) ==> Put(o, a + b) == Put(o, a)
  {
    if !Fits(o, a) {
      assert (a + b)[..o.room[0]] == a[..o.room[0]];
    } else {
      assert (o.sent + a) + b == o.sent + (a + b);
      if o.room != [] && !Fits(o, a + b) {
        var n := o.room[0] - |a|;
        assert (a + b)[..o.room[0]] == a + b[..n];
        assert (o.sent + a) + b[..n] == o.sent + (a + b[..n]);
      }
    }
  }

  lemma {:induction false} PutAllInTwo(o: Out, a: seq<seq<byte>>, b: seq<seq<byte>>)
    ensures PutAll(PutAll(o, a), b) == PutAll(o, a + b)
    decreases a
  {
    if a == [] {
      assert a + b == b;
    } else {
      assert (a + b)[0] == a[0] && (a + b)[1..] == a[1..] + b;
      PutAllInTwo(Put(o, Encode(a[0])), a[1..], b);
    }
  }
}
