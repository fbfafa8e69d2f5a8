/** The client cap of `serve_listener` in `ipc/server.rs`: one acceptor, which reads,
    compares and increments the counter in separate steps, and one worker thread for
    every admitted connection, which decrements it whenever it is done. */
module ClientCap {
  import opened Wrappers

  /** An `AtomicUsize` wraps around here. */
  const USIZE: nat := 0x1_0000_0000_0000_0000
  type usize = n: nat | n < USIZE

  function Incremented(n: usize): usize {
    if n == USIZE - 1 then 0 else n + 1
  }

  function Decremented(n: usize): usize {
    if n == 0 then USIZE - 1 else n - 1
  }

  /** Connections are named by the order in which they were accepted. */
  type Conn = nat

  /** Where the acceptor stands: between the steps of its loop body. */
  datatype AcceptorPc =
    | Accepting
    | Loading(conn: Conn)
    | Comparing(conn: Conn, seen: nat, holders: set<Conn>)
    | Adding(conn: Conn)
    | Spawning(conn: Conn)
    | Stopped

  datatype WorkerPc = Handling | Returned | Gone

  /** How a connection ended. A busy reject remembers what the acceptor read, and who
      held a slot at that moment. */
  datatype Outcome = Busy(seen: nat, holders: set<Conn>) | AuthReject | Session

  datatype State = State(pc: AcceptorPc, clients: usize, workers: map<Conn, WorkerPc>,
                         outcomes: map<Conn, Outcome>, accepted: nat)

  datatype Action =
    | Accept
    | AcceptError(pathExists: bool)
    | Load
    | Compare
    | FetchAdd
    | Spawn
    | HandleConn(conn: Conn, allowed: bool)
    | FetchSub(conn: Conn)

  const INIT := State(Accepting, 0, map[], map[], 0)

  /** Who holds a slot: the workers that have not decremented yet, and the connection
      that was counted but not yet given its thread. */
  function Holders(s: State): set<Conn> {
    (set c | c in s.workers && s.workers[c] != Gone) + (if s.pc.Spawning? then {s.pc.conn} else {})
  }

  /** One atomic step, if it is enabled. `None` for `max` is an unbounded server. */
  function Step(max: Option<usize>, s: State, a: Action): Option<State> {
    match a
    case Accept =>
      if s.pc != Accepting then None
      else Some(s.(pc := if max.Some? then Loading(s.accepted) else Spawning(s.accepted),
                   accepted := s.accepted + 1))
    case AcceptError(pathExists) =>
      if s.pc != Accepting then None
      else Some(s.(pc := if pathExists then Accepting else Stopped))
    case Load =>
      if !s.pc.Loading? then None
      else Some(s.(pc := Comparing(s.pc.conn, s.clients, Holders(s))))
    case Compare =>
      if !s.pc.Comparing? || max.None? then None
      else if s.pc.seen >= max.value
      then Some(s.(pc := Accepting, outcomes := s.outcomes[s.pc.conn := Busy(s.pc.seen, s.pc.holders)]))
      else Some(s.(pc := Adding(s.pc.conn)))
    case FetchAdd =>
      if !s.pc.Adding? then None
      else Some(s.(pc := Spawning(s.pc.conn), clients := Incremented(s.clients)))
    case Spawn =>
      if !s.pc.Spawning? then None
      else Some(s.(pc := Accepting, workers := s.workers[s.pc.conn := Handling]))
    case HandleConn(c, allowed) =>
      if c !in s.workers || s.workers[c] != Handling then None
      else Some(s.(workers := s.workers[c := Returned],
                   outcomes := s.outcomes[c := if allowed then Session else AuthReject]))
    case FetchSub(c) =>
      if c !in s.workers || s.workers[c] != Returned then None
      else Some(s.(workers := s.workers[c := Gone],
                   clients := if max.Some? then Decremented(s.clients) else s.clients))
  }

  /** A whole run: any interleaving of acceptor and workers is a list of actions. */
  function Exec(max: Option<usize>, s: State, run: seq<Action>): Option<State>
    decreases run
  {
    if run == [] then Some(s)
    else match Step(max, s, run[0])
      case None => None
      case Some(next) => Exec(max, next, run[1..])
  }

  // ------------------------------------------------------------------ the cap

  ghost predicate InFlight(s: State, c: Conn) {
    (s.pc.Loading? || s.pc.Comparing? || s.pc.Adding? || s.pc.Spawning?) && s.pc.conn == c
  }

  ghost predicate IsBusy(s: State, c: Conn) {
    c in s.outcomes && s.outcomes[c].Busy?
  }

  /** The counter is the number of slots that are held, and is within the cap, and still
      will be after the increment that the acceptor has decided on. */
  ghost predicate CounterIsExact(max: Option<usize>, s: State) {
    if max.None? then s.clients == 0
    else && s.clients == |Holders(s)| <= max.value
         && (s.pc.Comparing? ==> s.clients <= s.pc.seen == |s.pc.holders| <= max.value)
         && (s.pc.Adding? ==> s.clients < max.value)
  }

  /** Connection `c` is in exactly one place if it was accepted, and nowhere otherwise;
      it has an outcome when the acceptor rejected it or its worker is done with it. */
  ghost predicate Placed(max: Option<usize>, s: State, c: Conn) {
    && (c < s.accepted <==> InFlight(s, c) || IsBusy(s, c) || c in s.workers)
    && !(InFlight(s, c) && IsBusy(s, c)) && !(IsBusy(s, c) && c in s.workers)
    && !(InFlight(s, c) && c in s.workers)
    && (c in s.workers ==> (s.workers[c] != Handling <==> c in s.outcomes))
    && (c in s.outcomes ==> s.outcomes[c].Busy? || c in s.workers)
    && (IsBusy(s, c) ==> max.Some? && s.outcomes[c].seen == |s.outcomes[c].holders| == max.value)
  }

  ghost predicate Conserved(max: Option<usize>, s: State) {
    && (forall c: Conn :: Placed(max, s, c))
    && (max.None? ==> s.pc.Accepting? || s.pc.Spawning? || s.pc.Stopped?)
  }

  ghost predicate Inv(max: Option<usize>, s: State) {
    CounterIsExact(max, s) && Conserved(max, s)
  }

  /** Only the increment adds a holder, and only a decrement takes one away. */
  lemma HoldersAfter(max: Option<usize>, s: State, a: Action)
    requires Step(max, s, a).Some?
    requires s.pc.Spawning? ==> s.pc.conn !in s.workers
    ensures var t := Step(max, s, a).value;
            match a
            case FetchAdd => Holders(t) == Holders(s) + {s.pc.conn}
            case FetchSub(c) => c in Holders(s) && Holders(t) == Holders(s) - {c}
            case Accept => max.Some? ==> Holders(t) == Holders(s)
            case _ => Holders(t) == Holders(s)
  {
    var t := Step(max, s, a).value;
    forall c: Conn
      ensures c in Holders(t) <==>
        match a
        case FetchAdd => c in Holders(s) || c == s.pc.conn
        case FetchSub(d) => c in Holders(s) && c != d
        case Accept => c in Holders(s) || (max.None? && c == s.accepted)
        case _ => c in Holders(s)
    {
    }
  }

  lemma StepKeepsCounter(max: Option<usize>, s: State, a: Action)
    requires CounterIsExact(max, s) && Step(max, s, a).Some?
    requires s.pc.Adding? || s.pc.Spawning? ==> s.pc.conn !in s.workers
    requires max.None? ==> s.pc.Accepting? || s.pc.Spawning? || s.pc.Stopped?
    ensures CounterIsExact(max, Step(max, s, a).value)
  {
    var t := Step(max, s, a).value;
    HoldersAfter(max, s, a);
    match a
    case FetchAdd => assert s.pc.conn !in Holders(s) && |Holders(t)| == |Holders(s)| + 1;
    case FetchSub(c) => assert max.Some? ==> |Holders(t)| == |Holders(s)| - 1;
    case _ =>
  }

  lemma StepPlaces(max: Option<usize>, s: State, a: Action, c: Conn)
    requires CounterIsExact(max, s) && Step(max, s, a).Some?
    requires Placed(max, s, c)
    ensures Placed(max, Step(max, s, a).value, c)
  {
    match a
    case Accept =>
    case AcceptError(_) =>
    case Load =>
    case Compare =>
    case FetchAdd =>
    case Spawn =>
    case HandleConn(_, _) =>
    case FetchSub(_) =>
  }

  lemma StepKeepsInv(max: Option<usize>, s: State, a: Action)
    requires Inv(max, s) && Step(max, s, a).Some?
    ensures Inv(max, Step(max, s, a).value)
  {
    assert s.pc.Adding? || s.pc.Spawning? ==> Placed(max, s, s.pc.conn);
    StepKeepsCounter(max, s, a);
    forall c: Conn
      ensures Placed(max, Step(max, s, a).value, c)
    {
      StepPlaces(max, s, a, c);
    }
  }

  lemma {:induction false} RunKeepsInv(max: Option<usize>, s: State, run: seq<Action>)
    requires Inv(max, s) && Exec(max, s, run).Some?
    ensures Inv(max, Exec(max, s, run).value)
    decreases run
  {
    if run != [] {
      StepKeepsInv(max, s, run[0]);
      RunKeepsInv(max, Step(max, s, run[0]).value, run[1..]);
    }
  }

  /** In every run of a capped server, at every moment: the counter is the number of
      connections that hold a slot; it never exceeds the cap, although check and increment
      are separate steps; and neither the increment nor any decrement wraps around. */
  lemma CapHolds(max: usize, run: seq<Action>)
    requires Exec(Some(max), INIT, run).Some?
    ensures var s := Exec(Some(max), INIT, run).value;
            && s.clients == |Holders(s)| <= max
            && (s.pc.Adding? ==> s.clients + 1 <= max)
            && (forall c <- s.workers :: s.workers[c] == Returned ==> s.clients >= 1)
  {
    RunKeepsInv(Some(max), INIT, run);
    var s := Exec(Some(max), INIT, run).value;
    forall c | c in s.workers && s.workers[c] == Returned
      ensures s.clients >= 1
    {
      assert c in Holders(s);
    }
  }

  /** The other direction: a connection is turned away as busy only if, when the counter
      was read, exactly `max` others held a slot; and at no moment of the run, before or
      after, did it hold one itself. */
  lemma BusyMeansFull(max: usize, run: seq<Action>, c: Conn)
    requires Exec(Some(max), INIT, run).Some?
    requires IsBusy(Exec(Some(max), INIT, run).value, c)
    ensures var busy := Exec(Some(max), INIT, run).value.outcomes[c];
            busy.seen == |busy.holders| == max
    ensures forall n :: 0 <= n <= |run| ==>
              Exec(Some(max), INIT, run[..n]).Some? && c !in Holders(Exec(Some(max), INIT, run[..n]).value)
  {
    RunKeepsInv(Some(max), INIT, run);
    assert Placed(Some(max), Exec(Some(max), INIT, run).value, c);
    forall n | 0 <= n <= |run|
      ensures Exec(Some(max), INIT, run[..n]).Some? && c !in Holders(Exec(Some(max), INIT, run[..n]).value)
    {
      assert run == run[..n] + run[n..];
      ExecPrefix(Some(max), INIT, run[..n], run[n..]);
      var s := Exec(Some(max), INIT, run[..n]).value;
      RunKeepsInv(Some(max), INIT, run[..n]);
      if c in Holders(s) {
        HolderIsNeverBusy(Some(max), s, run[n..], c);
      }
    }
  }

  lemma {:induction false} ExecPrefix(max: Option<usize>, s: State, a: seq<Action>, b: seq<Action>)
    requires Exec(max, s, a + b).Some?
    ensures Exec(max, s, a).Some? && Exec(max, s, a + b) == Exec(max, Exec(max, s, a).value, b)
    decreases a
  {
    if a == [] {
      assert a + b == b;
    } else {
      assert (a + b)[0] == a[0] && (a + b)[1..] == a[1..] + b;
      ExecPrefix(max, Step(max, s, a[0]).value, a[1..], b);
    }
  }

  /** A connection that was given a slot will never be turned away. */
  lemma {:induction false} HolderIsNeverBusy(max: Option<usize>, s: State, run: seq<Action>, c: Conn)
    requires Inv(max, s) && Exec(max, s, run).Some?
    requires c in s.workers || (s.pc.Spawning? && s.pc.conn == c)
    ensures !IsBusy(Exec(max, s, run).value, c)
    decreases run
  {
    if run == [] {
      assert Placed(max, s, c);
    } else {
      StepKeepsInv(max, s, run[0]);
      HolderStays(max, s, run[0], c);
      HolderIsNeverBusy(max, Step(max, s, run[0]).value, run[1..], c);
    }
  }

  lemma HolderStays(max: Option<usize>, s: State, a: Action, c: Conn)
    requires Step(max, s, a).Some? && (c in s.workers || (s.pc.Spawning? && s.pc.conn == c))
    ensures var t := Step(max, s, a).value; c in t.workers || (t.pc.Spawning? && t.pc.conn == c)
  {
  }

  /** An unbounded server never touches the counter and never turns anyone away as busy. */
  lemma UnboundedNeverBusy(run: seq<Action>, c: Conn)
    requires Exec(None, INIT, run).Some?
    ensures Exec(None, INIT, run).value.clients == 0 && !IsBusy(Exec(None, INIT, run).value, c)
  {
    RunKeepsInv(None, INIT, run);
    assert Placed(None, Exec(None, INIT, run).value, c);
  }

  /** Every accepted connection gets one outcome: it has none while the acceptor or its
      worker is still busy with it, and has one from then on. */
  lemma OneOutcomeEach(max: Option<usize>, run: seq<Action>, c: Conn)
    requires Exec(max, INIT, run).Some?
    ensures var s := Exec(max, INIT, run).value;
            && (c in s.outcomes <==>
                  c < s.accepted && !InFlight(s, c) && (c in s.workers ==> s.workers[c] != Handling))
            && (c in s.outcomes ==> (s.outcomes[c].Busy? <==> c !in s.workers))
  {
    RunKeepsInv(max, INIT, run);
    assert Placed(max, Exec(max, INIT, run).value, c);
  }

  lemma OutcomeStays(max: Option<usize>, s: State, a: Action, c: Conn)
    requires Placed(max, s, c) && Step(max, s, a).Some? && c in s.outcomes
    ensures var t := Step(max, s, a).value; c in t.outcomes && t.outcomes[c] == s.outcomes[c]
  {
    match a
    case Compare =>
      assert InFlight(s, s.pc.conn);
    case _ =>
  }

  /** An outcome is final. */
  lemma {:induction false} OutcomesAreFinal(max: Option<usize>, s: State, run: seq<Action>, c: Conn)
    requires Inv(max, s) && Exec(max, s, run).Some? && c in s.outcomes
    ensures var t := Exec(max, s, run).value; c in t.outcomes && t.outcomes[c] == s.outcomes[c]
    decreases run
  {
    if run != [] {
      StepKeepsInv(max, s, run[0]);
      OutcomeStays(max, s, run[0], c);
      OutcomesAreFinal(max, Step(max, s, run[0]).value, run[1..], c);
    }
  }

  /** What the auth decides about a connection is how it ends: as a session if and only if
      it was allowed, as rejected if and only if it was refused. */
  lemma AuthDecidesOutcome(max: Option<usize>, run: seq<Action>, c: Conn, allowed: bool)
    requires Exec(max, INIT, run).Some?
    ensures var t := Exec(max, INIT, run).value;
            HandleConn(c, allowed) in run <==>
              c in t.outcomes && t.outcomes[c] == (if allowed then Session else AuthReject)
  {
    HandledFrom(max, INIT, run, c, allowed);
  }

  lemma {:induction false} HandledFrom(max: Option<usize>, s: State, run: seq<Action>, c: Conn, allowed: bool)
    requires Inv(max, s) && Exec(max, s, run).Some?
    requires c !in s.outcomes
    ensures var t := Exec(max, s, run).value;
            HandleConn(c, allowed) in run <==>
              c in t.outcomes && t.outcomes[c] == (if allowed then Session else AuthReject)
    decreases run
  {
    if run != [] {
      var s1, rest := Step(max, s, run[0]).value, run[1..];
      StepKeepsInv(max, s, run[0]);
      FirstOutcome(max, s, run[0], c);
      assert HandleConn(c, allowed) in run <==> run[0] == HandleConn(c, allowed) || HandleConn(c, allowed) in rest;
      if c in s1.outcomes {
        OutcomesAreFinal(max, s1, rest, c);
        NotHandledAgain(max, s1, rest, c, allowed);
      } else {
        HandledFrom(max, s1, rest, c, allowed);
      }
    }
  }

  lemma FirstOutcome(max: Option<usize>, s: State, a: Action, c: Conn)
    requires Step(max, s, a).Some? && c !in s.outcomes
    ensures var t := Step(max, s, a).value;
            if a.HandleConn? && a.conn == c
            then c in t.outcomes && t.outcomes[c] == (if a.allowed then Session else AuthReject)
            else c in t.outcomes ==> t.outcomes[c].Busy?
  {
  }

  lemma {:induction false} NotHandledAgain(max: Option<usize>, s: State, run: seq<Action>, c: Conn, allowed: bool)
    requires Inv(max, s) && Exec(max, s, run).Some? && c in s.outcomes
    ensures HandleConn(c, allowed) !in run
    decreases run
  {
    if run != [] {
      assert Placed(max, s, c);
      StepKeepsInv(max, s, run[0]);
      OutcomeStays(max, s, run[0], c);
      NotHandledAgain(max, Step(max, s, run[0]).value, run[1..], c, allowed);
    }
  }

  /** When the acceptor rests and every worker is gone, every slot is free again. */
  lemma SlotsAreReturned(max: Option<usize>, run: seq<Action>)
    requires Exec(max, INIT, run).Some?
    requires var s := Exec(max, INIT, run).value;
             !s.pc.Spawning? && forall c <- s.workers :: s.workers[c] == Gone
    ensures Exec(max, INIT, run).value.clients == 0
  {
    RunKeepsInv(max, INIT, run);
    assert Holders(Exec(max, INIT, run).value) == {};
  }

  lemma {:induction false} ExecInTwo(max: Option<usize>, s: State, a: seq<Action>, b: seq<Action>)
    requires Exec(max, s, a).Some?
    ensures Exec(max, s, a + b) == Exec(max, Exec(max, s, a).value, b)
    decreases a
  {
    if a == [] {
      assert a + b == b;
    } else {
      assert (a + b)[0] == a[0] && (a + b)[1..] == a[1..] + b;
      ExecInTwo(max, Step(max, s, a[0]).value, a[1..], b);
    }
  }

  // ------------------------------------------------------------- the accept loop

  /** What `incoming()` yields. */
  datatype Incoming = Stream | Failed(pathExists: bool)

  function Accepts(incoming: seq<Incoming>): nat {
    if incoming == [] then 0
    else Accepts(incoming[..|incoming| - 1]) + (if incoming[|incoming| - 1].Stream? then 1 else 0)
  }

  /** The accept loop and the memory it shares with its workers. `run` records, for the
      proof, in which order things happened. */
  class Acceptor {
    const max: Option<usize>
    var clients: usize
    var workers: map<Conn, WorkerPc>
    ghost var outcomes: map<Conn, Outcome>
    var accepted: nat
    ghost var run: seq<Action>

    constructor (max: Option<usize>)
      ensures this.max == max && IsAt(Accepting) && run == []
    {
      this.max := max;
      clients, workers, outcomes, accepted, run := 0, map[], map[], 0, [];
    }

    ghost function Now(pc: AcceptorPc): State
      reads this
    {
      State(pc, clients, workers, outcomes, accepted)
    }

    /** The memory is what the recorded run leads to, with the acceptor at `pc`. */
    ghost predicate IsAt(pc: AcceptorPc)
      reads this
    {
      Exec(max, INIT, run) == Some(Now(pc))
    }

    /** Let the workers take some steps: those of `steps` that they can take. */
    method Others(steps: seq<Action>, ghost pc: AcceptorPc)
      requires IsAt(pc)
      modifies this
      ensures IsAt(pc) && old(run) <= run && accepted == old(accepted)
      ensures forall a <- run[|old(run)|..] :: a.HandleConn? || a.FetchSub?
    {
      for i := 0 to |steps|
        invariant IsAt(pc) && old(run) <= run && accepted == old(accepted)
        invariant forall a <- run[|old(run)|..] :: a.HandleConn? || a.FetchSub?
      {
        var a := steps[i];
        ghost var was := Now(pc);
        if a.HandleConn? && a.conn in workers && workers[a.conn] == Handling {
          workers := workers[a.conn := Returned];
          outcomes := outcomes[a.conn := if a.allowed then Session else AuthReject];
          Record(a, was, pc);
        } else if a.FetchSub? && a.conn in workers && workers[a.conn] == Returned {
          workers := workers[a.conn := Gone];
          if max.Some? {
            clients := Decremented(clients);
          }
          Record(a, was, pc);
        }
      }
    }

    ghost method Record(a: Action, was: State, pc: AcceptorPc)
      requires Exec(max, INIT, run) == Some(was) && Step(max, was, a) == Some(Now(pc))
      modifies this`run
      ensures IsAt(pc) && run == old(run) + [a]
    {
      ExecInTwo(max, INIT, run, [a]);
      assert [a][1..] == [];
      run := run + [a];
    }

    /** Load, compare, and reject or increment. */
    method TakeSlot(c: Conn, first: seq<Action>, second: seq<Action>, third: seq<Action>)
      returns (admitted: bool)
      requires max.Some? && IsAt(Loading(c))
      modifies this
      ensures IsAt(if admitted then Spawning(c) else Accepting) && accepted == old(accepted)
    {
      Others(first, Loading(c));
      var seen := clients;
      ghost var was := Now(Loading(c));
      ghost var comparing := Comparing(c, seen, Holders(was));
      Record(Load, was, comparing);
      Others(second, comparing);
      was := Now(comparing);
      if seen >= max.value {
        outcomes := outcomes[c := Busy(seen, comparing.holders)];
        Record(Compare, was, Accepting);
        return false;
      }
      Record(Compare, was, Adding(c));
      Others(third, Adding(c));
      was := Now(Adding(c));
      clients := Incremented(clients);
      Record(FetchAdd, was, Spawning(c));
      admitted := true;
    }

    /** The loop, with the worker steps that happen before each of its own steps. However
        these interleave, it takes the acceptor's steps, one after the other. */
    method ServeListener(incoming: seq<Incoming>, others: seq<seq<Action>>) returns (ghost pc: AcceptorPc)
      requires IsAt(Accepting) && run == []
      requires |others| == 5 * |incoming|
      modifies this
      ensures IsAt(pc) && (pc == Accepting || pc == Stopped)
      ensures pc == Stopped ==> Failed(false) in incoming
      ensures pc == Accepting ==> Failed(false) !in incoming && accepted == Accepts(incoming)
    {
      pc := Accepting;
      for i := 0 to |incoming|
        invariant IsAt(Accepting) && pc == Accepting
        invariant Failed(false) !in incoming[..i]
        invariant accepted == Accepts(incoming[..i])
      {
        assert incoming[..i + 1][..i] == incoming[..i];
        Others(others[5 * i], Accepting);
        match incoming[i] {
          case Failed(pathExists) =>
            ghost var was := Now(Accepting);
            if !pathExists {
              pc := Stopped;
              Record(AcceptError(false), was, Stopped);
              return;
            }
            Record(AcceptError(true), was, Accepting);
          case Stream =>
            var c := accepted;
            ghost var was := Now(Accepting);
            accepted := accepted + 1;
            if max.Some? {
              Record(Accept, was, Loading(c));
              var admitted := TakeSlot(c, others[5 * i + 1], others[5 * i + 2], others[5 * i + 3]);
              if !admitted {
                continue;
              }
            } else {
              Record(Accept, was, Spawning(c));
            }
            Others(others[5 * i + 4], Spawning(c));
            was := Now(Spawning(c));
            workers := workers[c := Handling];
            Record(Spawn, was, Accepting);
        }
      }
      assert incoming[..|incoming|] == incoming;
    }
  }
}
