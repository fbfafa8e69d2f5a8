/** The singleton socket claim of `ipc/bind.rs`: many processes probe, unlink and bind
    one path, each of these in a separate filesystem step. */
module Bind {
  import opened Wrappers

  type Pid = nat

  /** Steps are numbered; an inode is named by the step that created it. */
  type Time = nat

  datatype ErrorKind = NotFound | ConnectionRefused | OtherKind

  datatype BindError = AlreadyRunning | Io(kind: ErrorKind)

  /** Where a process stands in `bind`. `UnixListener::bind` is two steps: an `Opened` socket
      has its inode, but refuses connections until it listens. From `Bound` to `Serving`
      the process holds the listener of its inode, which has listened since then. */
  datatype Pc =
    | Idle
    | Stale(probedAt: Time)
    | Cleared(probedAt: Time)
    | Opened(inode: Time)
    | Bound(inode: Time, since: Time)
    | Moded(inode: Time, since: Time)
    | Serving(inode: Time, since: Time)
    | Failed(error: BindError)

  /** A live socket that was unlinked: by whom, when that process had probed, and since
      when the socket had listened. */
  datatype Theft = Theft(thief: Pid, probedAt: Time, since: set<Time>)

  datatype State = State(path: Option<Time>, now: Time, procs: map<Pid, Pc>, thefts: seq<Theft>)

  function PcOf(s: State, p: Pid): Pc {
    if p in s.procs then s.procs[p] else Idle
  }

  predicate Listens(s: State, p: Pid) {
    PcOf(s, p).Bound? || PcOf(s, p).Moded? || PcOf(s, p).Serving?
  }

  /** The process is between its probe and the moment at which it listens. */
  predicate InWindow(s: State, p: Pid) {
    PcOf(s, p).Stale? || PcOf(s, p).Cleared? || PcOf(s, p).Opened?
  }

  /** Since when there are listeners behind an inode. */
  function ListeningSince(s: State, inode: Time): set<Time> {
    set p | p in s.procs && Listens(s, p) && s.procs[p].inode == inode :: s.procs[p].since
  }

  /** `connect` on the path would succeed. */
  predicate PathIsLive(s: State) {
    s.path.Some? && exists p <- s.procs :: Listens(s, p) && s.procs[p].inode == s.path.value
  }

  /** The failing variants stand for the errors that the environment may raise at that
      step; those that follow from the state are part of the plain ones. */
  datatype Action =
    | Probe(pid: Pid)
    | ProbeFails(pid: Pid)
    | Unlink(pid: Pid)
    | UnlinkFails(pid: Pid)
    | BindSocket(pid: Pid)
    | BindFails(pid: Pid)
    | Listen(pid: Pid)
    | ListenFails(pid: Pid)
    | Chmod(pid: Pid, ok: bool)
    | Chown(pid: Pid, wanted: bool, ok: bool)
    | Quit(pid: Pid)

  function Goto(s: State, p: Pid, pc: Pc): State {
    s.(now := s.now + 1, procs := s.procs[p := pc])
  }

  function Step(s: State, a: Action): Option<State> {
    var p, pc := a.pid, PcOf(s, a.pid);
    match a
    case Probe(_) =>
      if pc != Idle then None
      else Some(Goto(s, p, if PathIsLive(s) then Failed(AlreadyRunning) else Stale(s.now)))
    case ProbeFails(_) =>
      if pc != Idle then None else Some(Goto(s, p, Failed(Io(OtherKind))))
    case Unlink(_) =>
      if !pc.Stale? then None
      else Some(Goto(s, p, Cleared(pc.probedAt))
                .(path := None,
                  thefts := if PathIsLive(s)
                            then s.thefts + [Theft(p, pc.probedAt, ListeningSince(s, s.path.value))]
                            else s.thefts))
    case UnlinkFails(_) =>
      if !pc.Stale? || s.path.None? then None else Some(Goto(s, p, Failed(Io(OtherKind))))
    case BindSocket(_) =>
      if !pc.Cleared? then None
      else if s.path.Some? then Some(Goto(s, p, Failed(Io(OtherKind))))
      else Some(Goto(s, p, Opened(s.now)).(path := Some(s.now)))
    case BindFails(_) =>
      if !pc.Cleared? then None else Some(Goto(s, p, Failed(Io(OtherKind))))
    case Listen(_) =>
      if !pc.Opened? then None else Some(Goto(s, p, Bound(pc.inode, s.now)))
    case ListenFails(_) =>
      if !pc.Opened? then None else Some(Goto(s, p, Failed(Io(OtherKind))))
    case Chmod(_, ok) =>
      if !pc.Bound? then None
      else if ok && s.path.Some? then Some(Goto(s, p, Moded(pc.inode, pc.since)))
      else Some(Goto(s, p, Failed(Io(if s.path.None? then NotFound else OtherKind))))
    case Chown(_, wanted, ok) =>
      if !pc.Moded? then None
      else if wanted && (!ok || s.path.None?) then Some(Goto(s, p, Failed(Io(OtherKind))))
      else Some(Goto(s, p, Serving(pc.inode, pc.since)))
    case Quit(_) =>
      Some(Goto(s, p, Idle))
  }

  function Exec(s: State, run: seq<Action>): Option<State>
    decreases run
  {
    if run == [] then Some(s)
    else match Step(s, run[0])
      case None => None
      case Some(next) => Exec(next, run[1..])
  }

  /** Nobody runs yet; the path is free, or holds a leftover. */
  predicate IsInitial(s: State) {
    s.procs == map[] && s.thefts == [] && (s.path.Some? ==> s.path.value < s.now)
  }

  // -------------------------------------------------- what holds in every run

  predicate PastAt(pc: Pc, now: Time) {
    match pc
    case Idle => true
    case Stale(probedAt) => probedAt < now
    case Cleared(probedAt) => probedAt < now
    case Opened(inode) => inode < now
    case Bound(inode, since) => inode < now && since < now
    case Moded(inode, since) => inode < now && since < now
    case Serving(inode, since) => inode < now && since < now
    case Failed(_) => true
  }

  /** Everything that is recorded lies in the past. */
  ghost predicate Dated(s: State) {
    && (s.path.Some? ==> s.path.value < s.now)
    && (forall p :: PastAt(PcOf(s, p), s.now))
  }

  /** A process that is about to unlink found the path dead, so whoever listens behind it
      by now began to do so later. */
  ghost predicate Inv(s: State) {
    && Dated(s)
    && (forall p, q :: PcOf(s, p).Stale? && Listens(s, q) && s.path == Some(s.procs[q].inode)
                       ==> s.procs[p].probedAt < s.procs[q].since)
    && (forall t <- s.thefts :: forall u <- t.since :: t.probedAt < u)
  }

  /** A step of one process changes nothing about the others. */
  lemma OthersStay(s: State, a: Action)
    requires Step(s, a).Some?
    ensures var t := Step(s, a).value;
            && t.now == s.now + 1
            && forall p :: p != a.pid ==>
                 && PcOf(t, p) == PcOf(s, p) && (p in s.procs <==> p in t.procs)
                 && (Listens(s, p) <==> Listens(t, p)) && (InWindow(s, p) <==> InWindow(t, p))
  {
  }

  lemma StepKeepsDates(s: State, a: Action)
    requires Dated(s) && Step(s, a).Some?
    ensures Dated(Step(s, a).value)
  {
    var t := Step(s, a).value;
    forall p
      ensures PastAt(PcOf(t, p), t.now)
    {
      assert PastAt(PcOf(s, p), s.now);
    }
  }

  lemma StepKeepsProbesOlder(s: State, a: Action, p: Pid, q: Pid)
    requires Inv(s) && Step(s, a).Some?
    requires var t := Step(s, a).value;
             PcOf(t, p).Stale? && Listens(t, q) && t.path == Some(t.procs[q].inode)
    ensures var t := Step(s, a).value; t.procs[p].probedAt < t.procs[q].since
  {
    OthersStay(s, a);
    assert PastAt(PcOf(s, p), s.now) && PastAt(PcOf(s, q), s.now);
    assert p != q;
    assert a.pid == q ==> a.Listen? || Listens(s, q);
  }

  lemma StepKeepsInv(s: State, a: Action)
    requires Inv(s) && Step(s, a).Some?
    ensures Inv(Step(s, a).value)
  {
    var t := Step(s, a).value;
    StepKeepsDates(s, a);
    forall p, q | PcOf(t, p).Stale? && Listens(t, q) && t.path == Some(t.procs[q].inode)
      ensures t.procs[p].probedAt < t.procs[q].since
    {
      StepKeepsProbesOlder(s, a, p, q);
    }
    if a.Unlink? && PathIsLive(s) {
      forall u <- ListeningSince(s, s.path.value)
        ensures s.procs[a.pid].probedAt < u
      {
        var q :| q in s.procs && Listens(s, q) && s.procs[q].inode == s.path.value && u == s.procs[q].since;
      }
    }
  }

  lemma {:induction false} RunKeepsInv(s: State, run: seq<Action>)
    requires Inv(s) && Exec(s, run).Some?
    ensures Inv(Exec(s, run).value)
    decreases run
  {
    if run != [] {
      StepKeepsInv(s, run[0]);
      RunKeepsInv(Step(s, run[0]).value, run[1..]);
    }
  }

  /** Over all interleavings: whoever unlinked a live socket had probed before that
      socket began to listen. */
  lemma TheftsAreOfYoungerSockets(s: State, run: seq<Action>, theft: Theft)
    requires IsInitial(s) && Exec(s, run).Some?
    requires theft in Exec(s, run).value.thefts
    ensures forall since <- theft.since :: theft.probedAt < since
  {
    RunKeepsInv(s, run);
  }

  // ------------------------------------------------------- a live socket is kept

  predicate Owns(s: State, q: Pid) {
    Listens(s, q) && s.path == Some(s.procs[q].inode)
  }

  /** `q` serves the path, and nobody is about to unlink it. */
  ghost predicate Guarded(s: State, q: Pid) {
    Owns(s, q) && forall p :: !PcOf(s, p).Stale?
  }

  /** A process that has a socket, listening or not. */
  predicate HasSocket(s: State, p: Pid) {
    Listens(s, p) || PcOf(s, p).Opened?
  }

  predicate GivesUp(a: Action, q: Pid) {
    a.pid == q && (a.Quit? || (a.Chmod? && !a.ok) || (a.Chown? && a.wanted && !a.ok))
  }

  lemma StepKeepsGuarded(s: State, a: Action, q: Pid)
    requires Guarded(s, q) && Step(s, a).Some? && !GivesUp(a, q)
    ensures var t := Step(s, a).value;
            && Guarded(t, q) && t.path == s.path && t.thefts == s.thefts
            && (a.Probe? ==> PcOf(t, a.pid) == Failed(AlreadyRunning))
            && (forall p :: HasSocket(t, p) ==> HasSocket(s, p))
  {
    OthersStay(s, a);
    assert PathIsLive(s);
    assert !PcOf(s, a.pid).Stale?;
  }

  /** Once no other process is between its probe and its unlink, a live socket is never
      stolen, whatever the others do and however they interleave: until its owner gives it
      up, it keeps the path, every probe ends as already running, and nobody gets a socket
      who has none. */
  lemma {:induction false} LiveSocketIsKept(s: State, run: seq<Action>, q: Pid)
    requires Guarded(s, q) && Exec(s, run).Some?
    requires forall a <- run :: !GivesUp(a, q)
    ensures var t := Exec(s, run).value;
            && Guarded(t, q) && t.path == s.path && t.thefts == s.thefts
            && (run != [] && run[|run| - 1].Probe? ==> PcOf(t, run[|run| - 1].pid) == Failed(AlreadyRunning))
            && (forall p :: HasSocket(t, p) ==> HasSocket(s, p))
    decreases run
  {
    if run != [] {
      StepKeepsGuarded(s, run[0], q);
      LiveSocketIsKept(Step(s, run[0]).value, run[1..], q);
    }
  }

  /** In no future of `s` in which `q` does not give up is its socket stolen. */
  ghost predicate SafeForever(s: State, q: Pid) {
    forall run :: Exec(s, run).Some? && (forall a <- run :: !GivesUp(a, q)) ==>
      Exec(s, run).value.path == s.path && Exec(s, run).value.thefts == s.thefts
  }

  /** The exact condition, of the moment alone: a live socket is safe in every future if
      and only if no process stands between its probe and its unlink. */
  lemma LiveSocketIsSafeIff(s: State, q: Pid)
    requires Owns(s, q)
    ensures SafeForever(s, q) <==> forall p :: !PcOf(s, p).Stale?
  {
    if forall p :: !PcOf(s, p).Stale? {
      forall run | Exec(s, run).Some? && (forall a <- run :: !GivesUp(a, q))
        ensures Exec(s, run).value.path == s.path && Exec(s, run).value.thefts == s.thefts
      {
        LiveSocketIsKept(s, run, q);
      }
    } else {
      var p :| PcOf(s, p).Stale?;
      ExecOne(s, Unlink(p), []);
      assert [Unlink(p)] + [] == [Unlink(p)];
      assert Exec(s, [Unlink(p)]).value.path == None;
    }
  }

  // ------------------------------------------------------------ serialised runs

  /** No process probes while another one is between its probe and its listening. */
  ghost predicate Serial(s: State, run: seq<Action>)
    requires Exec(s, run).Some?
    decreases run
  {
    run != [] ==>
      && (run[0].Probe? ==> forall p :: !InWindow(s, p))
      && Serial(Step(s, run[0]).value, run[1..])
  }

  /** The process listens, or is about to. */
  predicate Claims(s: State, p: Pid) {
    Listens(s, p) || InWindow(s, p)
  }

  /** At most one process listens or is about to; whoever has a socket owns the path. */
  ghost predicate Singleton(s: State) {
    && (forall p, q :: Claims(s, p) && Claims(s, q) ==> p == q)
    && (forall p :: HasSocket(s, p) ==> s.path == Some(s.procs[p].inode))
    && s.thefts == []
  }

  /** A process that claims after a step did so before it, or has just probed a dead path. */
  lemma ClaimsBefore(s: State, a: Action, p: Pid)
    requires Step(s, a).Some? && Claims(Step(s, a).value, p)
    ensures Claims(s, p) || (a == Probe(p) && !PathIsLive(s))
    ensures HasSocket(Step(s, a).value, p) ==>
              || (HasSocket(s, p) && Step(s, a).value.procs[p].inode == s.procs[p].inode)
              || (InWindow(s, p) && a == BindSocket(p) && Step(s, a).value.path == Some(Step(s, a).value.procs[p].inode))
  {
    OthersStay(s, a);
  }

  lemma StepKeepsSingleton(s: State, a: Action)
    requires Singleton(s) && Step(s, a).Some?
    requires a.Probe? ==> forall p :: !InWindow(s, p)
    ensures Singleton(Step(s, a).value)
  {
    var t := Step(s, a).value;
    forall p, q | Claims(t, p) && Claims(t, q)
      ensures p == q
    {
      ClaimsBefore(s, a, p);
      ClaimsBefore(s, a, q);
      assert Listens(s, p) || Listens(s, q) ==> PathIsLive(s);
    }
    forall p | HasSocket(t, p)
      ensures t.path == Some(t.procs[p].inode)
    {
      ClaimsBefore(s, a, p);
      assert Claims(s, p) && (Claims(s, a.pid) ==> a.pid == p);
    }
    forall q
      ensures a.Unlink? ==> !Listens(s, q)
    {
      assert a.Unlink? ==> Claims(s, a.pid) && (Claims(s, q) ==> q == a.pid);
    }
  }

  /** In a singleton state, a listener is guarded. */
  lemma ListenerIsGuarded(s: State, q: Pid)
    requires Singleton(s) && Listens(s, q)
    ensures Guarded(s, q)
  {
    forall p
      ensures !PcOf(s, p).Stale?
    {
      assert Claims(s, q) && (Claims(s, p) ==> p == q);
    }
  }

  /** In every serialised run, crashes and failed chmods and chowns included, there is at
      most one listener, it owns the path, and nothing was ever stolen, nor will be. */
  lemma {:induction false} SerialRunsAreSingleton(s: State, run: seq<Action>)
    requires Singleton(s) && Exec(s, run).Some? && Serial(s, run)
    ensures var t := Exec(s, run).value;
            Singleton(t) && forall q :: Listens(t, q) ==> Guarded(t, q)
    decreases run
  {
    if run == [] {
      forall q | Listens(s, q)
        ensures Guarded(s, q)
      {
        ListenerIsGuarded(s, q);
      }
    } else {
      StepKeepsSingleton(s, run[0]);
      SerialRunsAreSingleton(Step(s, run[0]).value, run[1..]);
    }
  }

  /** What that means for an attempt: it fails as already running, and leaves the path
      alone, exactly if somebody listens; else it goes on to unlink the leftover. */
  lemma SerialAttempt(s: State, run: seq<Action>, p: Pid)
    requires IsInitial(s) && Exec(s, run).Some? && Serial(s, run)
    requires PcOf(Exec(s, run).value, p) == Idle
    ensures var t := Exec(s, run).value;
            var u := Step(t, Probe(p)).value;
            && Singleton(t) && u.path == t.path
            && (PcOf(u, p) == Failed(AlreadyRunning) <==> exists q <- t.procs :: Listens(t, q))
            && (PcOf(u, p) != Failed(AlreadyRunning) ==> PcOf(u, p) == Stale(t.now))
  {
    SerialRunsAreSingleton(s, run);
    var t := Exec(s, run).value;
    assert forall q :: Listens(t, q) ==> HasSocket(t, q);
  }

  lemma ExecOne(s: State, a: Action, rest: seq<Action>)
    requires Step(s, a).Some?
    ensures Exec(s, [a] + rest) == Exec(Step(s, a).value, rest)
  {
    assert ([a] + rest)[0] == a && ([a] + rest)[1..] == rest;
  }

  lemma ExecThree(s: State, a: Action, b: Action, c: Action)
    requires Step(s, a).Some? && Step(Step(s, a).value, b).Some?
    ensures Exec(s, [a, b, c]) == Step(Step(Step(s, a).value, b).value, c)
  {
    var s1, s2 := Step(s, a).value, Step(Step(s, a).value, b).value;
    assert [a, b, c][1..] == [b, c] && [b, c][1..] == [c] && [c][1..] == [];
    assert Exec(s1, [b, c]) == Exec(s2, [c]);
    assert Step(s2, c).Some? ==> Exec(Step(s2, c).value, []) == Step(s2, c);
  }

  /** A leftover, or a free path, can always be claimed: from every state of every run,
      an idle process that is left alone ends up serving the path. */
  lemma StaleLeftoverIsClaimed(s: State, p: Pid, wantsChown: bool)
    requires PcOf(s, p) == Idle && !PathIsLive(s)
    ensures var attempt := [Probe(p), Unlink(p), BindSocket(p)] + [Listen(p), Chmod(p, true), Chown(p, wantsChown, true)];
            var t := Exec(s, attempt);
            && t.Some? && t.value.path == Some(s.now + 2) && PcOf(t.value, p) == Serving(s.now + 2, s.now + 3)
            && t.value.thefts == s.thefts
            && (forall q :: q != p ==> PcOf(t.value, q) == PcOf(s, q))
  {
    var first := [Probe(p), Unlink(p), BindSocket(p)];
    LeftoverIsOpened(s, p);
    OpenedIsServed(Exec(s, first).value, p, wantsChown);
    ExecInTwo(s, first, [Listen(p), Chmod(p, true), Chown(p, wantsChown, true)]);
  }

  lemma LeftoverIsOpened(s: State, p: Pid)
    requires PcOf(s, p) == Idle && !PathIsLive(s)
    ensures var t := Exec(s, [Probe(p), Unlink(p), BindSocket(p)]);
            && t.Some? && t.value.path == Some(s.now + 2) && t.value.now == s.now + 3
            && PcOf(t.value, p) == Opened(s.now + 2) && t.value.thefts == s.thefts
            && (forall q :: q != p ==> PcOf(t.value, q) == PcOf(s, q))
  {
    var s1 := Step(s, Probe(p)).value;
    OthersStay(s, Probe(p));
    assert !PathIsLive(s1);
    ExecThree(s, Probe(p), Unlink(p), BindSocket(p));
  }

  lemma OpenedIsServed(s: State, p: Pid, wantsChown: bool)
    requires PcOf(s, p).Opened? && s.path == Some(PcOf(s, p).inode)
    ensures var t := Exec(s, [Listen(p), Chmod(p, true), Chown(p, wantsChown, true)]);
            && t.Some? && t.value.path == s.path && PcOf(t.value, p) == Serving(PcOf(s, p).inode, s.now)
            && t.value.thefts == s.thefts
            && (forall q :: q != p ==> PcOf(t.value, q) == PcOf(s, q))
  {
    ExecThree(s, Listen(p), Chmod(p, true), Chown(p, wantsChown, true));
  }

  // -------------------------------------------------------- why windows must not overlap

  /** Two processes probe the same leftover, or the same free path. The first one binds and
      listens; the second one then unlinks that live socket, and binds its own. Two
      listeners are live, and the first has lost the path. */
  lemma OverlapStealsALiveSocket(s: State, p: Pid, q: Pid) returns (run: seq<Action>)
    requires IsInitial(s) && p != q
    ensures Exec(s, run).Some? && forall a <- run :: a.pid == p || a.pid == q
    ensures var t := Exec(s, run).value;
            && Listens(t, p) && Listens(t, q) && Owns(t, q) && !Owns(t, p)
            && |t.thefts| == 1 && t.thefts[0].thief == q && t.thefts[0].since == {s.now + 4}
  {
    var first := [Probe(p), Probe(q), Unlink(p)];
    var second := [BindSocket(p), Listen(p), Unlink(q)];
    var third := [BindSocket(q), Listen(q), Chmod(q, true)];
    BothProbe(s, p, q);
    var s3 := Exec(s, first).value;
    SlowerOneSteals(s3, p, q);
    ExecInTwo(s, first, second);
    var s6 := Exec(s3, second).value;
    ThiefServes(s6, p, q);
    ExecInTwo(s, first + second, third);
    run := first + second + third;
  }

  lemma BothProbe(s: State, p: Pid, q: Pid)
    requires IsInitial(s) && p != q
    ensures var t := Exec(s, [Probe(p), Probe(q), Unlink(p)]);
            && t.Some? && PcOf(t.value, p).Cleared? && PcOf(t.value, q).Stale?
            && t.value.path == None && t.value.now == s.now + 3 && t.value.thefts == []
            && (forall r :: r != p && r != q ==> PcOf(t.value, r) == Idle)
  {
    ExecThree(s, Probe(p), Probe(q), Unlink(p));
  }

  lemma SlowerOneSteals(s: State, p: Pid, q: Pid)
    requires p != q && PcOf(s, p).Cleared? && PcOf(s, q).Stale? && s.path == None && s.thefts == []
    requires forall r :: r != p && r != q ==> PcOf(s, r) == Idle
    ensures var t := Exec(s, [BindSocket(p), Listen(p), Unlink(q)]);
            && t.Some? && PcOf(t.value, p) == Bound(s.now, s.now + 1) && PcOf(t.value, q).Cleared?
            && t.value.path == None && t.value.now == s.now + 3
            && t.value.thefts == [Theft(q, PcOf(s, q).probedAt, {s.now + 1})]
  {
    var s2 := Step(Step(s, BindSocket(p)).value, Listen(p)).value;
    OthersStay(s, BindSocket(p));
    OthersStay(Step(s, BindSocket(p)).value, Listen(p));
    assert Listens(s2, p) && PathIsLive(s2);
    assert forall r :: r != p ==> !Listens(s2, r);
    assert ListeningSince(s2, s.now) == {s.now + 1};
    ExecThree(s, BindSocket(p), Listen(p), Unlink(q));
  }

  lemma ThiefServes(s: State, p: Pid, q: Pid)
    requires p != q && Listens(s, p) && PcOf(s, p).inode < s.now && PcOf(s, q).Cleared? && s.path == None
    ensures var t := Exec(s, [BindSocket(q), Listen(q), Chmod(q, true)]);
            && t.Some? && t.value.thefts == s.thefts
            && Listens(t.value, p) && Owns(t.value, q) && !Owns(t.value, p)
  {
    OthersStay(s, BindSocket(q));
    ExecThree(s, BindSocket(q), Listen(q), Chmod(q, true));
  }

  /** All steps of the run are taken by these processes. */
  ghost predicate RunOf(pids: set<Pid>, run: seq<Action>) {
    forall a <- run :: a.pid in pids
  }

  /** The promise that a live socket is never stolen, for a given set of processes that may
      claim the path: it can be kept if and only if there are no two of them. */
  lemma NothingIsStolenIffAlone(s: State, pids: set<Pid>)
    requires IsInitial(s)
    ensures (forall run :: RunOf(pids, run) && Exec(s, run).Some? ==> Exec(s, run).value.thefts == [])
       <==> (forall p, q :: p in pids && q in pids ==> p == q)
  {
    if forall p, q :: p in pids && q in pids ==> p == q {
      forall run | RunOf(pids, run) && Exec(s, run).Some?
        ensures Exec(s, run).value.thefts == []
      {
        AloneIsSerial(s, run, pids);
        SerialRunsAreSingleton(s, run);
      }
    } else {
      var p, q :| p in pids && q in pids && p != q;
      var run := OverlapStealsALiveSocket(s, p, q);
      assert RunOf(pids, run);
    }
  }

  lemma {:induction false} AloneIsSerial(s: State, run: seq<Action>, pids: set<Pid>)
    requires RunOf(pids, run) && Exec(s, run).Some?
    requires forall p, q :: p in pids && q in pids ==> p == q
    requires forall p :: p !in pids ==> PcOf(s, p) == Idle
    ensures Serial(s, run)
    decreases run
  {
    if run != [] {
      assert run[0].pid in pids;
      OthersStay(s, run[0]);
      AloneIsSerial(Step(s, run[0]).value, run[1..], pids);
    }
  }

  /** To be bound is not enough to be safe: between `bind` and `listen` a socket looks like a
      leftover. Here the second process probes after the first one has bound, and still
      unlinks its socket when that is live. */
  lemma BoundIsNotYetLive(s: State, p: Pid, q: Pid)
    requires IsInitial(s) && p != q
    ensures var t := Exec(s, [Probe(p), Unlink(p), BindSocket(p)] + [Probe(q), Listen(p), Unlink(q)]);
            && t.Some? && Listens(t.value, p) && !Owns(t.value, p) && |t.value.thefts| == 1
  {
    LeftoverIsOpened(s, p);
    var s3 := Exec(s, [Probe(p), Unlink(p), BindSocket(p)]).value;
    assert !PathIsLive(s3);
    var s5 := Step(Step(s3, Probe(q)).value, Listen(p)).value;
    assert Listens(s5, p) && PathIsLive(s5);
    ExecThree(s3, Probe(q), Listen(p), Unlink(q));
    ExecInTwo(s, [Probe(p), Unlink(p), BindSocket(p)], [Probe(q), Listen(p), Unlink(q)]);
  }

  lemma {:induction false} ExecInTwo(s: State, a: seq<Action>, b: seq<Action>)
    requires Exec(s, a).Some?
    ensures Exec(s, a + b) == Exec(Exec(s, a).value, b)
    decreases a
  {
    if a == [] {
      assert a + b == b;
    } else {
      assert (a + b)[0] == a[0] && (a + b)[1..] == a[1..] + b;
      ExecInTwo(Step(s, a[0]).value, a[1..], b);
    }
  }

  // --------------------------------------------------------------- claim and bind

  predicate IsStaleSocketConnectError(kind: ErrorKind) {
    kind == NotFound || kind == ConnectionRefused
  }

  /** Which calls of one attempt the environment makes fail. */
  datatype Faults = Faults(dirs: bool, connect: bool, unlink: bool, bind: bool, listen: bool, chmod: bool, chown: bool)

  /** Nobody else takes a step. */
  predicate Alone(others: seq<seq<Action>>) {
    forall i :: 0 <= i < |others| ==> others[i] == []
  }

  /** The steps of `run` that `p` took. */
  function StepsOf(run: seq<Action>, p: Pid): seq<Action> {
    if run == [] then []
    else StepsOf(run[..|run| - 1], p) + (if run[|run| - 1].pid == p then [run[|run| - 1]] else [])
  }

  lemma TwoMore(run: seq<Action>, a: Action, b: Action)
    ensures run + [a] + [b] == run + [a, b]
  {
  }

  lemma SixSteps(run: seq<Action>, p: Pid, chown: bool, ok: bool)
    ensures run + [Probe(p), Unlink(p)] + [BindSocket(p), Listen(p)] + [Chmod(p, true), Chown(p, chown, ok)]
         == run + [Probe(p), Unlink(p), BindSocket(p), Listen(p), Chmod(p, true), Chown(p, chown, ok)]
  {
  }

  /** One process on a host, and the steps that the other processes take before each of
      its own. `run` records in which order things happened since `start`. */
  class Process {
    const me: Pid
    var path: Option<Time>
    var now: Time
    var others: map<Pid, Pc>
    var thefts: seq<Theft>
    ghost const start: State
    ghost var run: seq<Action>

    constructor (me: Pid, s: State)
      requires PcOf(s, me) == Idle
      ensures this.me == me && IsAt(Idle) && run == []
      ensures Now(Idle) == s.(procs := s.procs[me := Idle])
    {
      this.me := me;
      path, now, others, thefts := s.path, s.now, s.procs - {me}, s.thefts;
      start, run := s.(procs := s.procs[me := Idle]), [];
      assert (s.procs - {me})[me := Idle] == s.procs[me := Idle];
    }

    function Now(pc: Pc): State
      reads this
    {
      State(path, now, others[me := pc], thefts)
    }

    /** The host is what the recorded run leads to, with this process at `pc`. */
    ghost predicate IsAt(pc: Pc)
      reads this
    {
      me !in others && Exec(start, run) == Some(Now(pc))
    }

    /** The others take those of `steps` that are theirs and that they can take. */
    method Others(steps: seq<Action>, pc: Pc)
      requires IsAt(pc)
      modifies this
      ensures IsAt(pc) && (steps == [] ==> Now(pc) == old(Now(pc)) && run == old(run))
      ensures StepsOf(run, me) == StepsOf(old(run), me)
    {
      for i := 0 to |steps|
        invariant IsAt(pc) && (i == 0 ==> Now(pc) == old(Now(pc)) && run == old(run))
        invariant StepsOf(run, me) == StepsOf(old(run), me)
      {
        var next := Step(Now(pc), steps[i]);
        if steps[i].pid != me && next.Some? {
          ghost var was := Now(pc);
          var t := next.value;
          OthersStay(was, steps[i]);
          assert t.procs == (t.procs - {me})[me := pc];
          path, now, others, thefts := t.path, t.now, t.procs - {me}, t.thefts;
          Record(steps[i], was, pc);
        }
      }
    }

    ghost method Record(a: Action, was: State, pc: Pc)
      requires me !in others && Exec(start, run) == Some(was) && Step(was, a) == Some(Now(pc))
      modifies this`run
      ensures IsAt(pc) && run == old(run) + [a]
      ensures StepsOf(run, me) == StepsOf(old(run), me) + (if a.pid == me then [a] else [])
    {
      ExecInTwo(start, run, [a]);
      assert [a][1..] == [] && (run + [a])[..|run|] == run;
      run := run + [a];
    }

    /** A step of this process that leaves the path alone. */
    method Advance(a: Action, pc: Pc, next: Pc)
      requires IsAt(pc) && a.pid == me && Step(Now(pc), a) == Some(Goto(Now(pc), me, next))
      modifies this`now, this`run
      ensures IsAt(next) && run == old(run) + [a]
      ensures StepsOf(run, me) == StepsOf(old(run), me) + [a]
      ensures Now(next) == Goto(old(Now(pc)), me, next)
    {
      ghost var was := Now(pc);
      now := now + 1;
      assert was.procs[me := next] == others[me := next];
      Record(a, was, next);
    }

    method Connect(fault: bool) returns (failure: Option<ErrorKind>)
      ensures failure == if fault then Some(OtherKind)
                         else if PathIsLive(Now(Idle)) then None
                         else Some(if path.None? then NotFound else ConnectionRefused)
    {
      failure := if fault then Some(OtherKind)
                 else if PathIsLive(Now(Idle)) then None
                 else Some(if path.None? then NotFound else ConnectionRefused);
    }

    method RemoveFile(fault: bool, pc: Pc) returns (failure: Option<ErrorKind>, next: Pc)
      requires IsAt(pc) && pc.Stale?
      modifies this
      ensures IsAt(next)
      ensures run == old(run) + [if fault && old(path).Some? then UnlinkFails(me) else Unlink(me)]
      ensures StepsOf(run, me) == StepsOf(old(run), me) + [if fault && old(path).Some? then UnlinkFails(me) else Unlink(me)]
      ensures path == if next.Cleared? then None else old(path)
      ensures failure == if old(path).None? then Some(NotFound) else if fault then Some(OtherKind) else None
      ensures next == if failure == Some(OtherKind) then Failed(Io(OtherKind)) else Cleared(pc.probedAt)
    {
      ghost var was := Now(pc);
      if path.Some? && fault {
        next := Failed(Io(OtherKind));
        Advance(UnlinkFails(me), pc, next);
        return Some(OtherKind), next;
      }
      failure := if path.None? then Some(NotFound) else None;
      if PathIsLive(Now(pc)) {
        thefts := thefts + [Theft(me, pc.probedAt, ListeningSince(Now(pc), path.value))];
      }
      path, now, next := None, now + 1, Cleared(pc.probedAt);
      assert was.procs[me := next] == others[me := next];
      Record(Unlink(me), was, next);
    }

    /** The first half of `UnixListener::bind`, which gives the socket its inode ... */
    method Open(fault: bool, pc: Pc) returns (next: Pc)
      requires IsAt(pc) && pc.Cleared?
      modifies this
      ensures IsAt(next)
      ensures next == if fault || old(path).Some? then Failed(Io(OtherKind)) else Opened(old(now))
      ensures run == old(run) + [if fault then BindFails(me) else BindSocket(me)]
      ensures StepsOf(run, me) == StepsOf(old(run), me) + [if fault then BindFails(me) else BindSocket(me)]
      ensures path == if next.Opened? then Some(next.inode) else old(path)
    {
      ghost var was := Now(pc);
      if fault || path.Some? {
        next := Failed(Io(OtherKind));
        Advance(if fault then BindFails(me) else BindSocket(me), pc, next);
        return;
      }
      next := Opened(now);
      path, now := Some(now), now + 1;
      assert was.procs[me := next] == others[me := next];
      Record(BindSocket(me), was, next);
    }

    /** ... and the second half, which makes it listen. */
    method StartListening(fault: bool, pc: Pc) returns (next: Pc)
      requires IsAt(pc) && pc.Opened?
      modifies this
      ensures IsAt(next)
      ensures next == if fault then Failed(Io(OtherKind)) else Bound(pc.inode, old(now))
      ensures run == old(run) + [if fault then ListenFails(me) else Listen(me)] && path == old(path)
      ensures StepsOf(run, me) == StepsOf(old(run), me) + [if fault then ListenFails(me) else Listen(me)]
    {
      next := if fault then Failed(Io(OtherKind)) else Bound(pc.inode, now);
      Advance(if fault then ListenFails(me) else Listen(me), pc, next);
    }

    method ApplySocketPerms(fault: bool, pc: Pc) returns (next: Pc)
      requires IsAt(pc) && pc.Bound?
      modifies this
      ensures IsAt(next)
      ensures next == if path.None? then Failed(Io(NotFound)) else if fault then Failed(Io(OtherKind)) else Moded(pc.inode, pc.since)
      ensures run == old(run) + [Chmod(me, !fault)] && path == old(path)
      ensures StepsOf(run, me) == StepsOf(old(run), me) + [Chmod(me, !fault)]
    {
      next := if path.None? then Failed(Io(NotFound)) else if fault then Failed(Io(OtherKind)) else Moded(pc.inode, pc.since);
      Advance(Chmod(me, !fault), pc, next);
    }

    method ChownSocket(wanted: bool, fault: bool, pc: Pc) returns (next: Pc)
      requires IsAt(pc) && pc.Moded?
      modifies this
      ensures IsAt(next)
      ensures next == if wanted && (path.None? || fault) then Failed(Io(OtherKind)) else Serving(pc.inode, pc.since)
      ensures run == old(run) + [Chown(me, wanted, !fault)] && path == old(path)
      ensures StepsOf(run, me) == StepsOf(old(run), me) + [Chown(me, wanted, !fault)]
    {
      next := if wanted && (path.None? || fault) then Failed(Io(OtherKind)) else Serving(pc.inode, pc.since);
      Advance(Chown(me, wanted, !fault), pc, next);
    }

    /** Probe the path and unlink a leftover. However the others interleave, these are
        steps of the protocol, and no other ones. */
    method Claim(faults: Faults, others0: seq<Action>, others1: seq<Action>)
      returns (r: Option<BindError>, pc: Pc)
      requires IsAt(Idle)
      modifies this
      ensures IsAt(pc)
      ensures if r.Some? then pc == Failed(r.value) else pc.Cleared?
      ensures r.None? ==> StepsOf(run, me) == StepsOf(old(run), me) + [Probe(me), Unlink(me)]
      ensures r == Some(AlreadyRunning) ==> StepsOf(run, me) == StepsOf(old(run), me) + [Probe(me)]
      ensures others0 == [] && faults.connect ==>
                r == Some(Io(OtherKind)) && run == old(run) + [ProbeFails(me)] && path == old(path)
      ensures others0 == [] && !faults.connect && old(PathIsLive(Now(Idle))) ==>
                r == Some(AlreadyRunning) && run == old(run) + [Probe(me)] && path == old(path)
      ensures others0 == others1 == [] && !faults.connect && !old(PathIsLive(Now(Idle))) ==>
                if faults.unlink && old(path).Some?
                then r == Some(Io(OtherKind)) && run == old(run) + [Probe(me), UnlinkFails(me)] && path == old(path)
                else r == None && run == old(run) + [Probe(me), Unlink(me)] && path == None
    {
      Others(others0, Idle);
      var failure := Connect(faults.connect);
      if failure.None? {
        Advance(Probe(me), Idle, Failed(AlreadyRunning));
        return Some(AlreadyRunning), Failed(AlreadyRunning);
      }
      if !IsStaleSocketConnectError(failure.value) {
        Advance(ProbeFails(me), Idle, Failed(Io(OtherKind)));
        return Some(Io(OtherKind)), Failed(Io(OtherKind));
      }
      pc := Stale(now);
      Advance(Probe(me), Idle, pc);
      Others(others1, pc);
      ghost var unlinked := if faults.unlink && path.Some? then UnlinkFails(me) else Unlink(me);
      failure, pc := RemoveFile(faults.unlink, pc);
      TwoMore(old(StepsOf(run, me)), Probe(me), unlinked);
      TwoMore(old(run), Probe(me), unlinked);
      r := if failure.Some? && failure.value != NotFound then Some(Io(failure.value)) else None;
    }

    /** The whole attempt: claim, bind, chmod and chown. */
    method Bind(chown: bool, faults: Faults, others: seq<seq<Action>>)
      returns (r: Option<BindError>, pc: Pc)
      requires IsAt(Idle) && |others| == 6
      modifies this
      ensures IsAt(pc)
      ensures if r.Some? then pc == Failed(r.value) else pc.Serving?
      ensures r.None? ==>
                && StepsOf(run, me) == StepsOf(old(run), me)
                   + [Probe(me), Unlink(me), BindSocket(me), Listen(me), Chmod(me, true), Chown(me, chown, !faults.chown)]
                && (chown ==> !faults.chown)
      ensures r == Some(AlreadyRunning) ==> StepsOf(run, me) == StepsOf(old(run), me) + [Probe(me)]
      ensures faults.dirs ==>
                r == Some(Io(OtherKind)) && run == old(run) + [ProbeFails(me)] && path == old(path)
      ensures Alone(others) && !faults.dirs && faults.connect ==>
                r == Some(Io(OtherKind)) && run == old(run) + [ProbeFails(me)] && path == old(path)
      ensures Alone(others) && !faults.dirs && !faults.connect && old(PathIsLive(Now(Idle))) ==>
                r == Some(AlreadyRunning) && run == old(run) + [Probe(me)] && path == old(path)
      ensures Alone(others) && !old(PathIsLive(Now(Idle))) ==>
                && (r == None <==> && !faults.dirs && !faults.connect && !(faults.unlink && old(path).Some?)
                                   && !faults.bind && !faults.listen && !faults.chmod && !(chown && faults.chown))
                && (r == None ==> path == Some(pc.inode))
                && (r.Some? ==> r.value == Io(OtherKind))
    {
      if faults.dirs {
        Advance(ProbeFails(me), Idle, Failed(Io(OtherKind)));
        return Some(Io(OtherKind)), Failed(Io(OtherKind));
      }
      r, pc := Claim(faults, others[0], others[1]);
      if r.Some? {
        return;
      }
      r, pc := Serve(chown, faults, others[2..], pc);
      if r.None? {
        SixSteps(old(StepsOf(run, me)), me, chown, !faults.chown);
      }
    }

    /** What follows a claim: bind, listen, chmod and chown. */
    method Serve(chown: bool, faults: Faults, others: seq<seq<Action>>, cleared: Pc)
      returns (r: Option<BindError>, pc: Pc)
      requires IsAt(cleared) && cleared.Cleared? && |others| == 4
      modifies this
      ensures IsAt(pc)
      ensures if r.Some? then pc == Failed(r.value) && r != Some(AlreadyRunning) else pc.Serving?
      ensures r.None? ==>
                && StepsOf(run, me) == StepsOf(old(run), me)
                   + [BindSocket(me), Listen(me)] + [Chmod(me, true), Chown(me, chown, !faults.chown)]
                && (chown ==> !faults.chown)
      ensures Alone(others) && old(path).None? ==>
                && (r == None <==> !faults.bind && !faults.listen && !faults.chmod && !(chown && faults.chown))
                && (r == None ==> path == Some(pc.inode))
                && (r.Some? ==> r.value == Io(OtherKind))
    {
      Others(others[0], cleared);
      pc := Open(faults.bind, cleared);
      if pc.Opened? {
        Others(others[1], pc);
        pc := StartListening(faults.listen, pc);
        TwoMore(old(StepsOf(run, me)), BindSocket(me), Listen(me));
      }
      ghost var bound := StepsOf(run, me);
      if pc.Bound? {
        Others(others[2], pc);
        pc := ApplySocketPerms(faults.chmod, pc);
      }
      if pc.Moded? {
        Others(others[3], pc);
        pc := ChownSocket(chown, faults.chown, pc);
        TwoMore(bound, Chmod(me, true), Chown(me, chown, !faults.chown));
      }
      r := if pc.Failed? then Some(pc.error) else None;
    }
  }
}
