/** The configuration watcher of `config/watch.rs`: path filters, late attach and the
    debounced loop. */
module Watch {
  import opened Wrappers
  import opened Live

  // ------------------------------------------------------------ what is relevant

  datatype PathFilter =
    | Basename(want: string)
    | AnyName(extensions: seq<string>, extraNames: seq<string>, ignoreSuffixes: seq<string>)

  /** A watched path: whether its whole tree is watched, and the filter for its events. */
  datatype WatchSpec = WatchSpec(recursive: bool, filter: PathFilter)

  datatype EventKind = Create | Modify | Remove | AnyKind | Access | OtherKind

  /** An event path is its file name, if it has one that is a string. */
  type Path = Option<string>

  datatype Event = Event(kind: EventKind, paths: seq<Path>)

  predicate EndsWith(s: string, suffix: string) {
    |suffix| <= |s| && s[|s| - |suffix|..] == suffix
  }

  predicate IsJunkName(name: string) {
    "." <= name || EndsWith(name, "~") || EndsWith(name, ".swp") || EndsWith(name, ".tmp")
  }

  /** What follows the last dot, unless that dot starts the name. */
  function Extension(name: string): Option<string> {
    if name == [] then None
    else if name[|name| - 1] == '.' then (if |name| == 1 then None else Some(""))
    else match Extension(name[..|name| - 1])
      case None => None
      case Some(e) => Some(e + [name[|name| - 1]])
  }

  /** A name that ends in a dot and `e` has the extension `e`, unless it starts with that
      dot; and a name without a dot has none. */
  lemma {:induction false} ExtensionIsAfterLastDot(stem: string, e: string)
    requires '.' !in e
    ensures Extension(stem + "." + e) == if stem == [] then None else Some(e)
    ensures Extension(e) == None
  {
    if e == [] {
      assert stem + "." + e == stem + ".";
    } else {
      var n := |e| - 1;
      assert e == e[..n] + [e[n]];
      assert (stem + "." + e)[..|stem| + 1 + n] == stem + "." + e[..n];
      ExtensionIsAfterLastDot(stem, e[..n]);
    }
  }

  predicate IsRelevantPath(path: Path, filter: PathFilter) {
    && path.Some?
    && var name := path.value;
       && !IsJunkName(name)
       && match filter
          case Basename(want) => name == want
          case AnyName(extensions, extraNames, ignoreSuffixes) =>
            && (forall s <- ignoreSuffixes :: !EndsWith(name, s))
            && (|| name in extraNames
                || extensions == []
                || (Extension(name).Some? && Extension(name).value in extensions))
  }

  predicate IsRelevant(specs: seq<WatchSpec>, e: Event) {
    && (e.kind.Create? || e.kind.Modify? || e.kind.Remove? || e.kind.AnyKind?)
    && exists p <- e.paths :: exists s <- specs :: IsRelevantPath(p, s.filter)
  }

  // ----------------------------------------------------------------- the loop

  /** Nanoseconds of a clock that never goes back. */
  type Time = nat

  const SECOND: Time := 1_000_000_000

  /** What `attach_spec` sees of the directory that it is to watch: whether it exists,
      whether it does after an attempt to create it, and whether inotify takes it. */
  datatype Sight = Sight(isDir: bool, created: bool, watches: bool)

  datatype Message = Notified(event: Event) | WatchError | Timeout | Disconnected

  /** Everything that one iteration of the loop gets from outside, in this order: the stop
      flag, the clock when the timeout is computed, what `recv_timeout` returns, the
      directories, and the clock when a late attach is stamped, when a relevant event is
      stamped, and when the deadline is checked. */
  datatype Turn = Turn(stop: bool, asked: Time, message: Message, sights: seq<Sight>,
                       attachedAt: Time, stampedAt: Time, checkedAt: Time)

  datatype Mark = Trigger(at: Time) | Fire(at: Time)

  /** The loop's variables, with the successful watches and the history of triggers and
      reloads, newest last. */
  datatype Loop = Loop(pending: Option<Time>, attached: seq<bool>, watched: seq<nat>, history: seq<Mark>)

  /** What the loop is started with: specs, debounce, and where reloads go. */
  datatype Config = Config(specs: seq<WatchSpec>, debounce: Time, signals: bool, callback: bool)

  predicate AttachSpec(spec: WatchSpec, sight: Sight) {
    (if !spec.recursive && !sight.isDir then sight.created else sight.isDir) && sight.watches
  }

  /** Attach spec `i` now: it is not attached yet, and its directory can be watched. */
  predicate Attaches(c: Config, attached: seq<bool>, sights: seq<Sight>, i: nat)
    requires i < |c.specs| == |attached|
  {
    !attached[i] && i < |sights| && AttachSpec(c.specs[i], sights[i])
  }

  /** The specs from `from` on that attach now. */
  function Newcomers(c: Config, attached: seq<bool>, sights: seq<Sight>, from: nat): seq<nat>
    requires from <= |c.specs| == |attached|
    decreases |c.specs| - from
  {
    if from == |c.specs| then []
    else (if Attaches(c, attached, sights, from) then [from] else [])
         + Newcomers(c, attached, sights, from + 1)
  }

  function Elapsed(since: Time, now: Time): Time {
    if now < since then 0 else now - since
  }

  /** How long `recv_timeout` is asked to wait. */
  function Patience(c: Config, pending: Option<Time>, now: Time): Time {
    match pending
    case None => SECOND
    case Some(t) => if Elapsed(t, now) >= c.debounce then 0 else c.debounce - Elapsed(t, now)
  }

  /** The timeouts of all `recv_timeout` calls of a run. */
  function Waits(c: Config, l: Loop, turns: seq<Turn>): seq<Time>
    requires Shaped(c, l)
    decreases turns
  {
    if turns == [] || turns[0].stop then []
    else [Patience(c, l.pending, turns[0].asked)]
         + (if turns[0].message.Disconnected? then [] else Waits(c, Advance(c, l, turns[0]), turns[1..]))
  }

  /** There is one flag for each spec. */
  predicate Shaped(c: Config, l: Loop) {
    |l.attached| == |c.specs|
  }

  function LateAttach(c: Config, l: Loop, sights: seq<Sight>, at: Time): (r: Loop)
    requires Shaped(c, l)
    ensures Shaped(c, r)
  {
    var newcomers := Newcomers(c, l.attached, sights, 0);
    if newcomers == [] then l
    else Loop(Some(at),
              seq(|c.specs|, i requires 0 <= i < |c.specs| => l.attached[i] || Attaches(c, l.attached, sights, i)),
              l.watched + newcomers, l.history + [Trigger(at)])
  }

  predicate Due(c: Config, l: Loop, now: Time) {
    l.pending.Some? && Elapsed(l.pending.value, now) >= c.debounce
  }

  predicate Ends(t: Turn) {
    t.stop || t.message.Disconnected?
  }

  /** One iteration that does not leave the loop. */
  function Advance(c: Config, l: Loop, t: Turn): (r: Loop)
    requires Shaped(c, l)
    ensures Shaped(c, r)
  {
    match t.message
    case Notified(e) =>
      var l1 := LateAttach(c, l, t.sights, t.attachedAt);
      if IsRelevant(c.specs, e)
      then l1.(pending := Some(t.stampedAt), history := l1.history + [Trigger(t.stampedAt)])
      else l1
    case Timeout =>
      var l1 := LateAttach(c, l, t.sights, t.attachedAt);
      if Due(c, l1, t.checkedAt)
      then l1.(pending := None, history := l1.history + [Fire(t.checkedAt)])
      else l1
    case _ => l
  }

  function Run(c: Config, l: Loop, turns: seq<Turn>): (r: Loop)
    requires Shaped(c, l)
    ensures Shaped(c, r)
    decreases turns
  {
    if turns == [] || Ends(turns[0]) then l else Run(c, Advance(c, l, turns[0]), turns[1..])
  }

  /** The first attach does not schedule a reload. */
  function Start(c: Config, sights: seq<Sight>): (r: Loop)
    ensures Shaped(c, r)
  {
    LateAttach(c, Loop(None, seq(|c.specs|, i => false), [], []), sights, 0).(pending := None, history := [])
  }

  function Fires(h: seq<Mark>): seq<Time> {
    if h == [] then []
    else Fires(h[..|h| - 1]) + (if h[|h| - 1].Fire? then [h[|h| - 1].at] else [])
  }

  lemma FiresOfOneMore(h: seq<Mark>, m: Mark)
    ensures Fires(h + [m]) == if m.Fire? then Fires(h) + [m.at] else Fires(h)
  {
    assert (h + [m])[..|h|] == h;
  }

  /** What a file holds, as far as `load` can tell, at every time. */
  type Source<!T> = Time -> Option<T>

  /** The last successful load at one of these times, or the initial value. */
  function LatestLoad<T>(initial: T, source: Source<T>, loads: seq<Time>): T {
    if loads == [] then initial
    else match source(loads[|loads| - 1])
      case Some(v) => v
      case None => LatestLoad(initial, source, loads[..|loads| - 1])
  }

  /** What `Live` holds after these reloads. */
  function Loaded<T>(c: Config, initial: T, source: Source<T>, loads: seq<Time>): T {
    if c.callback then LatestLoad(initial, source, loads) else initial
  }

  // ------------------------------------------------------------ the loop, as code

  method AttachPending(c: Config, sights: seq<Sight>, attached: array<bool>)
    returns (newly: bool, watches: seq<nat>)
    requires attached.Length == |c.specs|
    modifies attached
    ensures watches == Newcomers(c, old(attached[..]), sights, 0)
    ensures newly <==> watches != []
    ensures newly <==> attached[..] != old(attached[..])
    ensures forall i :: 0 <= i < attached.Length ==>
              attached[i] == (old(attached[i]) || Attaches(c, old(attached[..]), sights, i))
  {
    ghost var was, flipped: nat := attached[..], 0;
    newly, watches := false, [];
    for i := 0 to |c.specs|
      invariant forall k :: i <= k < attached.Length ==> attached[k] == was[k]
      invariant forall k :: 0 <= k < i ==> attached[k] == (was[k] || Attaches(c, was, sights, k))
      invariant watches + Newcomers(c, was, sights, i) == Newcomers(c, was, sights, 0)
      invariant newly <==> watches != []
      invariant if newly then flipped < i && attached[flipped] && !was[flipped] else attached[..] == was
    {
      ghost var later := Newcomers(c, was, sights, i + 1);
      assert Newcomers(c, was, sights, i) == (if Attaches(c, was, sights, i) then [i] else []) + later;
      ConcatIsAssociative(watches, [i], later);
      if attached[i] {
        continue;
      }
      if i < |sights| && AttachSpec(c.specs[i], sights[i]) {
        attached[i] := true;
        newly, watches, flipped := true, watches + [i], i;
      }
    }
    assert newly ==> attached[..][flipped] != was[flipped];
  }

  /** A reload at `now`, after those at `loads`. */
  method FireReload<T>(c: Config, source: Source<T>, now: Time, live: Live<T>, ghost initial: T, ghost loads: seq<Time>)
    returns (sent: nat)
    requires live.value == Loaded(c, initial, source, loads)
    modifies live
    ensures sent == if c.signals then 1 else 0
    ensures live.value == Loaded(c, initial, source, loads + [now])
  {
    assert (loads + [now])[..|loads|] == loads;
    sent := if c.signals then 1 else 0;
    if c.callback {
      var _ := TryReload(source(now), live);
    }
  }

  /** The loop, on the turns that it is given until it is stopped; the callback, if there is
      one, is `try_reload`. */
  method WatchLoop<T>(c: Config, first: seq<Sight>, turns: seq<Turn>, source: Source<T>, live: Live<T>)
    returns (end: Loop, signals: nat, timeouts: seq<Time>)
    modifies live
    ensures timeouts == Waits(c, Start(c, first), turns)
    ensures end == Run(c, Start(c, first), turns)
    ensures signals == if c.signals then |Fires(end.history)| else 0
    ensures live.value == Loaded(c, old(live.value), source, Fires(end.history))
  {
    var attached, watched := FirstAttach(c, first);
    var pending: Option<Time> := None;
    var history: seq<Mark> := [];
    signals, timeouts := 0, [];
    ghost var waits := Waits(c, Start(c, first), turns);
    var i := 0;
    while i < |turns|
      invariant i <= |turns| && attached.Length == |c.specs|
      invariant Run(c, Loop(pending, attached[..], watched, history), turns[i..]) == Run(c, Start(c, first), turns)
      invariant timeouts + Waits(c, Loop(pending, attached[..], watched, history), turns[i..]) == waits
      invariant signals == if c.signals then |Fires(history)| else 0
      invariant live.value == Loaded(c, old(live.value), source, Fires(history))
    {
      var t := turns[i];
      if t.stop {
        break;
      }
      ghost var l := Loop(pending, attached[..], watched, history);
      WaitsOneMore(c, l, turns[i..], timeouts);
      var timeout := NextTimeout(c, pending, t.asked);
      timeouts := timeouts + [timeout];
      if t.message.Disconnected? {
        break;
      }
      var sent;
      pending, watched, history, sent := Receive(c, t, attached, pending, watched, history, source, live, old(live.value));
      signals := signals + sent;
      i := i + 1;
    }
    end := Loop(pending, attached[..], watched, history);
  }

  lemma WaitsOneMore(c: Config, l: Loop, turns: seq<Turn>, earlier: seq<Time>)
    requires Shaped(c, l) && turns != [] && !turns[0].stop
    ensures earlier + Waits(c, l, turns)
         == earlier + [Patience(c, l.pending, turns[0].asked)]
            + if turns[0].message.Disconnected? then [] else Waits(c, Advance(c, l, turns[0]), turns[1..])
  {
  }

  /** How long to wait for an event: until the deadline, or for a second if there is none. */
  method NextTimeout(c: Config, pending: Option<Time>, now: Time) returns (timeout: Time)
    ensures pending.None? ==> timeout == 1_000_000_000
    ensures pending.Some? && pending.value <= now ==>
              if pending.value + c.debounce <= now then timeout == 0 else now + timeout == pending.value + c.debounce
    ensures timeout == Patience(c, pending, now)
  {
    if pending.None? {
      return SECOND;
    }
    var elapsed := Elapsed(pending.value, now);
    timeout := if elapsed >= c.debounce then 0 else c.debounce - elapsed;
  }

  /** The attempt to attach before the loop. */
  method FirstAttach(c: Config, first: seq<Sight>) returns (attached: array<bool>, watched: seq<nat>)
    ensures fresh(attached) && attached.Length == |c.specs|
    ensures Loop(None, attached[..], watched, []) == Start(c, first)
  {
    attached := new bool[|c.specs|](i => false);
    assert attached[..] == seq(|c.specs|, i => false);
    var newly;
    newly, watched := AttachPending(c, first, attached);
    if watched == [] {
      NoNewcomers(c, seq(|c.specs|, i => false), first, 0);
    }
  }

  /** The check of the deadline. */
  method ReloadIfDue<T>(c: Config, now: Time, pending: Option<Time>, history: seq<Mark>,
                        source: Source<T>, live: Live<T>, ghost initial: T)
    returns (pending': Option<Time>, history': seq<Mark>, sent: nat)
    requires live.value == Loaded(c, initial, source, Fires(history))
    modifies live
    ensures (pending', history') == if pending.Some? && Elapsed(pending.value, now) >= c.debounce
                                    then (None, history + [Fire(now)]) else (pending, history)
    ensures live.value == Loaded(c, initial, source, Fires(history'))
    ensures sent == if c.signals then |Fires(history')| - |Fires(history)| else 0
  {
    pending', history', sent := pending, history, 0;
    if pending.Some? && Elapsed(pending.value, now) >= c.debounce {
      FiresOfOneMore(history, Fire(now));
      pending', history' := None, history + [Fire(now)];
      sent := FireReload(c, source, now, live, initial, Fires(history));
    }
  }

  /** What the loop does with an event. */
  method OnNotified(c: Config, t: Turn, attached: array<bool>, pending: Option<Time>, watched: seq<nat>, history: seq<Mark>)
    returns (pending': Option<Time>, watched': seq<nat>, history': seq<Mark>)
    requires attached.Length == |c.specs| && t.message.Notified?
    modifies attached
    ensures Loop(pending', attached[..], watched', history')
         == Advance(c, Loop(pending, old(attached[..]), watched, history), t)
    ensures Fires(history') == Fires(history)
  {
    pending', watched', history' := Reattach(c, t, attached, pending, watched, history);
    if IsRelevant(c.specs, t.message.event) {
      FiresOfOneMore(history', Trigger(t.stampedAt));
      pending', history' := Some(t.stampedAt), history' + [Trigger(t.stampedAt)];
    }
  }

  /** What it does when there is none. */
  method OnTimeout<T>(c: Config, t: Turn, attached: array<bool>, pending: Option<Time>, watched: seq<nat>, history: seq<Mark>,
                      source: Source<T>, live: Live<T>, ghost initial: T)
    returns (pending': Option<Time>, watched': seq<nat>, history': seq<Mark>, sent: nat)
    requires attached.Length == |c.specs| && t.message.Timeout?
    requires live.value == Loaded(c, initial, source, Fires(history))
    modifies attached, live
    ensures Loop(pending', attached[..], watched', history')
         == Advance(c, Loop(pending, old(attached[..]), watched, history), t)
    ensures live.value == Loaded(c, initial, source, Fires(history'))
    ensures sent == if c.signals then |Fires(history')| - |Fires(history)| else 0
  {
    pending', watched', history' := Reattach(c, t, attached, pending, watched, history);
    pending', history', sent := ReloadIfDue(c, t.checkedAt, pending', history', source, live, initial);
  }

  /** What the loop does with a message. */
  method Receive<T>(c: Config, t: Turn, attached: array<bool>, pending: Option<Time>, watched: seq<nat>, history: seq<Mark>,
                    source: Source<T>, live: Live<T>, ghost initial: T)
    returns (pending': Option<Time>, watched': seq<nat>, history': seq<Mark>, sent: nat)
    requires attached.Length == |c.specs| && !t.message.Disconnected?
    requires live.value == Loaded(c, initial, source, Fires(history))
    modifies attached, live
    ensures Loop(pending', attached[..], watched', history')
         == Advance(c, Loop(pending, old(attached[..]), watched, history), t)
    ensures live.value == Loaded(c, initial, source, Fires(history'))
    ensures sent == if c.signals then |Fires(history')| - |Fires(history)| else 0
  {
    sent := 0;
    match t.message {
      case Notified(_) =>
        pending', watched', history' := OnNotified(c, t, attached, pending, watched, history);
      case WatchError =>
        pending', watched', history' := pending, watched, history;
      case Timeout =>
        pending', watched', history', sent := OnTimeout(c, t, attached, pending, watched, history, source, live, initial);
    }
  }

  /** The attempt to attach late that both arms of the loop start with. */
  method Reattach(c: Config, t: Turn, attached: array<bool>, pending: Option<Time>, watched: seq<nat>, history: seq<Mark>)
    returns (pending': Option<Time>, watched': seq<nat>, history': seq<Mark>)
    requires attached.Length == |c.specs|
    modifies attached
    ensures Loop(pending', attached[..], watched', history')
         == LateAttach(c, Loop(pending, old(attached[..]), watched, history), t.sights, t.attachedAt)
    ensures Fires(history') == Fires(history)
  {
    var newly, watches := AttachPending(c, t.sights, attached);
    pending', watched', history' := pending, watched + watches, history;
    if newly {
      FiresOfOneMore(history, Trigger(t.attachedAt));
      pending', history' := Some(t.attachedAt), history + [Trigger(t.attachedAt)];
    } else {
      NoNewcomers(c, old(attached[..]), t.sights, 0);
      assert attached[..] == old(attached[..]);
    }
  }

  lemma {:induction false} NoNewcomers(c: Config, attached: seq<bool>, sights: seq<Sight>, from: nat)
    requires from <= |c.specs| == |attached|
    ensures Newcomers(c, attached, sights, from) == [] <==>
            forall i :: from <= i < |c.specs| ==> !Attaches(c, attached, sights, i)
    decreases |c.specs| - from
  {
    if from < |c.specs| {
      NoNewcomers(c, attached, sights, from + 1);
    }
  }
}
