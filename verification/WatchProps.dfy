/** What the watcher of `config/watch.rs` guarantees over whole runs. */
module WatchProps {
  import opened Wrappers
  import opened Watch

  // --------------------------------------------- no reload is lost, none is spurious

  /** The clock of a run that starts at `now` does not go back. */
  predicate Ticks(now: Time, turns: seq<Turn>)
    decreases turns
  {
    turns != [] ==>
      && now <= turns[0].asked <= turns[0].attachedAt <= turns[0].stampedAt <= turns[0].checkedAt
      && Ticks(turns[0].checkedAt, turns[1..])
  }

  /** `pending` is set exactly when a trigger is newer than the last reload, and then it
      is the time of the newest trigger. */
  ghost predicate PendingIsExact(l: Loop) {
    l.pending == if l.history != [] && l.history[|l.history| - 1].Trigger?
                 then Some(l.history[|l.history| - 1].at) else None
  }

  /** Every reload directly follows a trigger that is at least `debounce` old, and
      the history is in order of time. */
  ghost predicate Answers(debounce: Time, h: seq<Mark>)
    decreases h
  {
    h != [] ==>
      var earlier, last := h[..|h| - 1], h[|h| - 1];
      && Answers(debounce, earlier)
      && (earlier != [] ==> earlier[|earlier| - 1].at <= last.at)
      && (last.Fire? ==> && earlier != [] && earlier[|earlier| - 1].Trigger?
                         && earlier[|earlier| - 1].at + debounce <= last.at)
  }

  lemma AnswersOneMore(debounce: Time, h: seq<Mark>, m: Mark)
    requires Answers(debounce, h)
    requires h != [] ==> h[|h| - 1].at <= m.at
    requires m.Fire? ==> h != [] && h[|h| - 1].Trigger? && h[|h| - 1].at + debounce <= m.at
    ensures Answers(debounce, h + [m])
  {
    assert (h + [m])[..|h|] == h;
  }

  ghost predicate Sound(c: Config, l: Loop, now: Time) {
    && Shaped(c, l) && PendingIsExact(l) && Answers(c.debounce, l.history)
    && (l.history != [] ==> l.history[|l.history| - 1].at <= now)
  }

  lemma TriggerKeepsSound(c: Config, l: Loop, now: Time, at: Time, r: Loop)
    requires Sound(c, l, now) && now <= at && Shaped(c, r)
    requires r.pending == Some(at) && r.history == l.history + [Trigger(at)]
    ensures Sound(c, r, at)
  {
    AnswersOneMore(c.debounce, l.history, Trigger(at));
  }

  lemma FireKeepsSound(c: Config, l: Loop, now: Time, at: Time, r: Loop)
    requires Sound(c, l, now) && now <= at && Shaped(c, r) && Due(c, l, at)
    requires r.pending == None && r.history == l.history + [Fire(at)]
    ensures Sound(c, r, at)
  {
    AnswersOneMore(c.debounce, l.history, Fire(at));
  }

  lemma LateAttachKeepsSound(c: Config, l: Loop, sights: seq<Sight>, now: Time, at: Time)
    requires Sound(c, l, now) && now <= at
    ensures Sound(c, LateAttach(c, l, sights, at), at)
  {
    var r := LateAttach(c, l, sights, at);
    if Newcomers(c, l.attached, sights, 0) != [] {
      TriggerKeepsSound(c, l, now, at, r);
    }
  }

  lemma AdvanceKeepsSound(c: Config, l: Loop, t: Turn, now: Time)
    requires Sound(c, l, now)
    requires now <= t.asked <= t.attachedAt <= t.stampedAt <= t.checkedAt
    ensures Sound(c, Advance(c, l, t), t.checkedAt)
  {
    var l1, r := LateAttach(c, l, t.sights, t.attachedAt), Advance(c, l, t);
    LateAttachKeepsSound(c, l, t.sights, now, t.attachedAt);
    if t.message.Notified? && IsRelevant(c.specs, t.message.event) {
      TriggerKeepsSound(c, l1, t.attachedAt, t.stampedAt, r);
    } else if t.message.Timeout? && Due(c, l1, t.checkedAt) {
      FireKeepsSound(c, l1, t.attachedAt, t.checkedAt, r);
    }
  }

  /** The last clock reading of a run. */
  function LastTick(now: Time, turns: seq<Turn>): Time {
    if turns == [] then now else turns[|turns| - 1].checkedAt
  }

  lemma {:induction false} TicksForward(now: Time, turns: seq<Turn>)
    requires Ticks(now, turns)
    ensures now <= LastTick(now, turns)
    decreases turns
  {
    if turns != [] {
      TicksForward(turns[0].checkedAt, turns[1..]);
    }
  }

  lemma {:induction false} RunKeepsSound(c: Config, l: Loop, turns: seq<Turn>, now: Time)
    requires Sound(c, l, now) && Ticks(now, turns)
    ensures Sound(c, Run(c, l, turns), LastTick(now, turns))
    decreases turns
  {
    TicksForward(now, turns);
    if turns != [] && !Ends(turns[0]) {
      AdvanceKeepsSound(c, l, turns[0], now);
      RunKeepsSound(c, Advance(c, l, turns[0]), turns[1..], turns[0].checkedAt);
    }
  }

  lemma StartIsSound(c: Config, sights: seq<Sight>, now: Time)
    ensures Sound(c, Start(c, sights), now)
  {
  }

  // ------------------------------------------------------- what asks for a reload

  /** The arms of the loop that try to attach. */
  predicate Looks(t: Turn) {
    t.message.Notified? || t.message.Timeout?
  }

  /** The directory of spec `i` can be watched now. */
  predicate Attachable(c: Config, sights: seq<Sight>, i: nat) {
    i < |c.specs| && i < |sights| && AttachSpec(c.specs[i], sights[i])
  }

  /** Some spec that is not attached can be attached now. */
  predicate Joins(c: Config, attached: seq<bool>, sights: seq<Sight>) {
    exists i :: 0 <= i < |attached| && !attached[i] && Attachable(c, sights, i)
  }

  function Joined(c: Config, attached: seq<bool>, sights: seq<Sight>): seq<bool> {
    seq(|attached|, i requires 0 <= i < |attached| => attached[i] || Attachable(c, sights, i))
  }

  function AttachedNext(c: Config, attached: seq<bool>, t: Turn): seq<bool> {
    if Looks(t) then Joined(c, attached, t.sights) else attached
  }

  /** An event of this turn asks for a reload. */
  predicate Hears(c: Config, t: Turn) {
    t.message.Notified? && IsRelevant(c.specs, t.message.event)
  }

  /** When one turn asks for a reload. */
  function Asked(c: Config, attached: seq<bool>, t: Turn): seq<Time> {
    (if Looks(t) && Joins(c, attached, t.sights) then [t.attachedAt] else [])
    + (if Hears(c, t) then [t.stampedAt] else [])
  }

  /** When the turns of a run ask for a reload: whenever a spec attaches late and whenever a
      relevant event is heard, whatever the loop makes of it. */
  function Causes(c: Config, attached: seq<bool>, turns: seq<Turn>): seq<Time>
    decreases turns
  {
    if turns == [] || Ends(turns[0]) then []
    else Asked(c, attached, turns[0]) + Causes(c, AttachedNext(c, attached, turns[0]), turns[1..])
  }

  /** The triggers that the loop takes note of. */
  function TriggerTimes(h: seq<Mark>): seq<Time> {
    if h == [] then []
    else TriggerTimes(h[..|h| - 1]) + (if h[|h| - 1].Trigger? then [h[|h| - 1].at] else [])
  }

  lemma TriggersOfOneMore(h: seq<Mark>, m: Mark)
    ensures TriggerTimes(h + [m]) == if m.Trigger? then TriggerTimes(h) + [m.at] else TriggerTimes(h)
  {
    assert (h + [m])[..|h|] == h;
  }

  lemma JoinsIsNewcomers(c: Config, attached: seq<bool>, sights: seq<Sight>)
    requires |attached| == |c.specs|
    ensures Joins(c, attached, sights) <==> Newcomers(c, attached, sights, 0) != []
    ensures !Joins(c, attached, sights) ==> Joined(c, attached, sights) == attached
  {
    NoNewcomers(c, attached, sights, 0);
    assert forall i: nat :: i < |attached| ==> (Attaches(c, attached, sights, i) <==> !attached[i] && Attachable(c, sights, i));
  }

  /** What one late attach does. */
  lemma LateAttachMarks(c: Config, l: Loop, sights: seq<Sight>, at: Time)
    requires Shaped(c, l)
    ensures var r, joins := LateAttach(c, l, sights, at), Joins(c, l.attached, sights);
            && r.attached == Joined(c, l.attached, sights)
            && r.pending == (if joins then Some(at) else l.pending)
            && Fires(r.history) == Fires(l.history)
            && TriggerTimes(r.history) == TriggerTimes(l.history) + (if joins then [at] else [])
            && |l.watched| + (if joins then 1 else 0) <= |r.watched|
  {
    JoinsIsNewcomers(c, l.attached, sights);
    TriggersOfOneMore(l.history, Trigger(at));
    FiresOfOneMore(l.history, Trigger(at));
    var r := LateAttach(c, l, sights, at);
    assert Joins(c, l.attached, sights) ==> r.attached == Joined(c, l.attached, sights);
  }

  /** The iteration finds a reload due, and makes it. */
  ghost predicate TurnReloads(c: Config, l: Loop, t: Turn) {
    Shaped(c, l) && t.message.Timeout? && Due(c, LateAttach(c, l, t.sights, t.attachedAt), t.checkedAt)
  }

  /** What one iteration from `l` to `r` does. */
  ghost predicate Moves(c: Config, l: Loop, t: Turn, r: Loop) {
    && r.attached == AttachedNext(c, l.attached, t)
    && TriggerTimes(r.history) == TriggerTimes(l.history) + Asked(c, l.attached, t)
    && Fires(r.history) == (if TurnReloads(c, l, t) then Fires(l.history) + [t.checkedAt] else Fires(l.history))
    && r.pending == (if TurnReloads(c, l, t) then None
                     else if Hears(c, t) then Some(t.stampedAt)
                     else if Looks(t) && Joins(c, l.attached, t.sights) then Some(t.attachedAt)
                     else l.pending)
    && |l.watched| + (if Looks(t) && Joins(c, l.attached, t.sights) then 1 else 0) <= |r.watched|
  }

  lemma NotifiedMoves(c: Config, l: Loop, t: Turn)
    requires Shaped(c, l) && t.message.Notified?
    ensures Moves(c, l, t, Advance(c, l, t))
  {
    var l1 := LateAttach(c, l, t.sights, t.attachedAt);
    LateAttachMarks(c, l, t.sights, t.attachedAt);
    var base, x := TriggerTimes(l.history), if Joins(c, l.attached, t.sights) then [t.attachedAt] else [];
    var y := if Hears(c, t) then [t.stampedAt] else [];
    assert TriggerTimes(l1.history) == base + x && Asked(c, l.attached, t) == x + y;
    assert (base + x) + y == base + (x + y);
    if Hears(c, t) {
      TriggersOfOneMore(l1.history, Trigger(t.stampedAt));
      FiresOfOneMore(l1.history, Trigger(t.stampedAt));
    }
  }

  lemma TimeoutMoves(c: Config, l: Loop, t: Turn)
    requires Shaped(c, l) && t.message.Timeout?
    ensures Moves(c, l, t, Advance(c, l, t))
  {
    var l1 := LateAttach(c, l, t.sights, t.attachedAt);
    LateAttachMarks(c, l, t.sights, t.attachedAt);
    assert Asked(c, l.attached, t) == if Joins(c, l.attached, t.sights) then [t.attachedAt] else [];
    assert TriggerTimes(l1.history) == TriggerTimes(l.history) + Asked(c, l.attached, t);
    if Due(c, l1, t.checkedAt) {
      TriggersOfOneMore(l1.history, Fire(t.checkedAt));
      FiresOfOneMore(l1.history, Fire(t.checkedAt));
    }
  }

  lemma AdvanceMoves(c: Config, l: Loop, t: Turn)
    requires Shaped(c, l)
    ensures Moves(c, l, t, Advance(c, l, t))
  {
    if t.message.Notified? {
      NotifiedMoves(c, l, t);
    } else if t.message.Timeout? {
      TimeoutMoves(c, l, t);
    } else {
      assert Advance(c, l, t) == l && Asked(c, l.attached, t) == [];
    }
  }

  // -------------------------------------------------------------------- fire rate

  /** These times are `d` apart, and none is after `until`. */
  ghost predicate Apart(ts: seq<Time>, d: Time, until: Time) {
    && (forall j, k :: 0 <= j < k < |ts| ==> ts[j] + d <= ts[k])
    && (ts != [] ==> ts[|ts| - 1] <= until)
  }

  lemma ApartOneMore(ts: seq<Time>, d: Time, until: Time, at: Time)
    requires Apart(ts, d, until) && until + d <= at
    ensures Apart(ts + [at], d, at)
  {
  }

  /** Reloads are at least `debounce` apart. */
  lemma {:induction false} FiresAreApart(debounce: Time, h: seq<Mark>)
    requires Answers(debounce, h) && h != []
    ensures Apart(Fires(h), debounce, h[|h| - 1].at)
  {
    var g, last := h[..|h| - 1], h[|h| - 1];
    if last.Trigger? {
      if g != [] {
        FiresAreApart(debounce, g);
      }
    } else {
      var f, trigger := g[..|g| - 1], g[|g| - 1];
      LastTwoMarks(debounce, h, f);
      if f == [] {
        ApartOneMore([], debounce, trigger.at, last.at);
      } else {
        FiresAreApart(debounce, f);
        ApartOneMore(Fires(f), debounce, trigger.at, last.at);
      }
    }
  }

  /** There are no more reloads than triggers. */
  lemma {:induction false} FiresAreTriggered(debounce: Time, h: seq<Mark>)
    requires Answers(debounce, h)
    ensures |Fires(h)| <= |TriggerTimes(h)|
  {
    if h != [] {
      var g := h[..|h| - 1];
      if h[|h| - 1].Trigger? {
        FiresAreTriggered(debounce, g);
      } else {
        var f := g[..|g| - 1];
        LastTwoMarks(debounce, h, f);
        FiresAreTriggered(debounce, f);
      }
    }
  }

  /** A history that ends in a reload ends in a trigger and that reload. */
  lemma LastTwoMarks(debounce: Time, h: seq<Mark>, f: seq<Mark>)
    requires Answers(debounce, h) && h != [] && h[|h| - 1].Fire?
    requires |h| >= 2 && f == h[..|h| - 1][..|h| - 2]
    ensures Answers(debounce, f)
    ensures h[|h| - 2].Trigger? && h[|h| - 2].at + debounce <= h[|h| - 1].at
    ensures f != [] ==> f[|f| - 1].at <= h[|h| - 2].at
    ensures Fires(h) == Fires(f) + [h[|h| - 1].at] && |TriggerTimes(h)| == |TriggerTimes(f)| + 1
  {
    var g := h[..|h| - 1];
    assert g == f + [h[|h| - 2]] && h == g + [h[|h| - 1]];
    FiresOfOneMore(f, h[|h| - 2]);
    FiresOfOneMore(g, h[|h| - 1]);
    TriggersOfOneMore(f, h[|h| - 2]);
    TriggersOfOneMore(g, h[|h| - 1]);
  }

  lemma OneMore(n: nat, d: nat)
    ensures (n + 1) * d == n * d + d && 0 * d == 0
  {
  }

  /** All of them together take no longer than the history. */
  lemma {:induction false} FiresTakeTime(debounce: Time, h: seq<Mark>)
    requires Answers(debounce, h) && h != []
    ensures h[0].at + |Fires(h)| * debounce <= h[|h| - 1].at
  {
    var g := h[..|h| - 1];
    if h[|h| - 1].Trigger? {
      if g != [] {
        FiresTakeTime(debounce, g);
      }
    } else {
      var f := g[..|g| - 1];
      LastTwoMarks(debounce, h, f);
      OneMore(|Fires(f)|, debounce);
      if f != [] {
        FiresTakeTime(debounce, f);
      }
    }
  }

  /** Events of a run that ask for a reload. */
  function RelevantEvents(c: Config, turns: seq<Turn>): nat
    decreases turns
  {
    if turns == [] || Ends(turns[0]) then 0
    else (if Hears(c, turns[0]) then 1 else 0)
         + RelevantEvents(c, turns[1..])
  }

  lemma {:induction false} TriggersAreCaused(c: Config, l: Loop, turns: seq<Turn>)
    requires Shaped(c, l)
    ensures var r := Run(c, l, turns);
            && |l.watched| <= |r.watched|
            && |TriggerTimes(r.history)| - |TriggerTimes(l.history)| <= RelevantEvents(c, turns) + |r.watched| - |l.watched|
    decreases turns
  {
    if turns != [] && !Ends(turns[0]) {
      AdvanceMoves(c, l, turns[0]);
      TriggersAreCaused(c, Advance(c, l, turns[0]), turns[1..]);
    }
  }

  /** The rate of reloads in every run: consecutive ones are `debounce` apart, all of them
      together take no longer than the run, and each is paid for by a relevant event or by
      a spec that attached after the start. */
  lemma FireRate(c: Config, first: seq<Sight>, turns: seq<Turn>, now: Time)
    requires Ticks(now, turns) && turns != []
    ensures var start, r := Start(c, first), Run(c, Start(c, first), turns);
            var fires := Fires(r.history);
            && (forall j, k :: 0 <= j < k < |fires| ==> fires[j] + c.debounce <= fires[k])
            && now + |fires| * c.debounce <= turns[|turns| - 1].checkedAt
            && |fires| <= RelevantEvents(c, turns) + |r.watched| - |start.watched|
  {
    StartIsSound(c, first, now);
    var start := Start(c, first);
    var r := Run(c, start, turns);
    RunKeepsSound(c, start, turns, now);
    FiresAreTriggered(c.debounce, r.history);
    if r.history != [] {
      FiresAreApart(c.debounce, r.history);
      FiresTakeTime(c.debounce, r.history);
    }
    TriggersAreCaused(c, start, turns);
    TicksForward(now, turns);
    FirstMarkIsLater(c, start, turns, now);
  }

  lemma {:induction false} FirstMarkIsLater(c: Config, l: Loop, turns: seq<Turn>, now: Time)
    requires Shaped(c, l) && Ticks(now, turns)
    requires l.history != [] ==> now <= l.history[0].at
    ensures var h := Run(c, l, turns).history; h != [] ==> now <= h[0].at
    decreases turns
  {
    if turns != [] && !Ends(turns[0]) {
      var rest := turns[1..];
      TicksEarlier(now, turns[0].checkedAt, rest);
      FirstMarkIsLater(c, Advance(c, l, turns[0]), rest, now);
    }
  }

  lemma TicksEarlier(now: Time, later: Time, turns: seq<Turn>)
    requires now <= later && Ticks(later, turns)
    ensures Ticks(now, turns)
  {
  }

  ghost predicate IsJunk(e: Event) {
    forall p <- e.paths :: p.None? || IsJunkName(p.value)
  }

  /** A run that only hears of junk names, and attaches nothing late, never reloads. */
  lemma JunkNeverReloads(c: Config, first: seq<Sight>, turns: seq<Turn>, now: Time)
    requires Ticks(now, turns)
    requires forall t <- turns :: t.message.Notified? ==> IsJunk(t.message.event)
    requires Run(c, Start(c, first), turns).watched == Start(c, first).watched
    ensures Fires(Run(c, Start(c, first), turns).history) == []
  {
    StartIsSound(c, first, now);
    RunKeepsSound(c, Start(c, first), turns, now);
    FiresAreTriggered(c.debounce, Run(c, Start(c, first), turns).history);
    TriggersAreCaused(c, Start(c, first), turns);
    JunkIsIrrelevant(c, turns);
  }

  lemma {:induction false} JunkIsIrrelevant(c: Config, turns: seq<Turn>)
    requires forall t <- turns :: t.message.Notified? ==> IsJunk(t.message.event)
    ensures RelevantEvents(c, turns) == 0
    decreases turns
  {
    if turns != [] && !Ends(turns[0]) {
      assert turns[0] in turns;
      JunkIsIrrelevant(c, turns[1..]);
    }
  }

  // ------------------------------------------------------------------ late attach

  /** A spec is attached exactly when it was watched, and it was watched at most once. */
  ghost predicate WatchedOnce(c: Config, l: Loop) {
    && Shaped(c, l)
    && (forall i :: 0 <= i < |c.specs| ==> (l.attached[i] <==> i in l.watched))
    && (forall w <- l.watched :: w < |c.specs|)
    && (forall j, k :: 0 <= j < k < |l.watched| ==> l.watched[j] != l.watched[k])
  }

  lemma {:induction false} NewcomersAre(c: Config, attached: seq<bool>, sights: seq<Sight>, from: nat)
    requires from <= |c.specs| == |attached|
    ensures var n := Newcomers(c, attached, sights, from);
            && (forall i: nat :: i in n <==> from <= i < |c.specs| && Attaches(c, attached, sights, i))
            && (forall j, k :: 0 <= j < k < |n| ==> n[j] < n[k])
    decreases |c.specs| - from
  {
    if from < |c.specs| {
      NewcomersAre(c, attached, sights, from + 1);
      var later := Newcomers(c, attached, sights, from + 1);
      forall j | 0 <= j < |later|
        ensures later[j] > from
      {
        assert later[j] in later;
      }
    }
  }

  lemma LateAttachKeepsWatchedOnce(c: Config, l: Loop, sights: seq<Sight>, at: Time)
    requires WatchedOnce(c, l)
    ensures var r := LateAttach(c, l, sights, at);
            && WatchedOnce(c, r) && l.watched <= r.watched
            && (forall i :: 0 <= i < |c.specs| ==> (r.attached[i] <==> l.attached[i] || Attaches(c, l.attached, sights, i)))
            && (r != l <==> r.attached != l.attached)
  {
    var n := Newcomers(c, l.attached, sights, 0);
    NewcomersAre(c, l.attached, sights, 0);
    NoNewcomers(c, l.attached, sights, 0);
    var r := LateAttach(c, l, sights, at);
    if n != [] {
      assert n[0] in n && r.attached[n[0]] && !l.attached[n[0]];
      DistinctTogether(l.watched, n);
    }
  }

  lemma DistinctTogether(a: seq<nat>, b: seq<nat>)
    requires forall j, k :: 0 <= j < k < |a| ==> a[j] != a[k]
    requires forall j, k :: 0 <= j < k < |b| ==> b[j] < b[k]
    requires forall x <- b :: x !in a
    ensures forall j, k :: 0 <= j < k < |a + b| ==> (a + b)[j] != (a + b)[k]
    ensures forall x :: x in a + b <==> x in a || x in b
  {
    forall j, k | 0 <= j < |a| <= k < |a + b|
      ensures (a + b)[j] != (a + b)[k]
    {
      assert (a + b)[j] in a && (a + b)[k] == b[k - |a|] && b[k - |a|] in b;
    }
  }

  /** Over every run, what is attached stays so, and no spec is watched twice. */
  lemma {:induction false} EachSpecIsWatchedOnce(c: Config, l: Loop, turns: seq<Turn>)
    requires WatchedOnce(c, l)
    ensures var r := Run(c, l, turns);
            WatchedOnce(c, r) && l.watched <= r.watched
    decreases turns
  {
    if turns != [] && !Ends(turns[0]) {
      LateAttachKeepsWatchedOnce(c, l, turns[0].sights, turns[0].attachedAt);
      EachSpecIsWatchedOnce(c, Advance(c, l, turns[0]), turns[1..]);
    }
  }

  /** One iteration attaches exactly the specs that can be, unless `recv_timeout` failed. */
  lemma AttachedAfter(c: Config, l: Loop, t: Turn, i: nat)
    requires Shaped(c, l) && i < |c.specs|
    ensures Advance(c, l, t).attached[i] <==>
              l.attached[i] || ((t.message.Notified? || t.message.Timeout?) && Attaches(c, l.attached, t.sights, i))
  {
    NoNewcomers(c, l.attached, t.sights, 0);
  }

  /** Two turns that differ only in the clock, the paths of the event, and what they see of
      the other directories. */
  ghost predicate AlikeFor(i: nat, t: Turn, u: Turn) {
    && t.stop == u.stop
    && (t.message == u.message || (t.message.Notified? && u.message.Notified?))
    && i < |t.sights| && i < |u.sights| && t.sights[i] == u.sights[i]
  }

  /** Whether and when a spec is attached depends on its own directory alone: however the
      other specs fare, it is attached in the same iterations. */
  lemma {:induction false} SpecsAreIsolated(c: Config, l: Loop, m: Loop, ts: seq<Turn>, us: seq<Turn>, i: nat)
    requires Shaped(c, l) && Shaped(c, m) && i < |c.specs| && l.attached[i] == m.attached[i]
    requires |ts| == |us| && forall k :: 0 <= k < |ts| ==> AlikeFor(i, ts[k], us[k])
    ensures Run(c, l, ts).attached[i] == Run(c, m, us).attached[i]
    decreases ts
  {
    if ts != [] {
      var t, u := ts[0], us[0];
      assert AlikeFor(i, t, u);
      if !Ends(t) {
        AttachedAfter(c, l, t, i);
        AttachedAfter(c, m, u, i);
        SpecsAreIsolated(c, Advance(c, l, t), Advance(c, m, u), ts[1..], us[1..], i);
      }
    }
  }
}
