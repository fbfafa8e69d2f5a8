/** When the watcher of `config/watch.rs` reloads: what asks for a reload, how long that
    may take, and what it brings. */
module ReloadProps {
  import opened Wrappers
  import opened Watch
  import opened WatchProps

  // --------------------------------------------- no reload is lost, none is spurious

  /** The specs that are attached before the loop starts. */
  function AttachedAtStart(c: Config, first: seq<Sight>): seq<bool> {
    seq(|c.specs|, i requires 0 <= i < |c.specs| => Attachable(c, first, i))
  }

  lemma StartAttaches(c: Config, first: seq<Sight>)
    ensures Start(c, first).attached == AttachedAtStart(c, first)
  {
    var none := seq(|c.specs|, i => false);
    LateAttachMarks(c, Loop(None, none, [], []), first, 0);
  }

  lemma CausesOneMore(c: Config, l: Loop, l1: Loop, r: Loop, turns: seq<Turn>)
    requires turns != [] && !Ends(turns[0]) && Moves(c, l, turns[0], l1)
    requires TriggerTimes(r.history) == TriggerTimes(l1.history) + Causes(c, l1.attached, turns[1..])
    ensures TriggerTimes(r.history) == TriggerTimes(l.history) + Causes(c, l.attached, turns)
  {
    var now, later := Asked(c, l.attached, turns[0]), Causes(c, l1.attached, turns[1..]);
    assert Causes(c, l.attached, turns) == now + later;
    ConcatIsAssociative(TriggerTimes(l.history), now, later);
  }

  lemma {:induction false} TriggersAreCauses(c: Config, l: Loop, turns: seq<Turn>)
    requires Shaped(c, l)
    ensures TriggerTimes(Run(c, l, turns).history) == TriggerTimes(l.history) + Causes(c, l.attached, turns)
    decreases turns
  {
    if turns == [] || Ends(turns[0]) {
      assert TriggerTimes(l.history) + [] == TriggerTimes(l.history);
    } else {
      var l1 := Advance(c, l, turns[0]);
      AdvanceMoves(c, l, turns[0]);
      TriggersAreCauses(c, l1, turns[1..]);
      CausesOneMore(c, l, l1, Run(c, l1, turns[1..]), turns);
    }
  }

  /** In every run: the triggers of the loop are exactly the late attaches and relevant
      events of its turns, in order; a reload is pending exactly when one of them came after
      the last reload, from the newest one on; and every reload answers the trigger right
      before it, `debounce` later at the earliest. */
  lemma NoLostNorSpuriousReload(c: Config, first: seq<Sight>, turns: seq<Turn>, now: Time)
    requires Ticks(now, turns)
    ensures var r := Run(c, Start(c, first), turns);
            && TriggerTimes(r.history) == Causes(c, AttachedAtStart(c, first), turns)
            && PendingIsExact(r) && Answers(c.debounce, r.history)
  {
    StartIsSound(c, first, now);
    RunKeepsSound(c, Start(c, first), turns, now);
    StartAttaches(c, first);
    TriggersAreCauses(c, Start(c, first), turns);
  }

  /** Turn `k` is taken: the loop does not end before it, nor in it. */
  ghost predicate Reached(turns: seq<Turn>, k: nat) {
    k < |turns| && forall j :: 0 <= j <= k ==> !Ends(turns[j])
  }

  /** In one of the first `k` turns, the loop found that spec `i` can be attached. */
  ghost predicate Found(c: Config, turns: seq<Turn>, k: nat, i: nat)
    requires k <= |turns|
  {
    exists j :: 0 <= j < k && Looks(turns[j]) && Attachable(c, turns[j].sights, i)
  }

  /** Before turn `k`, or before the loop. */
  ghost predicate FoundBefore(c: Config, first: seq<Sight>, turns: seq<Turn>, k: nat, i: nat)
    requires k <= |turns|
  {
    Attachable(c, first, i) || Found(c, turns, k, i)
  }

  /** Turn `k` asks for a reload at time `at`: it hears a relevant event, or it is the first
      one in which some directory can be watched. */
  ghost predicate AsksAt(c: Config, first: seq<Sight>, turns: seq<Turn>, k: nat, at: Time) {
    && Reached(turns, k)
    && (|| (Hears(c, turns[k]) && at == turns[k].stampedAt)
        || (&& Looks(turns[k]) && at == turns[k].attachedAt
            && exists i: nat :: Attachable(c, turns[k].sights, i) && !FoundBefore(c, first, turns, k, i)))
  }

  /** What was asked for at `at` is still pending, or was done. */
  ghost predicate Answered(c: Config, l: Loop, at: Time) {
    || (l.pending.Some? && at <= l.pending.value)
    || (exists f <- Fires(l.history) :: at + c.debounce <= f)
  }

  lemma AnsweredStays(c: Config, l: Loop, t: Turn, now: Time, at: Time)
    requires Sound(c, l, now) && Answered(c, l, at) && at <= now
    requires now <= t.asked <= t.attachedAt <= t.stampedAt <= t.checkedAt
    ensures Answered(c, Advance(c, l, t), at)
  {
    var r := Advance(c, l, t);
    AdvanceMoves(c, l, t);
    if TurnReloads(c, l, t) {
      LateAttachMarks(c, l, t.sights, t.attachedAt);
      assert t.checkedAt in Fires(r.history);
    }
    if f :| f in Fires(l.history) && at + c.debounce <= f {
      assert f in Fires(r.history);
    }
  }

  lemma {:induction false} AnsweredInTheEnd(c: Config, l: Loop, turns: seq<Turn>, now: Time, at: Time)
    requires Sound(c, l, now) && Ticks(now, turns) && Answered(c, l, at) && at <= now
    ensures Answered(c, Run(c, l, turns), at)
    decreases turns
  {
    if turns != [] && !Ends(turns[0]) {
      AnsweredStays(c, l, turns[0], now, at);
      AdvanceKeepsSound(c, l, turns[0], now);
      AnsweredInTheEnd(c, Advance(c, l, turns[0]), turns[1..], turns[0].checkedAt, at);
    }
  }

  /** The turn that asks is answered by the loop. */
  lemma AnsweredAtOnce(c: Config, l: Loop, t: Turn, now: Time, at: Time)
    requires Sound(c, l, now)
    requires now <= t.asked <= t.attachedAt <= t.stampedAt <= t.checkedAt
    requires at in Asked(c, l.attached, t)
    ensures Answered(c, Advance(c, l, t), at) && at <= t.checkedAt
  {
    AdvanceMoves(c, l, t);
    if TurnReloads(c, l, t) {
      LateAttachMarks(c, l, t.sights, t.attachedAt);
      assert t.checkedAt in Fires(Advance(c, l, t).history);
    }
  }

  lemma {:induction false} RunInTwo(c: Config, l: Loop, turns: seq<Turn>, k: nat, now: Time)
    requires Sound(c, l, now) && Ticks(now, turns)
    requires k <= |turns| && forall j :: 0 <= j < k ==> !Ends(turns[j])
    ensures var m, when := Run(c, l, turns[..k]), LastTick(now, turns[..k]);
            && Sound(c, m, when) && Ticks(when, turns[k..])
            && Run(c, l, turns) == Run(c, m, turns[k..])
    decreases turns
  {
    if k == 0 {
      assert turns[..0] == [] && turns[0..] == turns;
    } else {
      var l1, rest := Advance(c, l, turns[0]), turns[1..];
      AdvanceKeepsSound(c, l, turns[0], now);
      RunInTwo(c, l1, rest, k - 1, turns[0].checkedAt);
      assert turns[..k][1..] == rest[..k - 1] && rest[k - 1..] == turns[k..];
      assert k > 1 ==> turns[..k][k - 1] == rest[..k - 1][k - 2];
    }
  }

  /** After `k` turns, a spec is attached exactly if it was before them or was found in one. */
  lemma {:induction false} AttachedIffFound(c: Config, l: Loop, turns: seq<Turn>, k: nat, i: nat)
    requires Shaped(c, l) && i < |c.specs|
    requires k <= |turns| && forall j :: 0 <= j < k ==> !Ends(turns[j])
    ensures Run(c, l, turns[..k]).attached[i] <==> l.attached[i] || Found(c, turns, k, i)
    decreases turns
  {
    if k > 0 {
      var l1, rest := Advance(c, l, turns[0]), turns[1..];
      AdvanceMoves(c, l, turns[0]);
      AttachedIffFound(c, l1, rest, k - 1, i);
      assert turns[..k][1..] == rest[..k - 1];
      FoundInTwo(c, turns, k, i);
    }
  }

  lemma FoundInTwo(c: Config, turns: seq<Turn>, k: nat, i: nat)
    requires 0 < k <= |turns|
    ensures Found(c, turns, k, i) <==>
              (Looks(turns[0]) && Attachable(c, turns[0].sights, i)) || Found(c, turns[1..], k - 1, i)
  {
    if j :| 0 < j < k && Looks(turns[j]) && Attachable(c, turns[j].sights, i) {
      assert turns[1..][j - 1] == turns[j];
    }
    if m :| 0 <= m < k - 1 && Looks(turns[1..][m]) && Attachable(c, turns[1..][m].sights, i) {
      assert turns[1..][m] == turns[m + 1];
    }
  }

  /** No request is lost: whatever a turn asked for, at the end of the run a reload is
      pending since then or later, or was made `debounce` after it or later. */
  lemma NoRequestIsLost(c: Config, first: seq<Sight>, turns: seq<Turn>, now: Time, k: nat, at: Time)
    requires Ticks(now, turns) && AsksAt(c, first, turns, k, at)
    ensures Answered(c, Run(c, Start(c, first), turns), at)
  {
    var start, t := Start(c, first), turns[k];
    StartIsSound(c, first, now);
    StartAttaches(c, first);
    RunInTwo(c, start, turns, k, now);
    var l, when := Run(c, start, turns[..k]), LastTick(now, turns[..k]);
    assert turns[k..][0] == t;
    forall i: nat | i < |c.specs|
      ensures l.attached[i] <==> FoundBefore(c, first, turns, k, i)
    {
      AttachedIffFound(c, start, turns, k, i);
    }
    assert at in Asked(c, l.attached, t);
    AnsweredAtOnce(c, l, t, when, at);
    AdvanceKeepsSound(c, l, t, when);
    AnsweredInTheEnd(c, Advance(c, l, t), turns[k..][1..], t.checkedAt, at);
  }

  // ------------------------------------------------------------------ convergence

  /** When nothing is pending at the end of a run, there was a load `debounce` after every
      request or later; so if the file loads as `v` from some request on, then `v` is what
      `Live` holds. */
  lemma LiveConverges<T>(c: Config, first: seq<Sight>, turns: seq<Turn>, now: Time, k: nat, at: Time,
                         initial: T, source: Source<T>, v: T)
    requires Ticks(now, turns) && c.callback && AsksAt(c, first, turns, k, at)
    requires Run(c, Start(c, first), turns).pending.None?
    requires forall t :: at <= t ==> source(t) == Some(v)
    ensures var loads := Fires(Run(c, Start(c, first), turns).history);
            && loads != [] && at + c.debounce <= loads[|loads| - 1]
            && Loaded(c, initial, source, loads) == v
  {
    NoRequestIsLost(c, first, turns, now, k, at);
    var r := Run(c, Start(c, first), turns);
    StartIsSound(c, first, now);
    RunKeepsSound(c, Start(c, first), turns, now);
    var loads := Fires(r.history);
    var f :| f in loads && at + c.debounce <= f;
    FiresAreApart(c.debounce, r.history);
    var j :| 0 <= j < |loads| && loads[j] == f;
    assert j < |loads| - 1 ==> loads[j] + c.debounce <= loads[|loads| - 1];
    assert source(loads[|loads| - 1]) == Some(v);
  }

  // ------------------------------------------------------------ when reloads happen

  /** Whenever a turn of the run times out, it has waited at least as long as it was asked to. */
  ghost predicate WaitsAsAsked(c: Config, l: Loop, turns: seq<Turn>)
    requires Shaped(c, l)
    decreases turns
  {
    turns != [] && !Ends(turns[0]) ==>
      && (turns[0].message.Timeout? ==>
            turns[0].asked + Patience(c, l.pending, turns[0].asked) <= turns[0].attachedAt)
      && WaitsAsAsked(c, Advance(c, l, turns[0]), turns[1..])
  }

  /** When a run reloads, told without its deadline: in the first timeout behind a request,
      unless a spec attaches in that very turn, which then counts as the request. */
  function Reloads(c: Config, attached: seq<bool>, asked: bool, turns: seq<Turn>): seq<Time>
    decreases turns
  {
    if turns == [] || Ends(turns[0]) then []
    else
      var t, next := turns[0], AttachedNext(c, attached, turns[0]);
      var joins := Joins(c, attached, t.sights);
      if !t.message.Timeout? then Reloads(c, next, asked || Asked(c, attached, t) != [], turns[1..])
      else if (if joins then t.attachedAt + c.debounce <= t.checkedAt else asked)
      then [t.checkedAt] + Reloads(c, next, false, turns[1..])
      else Reloads(c, next, joins, turns[1..])
  }

  lemma TimeoutReloadsIff(c: Config, l: Loop, t: Turn, now: Time)
    requires Sound(c, l, now) && t.message.Timeout?
    requires now <= t.asked <= t.attachedAt <= t.stampedAt <= t.checkedAt
    requires t.asked + Patience(c, l.pending, t.asked) <= t.attachedAt
    ensures TurnReloads(c, l, t) <==>
              if Joins(c, l.attached, t.sights) then t.attachedAt + c.debounce <= t.checkedAt else l.pending.Some?
  {
    LateAttachMarks(c, l, t.sights, t.attachedAt);
  }

  /** A turn that does not time out keeps a request, or brings one. */
  lemma HeardOneMore(c: Config, l: Loop, l1: Loop, r: Loop, turns: seq<Turn>)
    requires turns != [] && !Ends(turns[0]) && Moves(c, l, turns[0], l1) && !turns[0].message.Timeout?
    requires Fires(r.history) == Fires(l1.history) + Reloads(c, l1.attached, l1.pending.Some?, turns[1..])
    ensures Fires(r.history) == Fires(l.history) + Reloads(c, l.attached, l.pending.Some?, turns)
  {
    assert Asked(c, l.attached, turns[0]) != [] <==>
             Hears(c, turns[0]) || (Looks(turns[0]) && Joins(c, l.attached, turns[0].sights));
    assert l1.pending.Some? == (l.pending.Some? || Asked(c, l.attached, turns[0]) != []);
  }

  lemma TimedOutOneMore(c: Config, l: Loop, l1: Loop, r: Loop, turns: seq<Turn>)
    requires turns != [] && !Ends(turns[0]) && Moves(c, l, turns[0], l1) && turns[0].message.Timeout?
    requires TurnReloads(c, l, turns[0]) <==>
               if Joins(c, l.attached, turns[0].sights) then turns[0].attachedAt + c.debounce <= turns[0].checkedAt
               else l.pending.Some?
    requires Fires(r.history) == Fires(l1.history) + Reloads(c, l1.attached, l1.pending.Some?, turns[1..])
    ensures Fires(r.history) == Fires(l.history) + Reloads(c, l.attached, l.pending.Some?, turns)
  {
    var later := Reloads(c, l1.attached, l1.pending.Some?, turns[1..]);
    assert !Hears(c, turns[0]);
    if TurnReloads(c, l, turns[0]) {
      assert Reloads(c, l.attached, l.pending.Some?, turns) == [turns[0].checkedAt] + later;
      ConcatIsAssociative(Fires(l.history), [turns[0].checkedAt], later);
    } else {
      assert l1.pending.Some? == Joins(c, l.attached, turns[0].sights);
      assert Reloads(c, l.attached, l.pending.Some?, turns) == later;
    }
  }

  /** In every run, however its turns are timed: bursts are what lies between two timeouts,
      and each of them is reloaded once, in the timeout behind it. */
  lemma {:induction false} ReloadsAreExact(c: Config, l: Loop, turns: seq<Turn>, now: Time)
    requires Sound(c, l, now) && Ticks(now, turns) && WaitsAsAsked(c, l, turns)
    ensures Fires(Run(c, l, turns).history)
         == Fires(l.history) + Reloads(c, l.attached, l.pending.Some?, turns)
    decreases turns
  {
    if turns == [] || Ends(turns[0]) {
      assert Fires(l.history) + [] == Fires(l.history);
    } else {
      var t, l1 := turns[0], Advance(c, l, turns[0]);
      AdvanceMoves(c, l, t);
      AdvanceKeepsSound(c, l, t, now);
      ReloadsAreExact(c, l1, turns[1..], t.checkedAt);
      if t.message.Timeout? {
        TimeoutReloadsIff(c, l, t, now);
        TimedOutOneMore(c, l, l1, Run(c, l1, turns[1..]), turns);
      } else {
        HeardOneMore(c, l, l1, Run(c, l1, turns[1..]), turns);
      }
    }
  }

  // -------------------------------------------------------------------- progress

  function Unattached(attached: seq<bool>): nat {
    if attached == [] then 0 else (if attached[0] then 0 else 1) + Unattached(attached[1..])
  }

  /** How often a run times out. */
  function Timeouts(turns: seq<Turn>): nat
    decreases turns
  {
    if turns == [] || Ends(turns[0]) then 0
    else (if turns[0].message.Timeout? then 1 else 0) + Timeouts(turns[1..])
  }

  lemma {:induction false} UnattachedShrinks(a: seq<bool>, b: seq<bool>, i: nat)
    requires |a| == |b| && (forall k :: 0 <= k < |a| && a[k] ==> b[k])
    requires i < |a| ==> !a[i] && b[i]
    ensures Unattached(b) + (if i < |a| then 1 else 0) <= Unattached(a)
    decreases |a|
  {
    if a != [] {
      UnattachedShrinks(a[1..], b[1..], if i == 0 then |a| else i - 1);
    }
  }

  lemma TurnAttaches(c: Config, attached: seq<bool>, t: Turn)
    ensures var next := AttachedNext(c, attached, t);
            Unattached(next) + (if Looks(t) && Joins(c, attached, t.sights) then 1 else 0) <= Unattached(attached)
  {
    var next := AttachedNext(c, attached, t);
    if Looks(t) && Joins(c, attached, t.sights) {
      var i :| 0 <= i < |attached| && !attached[i] && Attachable(c, t.sights, i);
      UnattachedShrinks(attached, next, i);
    } else {
      UnattachedShrinks(attached, next, |attached|);
    }
  }

  lemma {:induction false} EnoughTimeoutsReload(c: Config, attached: seq<bool>, turns: seq<Turn>)
    requires Timeouts(turns) > Unattached(attached)
    ensures Reloads(c, attached, true, turns) != []
    decreases turns
  {
    if turns != [] && !Ends(turns[0]) {
      TurnAttaches(c, attached, turns[0]);
      var next := AttachedNext(c, attached, turns[0]);
      if !turns[0].message.Timeout? || Joins(c, attached, turns[0].sights) {
        if Timeouts(turns[1..]) > Unattached(next) {
          EnoughTimeoutsReload(c, next, turns[1..]);
        }
      }
    }
  }

  lemma {:induction false} NoTimeoutNoReload(c: Config, attached: seq<bool>, asked: bool, turns: seq<Turn>)
    requires Timeouts(turns) == 0
    ensures Reloads(c, attached, asked, turns) == []
    decreases turns
  {
    if turns != [] && !Ends(turns[0]) {
      NoTimeoutNoReload(c, AttachedNext(c, attached, turns[0]), asked || Asked(c, attached, turns[0]) != [], turns[1..]);
    }
  }

  /** A pending reload is made by the end of every run that times out more often than there
      are specs left to attach, whatever else it receives in between. */
  lemma PendingReloadFires(c: Config, l: Loop, turns: seq<Turn>, now: Time)
    requires Sound(c, l, now) && Ticks(now, turns) && WaitsAsAsked(c, l, turns)
    requires l.pending.Some? && Timeouts(turns) > Unattached(l.attached)
    ensures |Fires(Run(c, l, turns).history)| > |Fires(l.history)|
  {
    ReloadsAreExact(c, l, turns, now);
    EnoughTimeoutsReload(c, l.attached, turns);
  }

  /** With every spec attached: a pending reload is made by the end of a run if and only if
      the run times out. A loop that finds a message in every turn never makes it. */
  lemma PendingReloadFiresIffTimeout(c: Config, l: Loop, turns: seq<Turn>, now: Time)
    requires Sound(c, l, now) && Ticks(now, turns) && WaitsAsAsked(c, l, turns)
    requires l.pending.Some? && Unattached(l.attached) == 0
    ensures |Fires(Run(c, l, turns).history)| > |Fires(l.history)| <==> Timeouts(turns) > 0
  {
    ReloadsAreExact(c, l, turns, now);
    if Timeouts(turns) > 0 {
      EnoughTimeoutsReload(c, l.attached, turns);
    } else {
      NoTimeoutNoReload(c, l.attached, true, turns);
    }
  }

  /** In particular, and from whatever state: as long as every `recv_timeout` finds a message,
      nothing is reloaded, however long ago the deadline was. */
  lemma {:induction false} BusyQueueHoldsUpReload(c: Config, l: Loop, turns: seq<Turn>)
    requires Shaped(c, l) && forall t <- turns :: !t.message.Timeout?
    ensures Fires(Run(c, l, turns).history) == Fires(l.history)
    decreases turns
  {
    if turns != [] && !Ends(turns[0]) {
      assert turns[0] in turns;
      AdvanceMoves(c, l, turns[0]);
      BusyQueueHoldsUpReload(c, Advance(c, l, turns[0]), turns[1..]);
    }
  }

  /** A spec that attaches late pushes the deadline out before it is checked: a reload that
      was overdue does not happen in that iteration, but `debounce` after the attach. */
  lemma LateAttachDefersReload(c: Config, l: Loop, t: Turn)
    requires Shaped(c, l) && t.message.Timeout?
    requires t.attachedAt <= t.checkedAt < t.attachedAt + c.debounce
    requires Joins(c, l.attached, t.sights)
    ensures var r := Advance(c, l, t);
            r.pending == Some(t.attachedAt) && Fires(r.history) == Fires(l.history)
  {
    LateAttachMarks(c, l, t.sights, t.attachedAt);
    AdvanceMoves(c, l, t);
  }

  // ------------------------------------------------------------ a reload that starves

  const CONFIG_FILE: Event := Event(Modify, [Some("a.json")])
  const EDITOR_FILE: Event := Event(Modify, [Some(".a.json")])

  /** A turn that finds an event in the queue at once, and takes no time. */
  function At(now: Time, e: Event): Turn {
    Turn(false, now, Notified(e), [], now, now, now)
  }

  /** `n` junk events, one nanosecond apart. */
  function Junk(now: Time, n: nat): seq<Turn>
    decreases n
  {
    if n == 0 then [] else [At(now, EDITOR_FILE)] + Junk(now + 1, n - 1)
  }

  /** One spec, for all names of a directory. */
  function Everything(debounce: Time): Config {
    Config([WatchSpec(false, AnyName([], [], []))], debounce, true, true)
  }

  lemma {:induction false} JunkIsQueued(now: Time, n: nat)
    ensures |Junk(now, n)| == n && Ticks(now, Junk(now, n))
    ensures forall k :: 0 <= k < n ==> Junk(now, n)[k] == At(now + k, EDITOR_FILE)
    decreases n
  {
    if n > 0 {
      var rest := Junk(now + 1, n - 1);
      assert Junk(now, n)[0] == At(now, EDITOR_FILE) && Junk(now, n)[1..] == rest;
      JunkIsQueued(now + 1, n - 1);
      TicksEarlier(now, now + 1, rest);
    }
  }

  lemma EditorFileChangesNothing(c: Config, l: Loop, now: Time)
    requires Shaped(c, l) && forall i :: 0 <= i < |l.attached| ==> l.attached[i]
    ensures Advance(c, l, At(now, EDITOR_FILE)) == l
  {
    assert "." <= ".a.json";
    assert !IsRelevant(c.specs, EDITOR_FILE);
    JoinsIsNewcomers(c, l.attached, []);
  }

  lemma {:induction false} JunkChangesNothing(c: Config, l: Loop, now: Time, n: nat)
    requires Shaped(c, l) && forall i :: 0 <= i < |l.attached| ==> l.attached[i]
    ensures Run(c, l, Junk(now, n)) == l
    decreases n
  {
    if n > 0 {
      var t, rest := At(now, EDITOR_FILE), Junk(now + 1, n - 1);
      assert Junk(now, n)[0] == t && Junk(now, n)[1..] == rest;
      EditorFileChangesNothing(c, l, now);
      JunkChangesNothing(c, l, now + 1, n - 1);
    }
  }

  lemma ConfigFileIsRelevant(debounce: Time)
    ensures IsRelevant(Everything(debounce).specs, CONFIG_FILE)
  {
    var name := "a.json";
    assert name[0] == 'a' && name[5] == 'n' && name[2..] == "json";
    assert !IsJunkName(name);
    var s := Everything(debounce).specs[0];
    assert IsRelevantPath(Some(name), s.filter);
    assert Some(name) in CONFIG_FILE.paths && s in Everything(debounce).specs;
  }

  /** A run that shows it, for every debounce and however long: the configuration file
      changes once, and then the queue always holds another event, of a file that is
      ignored. The reload stays pending, overdue since long, and is not made. */
  lemma OverdueReloadStarves(debounce: Time, n: nat) returns (c: Config, first: seq<Sight>, turns: seq<Turn>)
    requires n > debounce
    ensures c.debounce == debounce && Ticks(0, turns) && turns != []
    ensures turns[0].message == Notified(CONFIG_FILE) && forall t <- turns :: t.message.Notified? && t.attachedAt == t.asked
    ensures LastTick(0, turns) == n
    ensures var r := Run(c, Start(c, first), turns);
            r.pending == Some(0) && Due(c, r, n) && Fires(r.history) == []
  {
    c, first := Everything(debounce), [Sight(true, true, true)];
    turns := [At(0, CONFIG_FILE)] + Junk(1, n);
    StartAttaches(c, first);
    assert Attachable(c, first, 0);
    StarvesFrom(c, Start(c, first), n);
  }

  lemma StarvesFrom(c: Config, start: Loop, n: nat)
    requires c == Everything(c.debounce) && n > c.debounce
    requires Shaped(c, start) && start.attached[0] && start.history == []
    ensures var turns := [At(0, CONFIG_FILE)] + Junk(1, n);
            var r := Run(c, start, turns);
            && Ticks(0, turns) && LastTick(0, turns) == n
            && (forall t <- turns :: t.message.Notified? && t.attachedAt == t.asked)
            && r.pending == Some(0) && Due(c, r, n) && Fires(r.history) == []
  {
    var turns, junk := [At(0, CONFIG_FILE)] + Junk(1, n), Junk(1, n);
    JunkIsQueued(1, n);
    TicksEarlier(0, 1, junk);
    assert turns[1..] == junk && turns[n] == junk[n - 1];
    assert LastTick(0, turns) == n;
    StarvedRun(c, start, n);
  }

  lemma StarvedRun(c: Config, start: Loop, n: nat)
    requires c == Everything(c.debounce) && Shaped(c, start) && start.attached[0] && start.history == []
    ensures var r := Run(c, start, [At(0, CONFIG_FILE)] + Junk(1, n));
            r.pending == Some(0) && Fires(r.history) == []
  {
    var turns := [At(0, CONFIG_FILE)] + Junk(1, n);
    assert turns[0] == At(0, CONFIG_FILE) && turns[1..] == Junk(1, n);
    var l := ConfigFileChanges(c, start);
    JunkChangesNothing(c, l, 1, n);
  }

  lemma ConfigFileChanges(c: Config, l: Loop) returns (r: Loop)
    requires c == Everything(c.debounce) && Shaped(c, l) && l.attached[0]
    ensures r == Advance(c, l, At(0, CONFIG_FILE)) && Shaped(c, r) && r.attached[0]
    ensures r.pending == Some(0) && Fires(r.history) == Fires(l.history)
  {
    r := Advance(c, l, At(0, CONFIG_FILE));
    ConfigFileIsRelevant(c.debounce);
    AdvanceMoves(c, l, At(0, CONFIG_FILE));
  }
}
