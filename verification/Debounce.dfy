/** The debounced loop of `config/watch.rs` refines burst clustering: on prompt timers it
    reloads once per burst of relevant events, one debounce after the last of them. */
module Debounce {
  import opened Wrappers
  import opened Watch
  import opened WatchProps

  /** An event and the time at which it is queued. */
  datatype Queued = Queued(at: Time, event: Event)

  predicate Ordered(now: Time, arrivals: seq<Queued>)
    decreases arrivals
  {
    arrivals != [] ==> now <= arrivals[0].at && Ordered(arrivals[0].at, arrivals[1..])
  }

  /** The turns of a loop that starts to wait at `now`, with timers that are prompt and
      an iteration that takes no time: it receives the next event when that is queued, or
      times out when its patience ends, whichever is first (either, if both are at once).
      No spec attaches. */
  ghost predicate Prompt(c: Config, l: Loop, now: Time, arrivals: seq<Queued>, turns: seq<Turn>)
    requires Shaped(c, l)
    decreases turns
  {
    turns != [] ==>
      var t := turns[0];
      var deadline := now + Patience(c, l.pending, now);
      && !t.stop && t.asked == now
      && Newcomers(c, l.attached, t.sights, 0) == []
      && t.attachedAt == t.stampedAt == t.checkedAt
      && match t.message
         case Notified(e) =>
           && arrivals != [] && e == arrivals[0].event
           && now <= t.checkedAt == arrivals[0].at <= deadline
           && Prompt(c, Advance(c, l, t), t.checkedAt, arrivals[1..], turns[1..])
         case Timeout =>
           && (arrivals != [] ==> deadline <= arrivals[0].at)
           && t.checkedAt == deadline
           && Prompt(c, Advance(c, l, t), t.checkedAt, arrivals, turns[1..])
         case _ => false
  }

  /** How many events a run received, and when it received the relevant ones. */
  function Heard(turns: seq<Turn>): nat {
    if turns == [] then 0 else (if turns[0].message.Notified? then 1 else 0) + Heard(turns[1..])
  }

  function Received(c: Config, turns: seq<Turn>): seq<Time> {
    if turns == [] then []
    else (if turns[0].message.Notified? && IsRelevant(c.specs, turns[0].message.event) then [turns[0].checkedAt] else [])
         + Received(c, turns[1..])
  }

  function RelevantTimes(c: Config, arrivals: seq<Queued>): seq<Time> {
    if arrivals == [] then []
    else (if IsRelevant(c.specs, arrivals[0].event) then [arrivals[0].at] else [])
         + RelevantTimes(c, arrivals[1..])
  }

  /** One time per burst: an event ends its burst if the next one is `d` or more away,
      and the burst counts `d` after it ended. */
  function Bursts(ts: seq<Time>, d: Time): seq<Time> {
    if ts == [] then []
    else if |ts| > 1 && ts[1] < ts[0] + d then Bursts(ts[1..], d)
    else [ts[0] + d] + Bursts(ts[1..], d)
  }

  /** No event arrives exactly on the deadline that the one before it set. */
  ghost predicate OffDeadline(ts: seq<Time>, d: Time) {
    forall j, k :: 0 <= j < |ts| && 0 <= k < |ts| && k == j + 1 ==> ts[k] != ts[j] + d
  }

  function Pending(l: Loop): seq<Time> {
    if l.pending.Some? then [l.pending.value] else []
  }

  /** A state in which the loop starts to wait: it is not overdue. */
  ghost predicate Waiting(c: Config, l: Loop, now: Time) {
    Shaped(c, l) && (l.pending.Some? ==> l.pending.value <= now <= l.pending.value + c.debounce)
  }

  /** What one prompt turn does. */
  lemma PromptTurn(c: Config, l: Loop, now: Time, arrivals: seq<Queued>, turns: seq<Turn>)
    requires Waiting(c, l, now) && turns != [] && Prompt(c, l, now, arrivals, turns)
    ensures var t, r := turns[0], Advance(c, l, turns[0]);
            && Waiting(c, r, t.checkedAt) && now <= t.checkedAt
            && (t.message.Notified? ==> && Fires(r.history) == Fires(l.history)
                                        && r.pending == if IsRelevant(c.specs, t.message.event) then Some(t.checkedAt) else l.pending)
            && (t.message.Timeout? ==> && r.pending == None
                                       && Fires(r.history) == Fires(l.history) + (if l.pending.Some? then [t.checkedAt] else []))
            && (l.pending.Some? ==> if t.message.Timeout? then t.checkedAt == l.pending.value + c.debounce
                                    else t.checkedAt <= l.pending.value + c.debounce)
  {
    var t := turns[0];
    var deadline := now + Patience(c, l.pending, now);
    assert l.pending.Some? ==> deadline == l.pending.value + c.debounce;
    AdvanceMoves(c, l, t);
    AdvanceWithoutAttach(c, l, t);
  }

  lemma AdvanceWithoutAttach(c: Config, l: Loop, t: Turn)
    requires Shaped(c, l) && Newcomers(c, l.attached, t.sights, 0) == []
    ensures LateAttach(c, l, t.sights, t.attachedAt) == l
    ensures t.message.Notified? ==>
              Advance(c, l, t).pending == if IsRelevant(c.specs, t.message.event) then Some(t.stampedAt) else l.pending
    ensures t.message.Timeout? ==>
              Advance(c, l, t).pending == if Due(c, l, t.checkedAt) then None else l.pending
  {
  }

  lemma {:induction false} ReceivedLater(c: Config, l: Loop, now: Time, arrivals: seq<Queued>, turns: seq<Turn>)
    requires Waiting(c, l, now) && Prompt(c, l, now, arrivals, turns)
    ensures forall t <- Received(c, turns) :: now <= t
    ensures Heard(turns) <= |arrivals|
    ensures Received(c, turns) == RelevantTimes(c, arrivals[..Heard(turns)])
    decreases turns
  {
    if turns != [] {
      PromptTurn(c, l, now, arrivals, turns);
      var t, l1 := turns[0], Advance(c, l, turns[0]);
      if t.message.Notified? {
        ReceivedLater(c, l1, t.checkedAt, arrivals[1..], turns[1..]);
        assert arrivals[..Heard(turns)][1..] == arrivals[1..][..Heard(turns[1..])];
      } else {
        ReceivedLater(c, l1, t.checkedAt, arrivals, turns[1..]);
      }
    }
  }

  /** From `l` to `r`: the reloads made, and the one that is still due, are the bursts of
      what was pending in `l` and received since. */
  ghost predicate Accounted(c: Config, l: Loop, r: Loop, received: seq<Time>) {
    Fires(r.history) + Bursts(Pending(r), c.debounce)
    == Fires(l.history) + Bursts(Pending(l) + received, c.debounce)
  }

  /** An event before the deadline takes the place of the one that is pending. */
  lemma BurstGoesOn(c: Config, l: Loop, l1: Loop, r: Loop, at: Time, later: seq<Time>)
    requires Fires(l1.history) == Fires(l.history) && l1.pending == Some(at)
    requires l.pending.Some? ==> at < l.pending.value + c.debounce
    requires Accounted(c, l1, r, later)
    ensures Accounted(c, l, r, [at] + later)
  {
    assert Pending(l1) + later == [at] + later;
    assert (Pending(l) + ([at] + later))[|Pending(l)|..] == [at] + later;
    assert l.pending.None? ==> Pending(l) + ([at] + later) == [at] + later;
  }

  lemma FirstBurst(t: Time, later: seq<Time>, d: Time)
    requires forall u <- later :: t + d <= u
    ensures Bursts([t] + later, d) == [t + d] + Bursts(later, d)
  {
    assert ([t] + later)[1..] == later;
    assert later != [] ==> later[0] in later;
  }

  /** A timeout ends the burst that is pending. */
  lemma BurstEnds(c: Config, l: Loop, l1: Loop, r: Loop, at: Time, later: seq<Time>)
    requires l.pending.Some? && at == l.pending.value + c.debounce
    requires Fires(l1.history) == Fires(l.history) + [at] && l1.pending == None
    requires forall t <- later :: at <= t
    requires Accounted(c, l1, r, later)
    ensures Accounted(c, l, r, later)
  {
    assert Pending(l1) + later == later;
    FirstBurst(l.pending.value, later, c.debounce);
    ConcatIsAssociative(Fires(l.history), [at], Bursts(later, c.debounce));
  }

  /** What was received, but for the first turn, is off its deadlines too. */
  lemma OffDeadlineTail(ts: seq<Time>, n: nat, d: Time)
    requires n <= |ts| && OffDeadline(ts, d)
    ensures OffDeadline(ts[n..], d)
  {
  }

  /** In every prompt run, at every point: the reloads so far, and the one that is due next
      if any, are the bursts of the relevant events received so far. Irrelevant events
      do not appear: they move no deadline. */
  lemma {:induction false} ReloadsAreBursts(c: Config, l: Loop, now: Time, arrivals: seq<Queued>, turns: seq<Turn>)
    requires Waiting(c, l, now) && Prompt(c, l, now, arrivals, turns)
    requires OffDeadline(Pending(l) + Received(c, turns), c.debounce)
    ensures Accounted(c, l, Run(c, l, turns), Received(c, turns))
    decreases turns
  {
    if turns == [] {
      assert Pending(l) + [] == Pending(l);
    } else {
      var t, l1, r := turns[0], Advance(c, l, turns[0]), Run(c, l, turns);
      var all, later := Pending(l) + Received(c, turns), Received(c, turns[1..]);
      PromptTurn(c, l, now, arrivals, turns);
      OffDeadlineTail(all, |Pending(l)|, c.debounce);
      if t.message.Notified? {
        if IsRelevant(c.specs, t.message.event) {
          assert l.pending.Some? ==> all[1] != all[0] + c.debounce;
          assert all[|Pending(l)|..] == Pending(l1) + later == [t.checkedAt] + later;
          ReloadsAreBursts(c, l1, t.checkedAt, arrivals[1..], turns[1..]);
          BurstGoesOn(c, l, l1, r, t.checkedAt, later);
        } else {
          assert all == Pending(l1) + later;
          ReloadsAreBursts(c, l1, t.checkedAt, arrivals[1..], turns[1..]);
        }
      } else {
        assert all[|Pending(l)|..] == Pending(l1) + later == later;
        ReloadsAreBursts(c, l1, t.checkedAt, arrivals, turns[1..]);
        if l.pending.Some? {
          ReceivedLater(c, l1, t.checkedAt, arrivals, turns[1..]);
          BurstEnds(c, l, l1, r, t.checkedAt, later);
        }
      }
    }
  }

  lemma OneReloadPerBurstFrom(c: Config, l: Loop, now: Time, arrivals: seq<Queued>, turns: seq<Turn>)
    requires Shaped(c, l) && l.pending.None? && l.history == []
    requires Prompt(c, l, now, arrivals, turns)
    requires Heard(turns) == |arrivals| && Run(c, l, turns).pending.None?
    requires OffDeadline(RelevantTimes(c, arrivals), c.debounce)
    ensures Fires(Run(c, l, turns).history) == Bursts(RelevantTimes(c, arrivals), c.debounce)
  {
    ReceivedLater(c, l, now, arrivals, turns);
    assert arrivals[..|arrivals|] == arrivals;
    assert Pending(l) + RelevantTimes(c, arrivals) == RelevantTimes(c, arrivals);
    ReloadsAreBursts(c, l, now, arrivals, turns);
    NothingElseIsAccounted(c, l, Run(c, l, turns), RelevantTimes(c, arrivals));
  }

  lemma NothingElseIsAccounted(c: Config, l: Loop, r: Loop, received: seq<Time>)
    requires l.pending.None? && l.history == [] && r.pending.None?
    requires Accounted(c, l, r, received)
    ensures Fires(r.history) == Bursts(received, c.debounce)
  {
    assert [] + received == received;
    assert Fires(r.history) + [] == Fires(r.history);
    assert [] + Bursts(received, c.debounce) == Bursts(received, c.debounce);
  }

  /** The whole story: from an idle start, a prompt run that heard everything and has
      nothing pending reloaded once per burst, and never in between. */
  lemma OneReloadPerBurst(c: Config, first: seq<Sight>, now: Time, arrivals: seq<Queued>, turns: seq<Turn>)
    requires Prompt(c, Start(c, first), now, arrivals, turns)
    requires Heard(turns) == |arrivals| && Run(c, Start(c, first), turns).pending.None?
    requires OffDeadline(RelevantTimes(c, arrivals), c.debounce)
    ensures Fires(Run(c, Start(c, first), turns).history) == Bursts(RelevantTimes(c, arrivals), c.debounce)
  {
    OneReloadPerBurstFrom(c, Start(c, first), now, arrivals, turns);
  }

  /** And there is such a run for every list of arrivals. */
  lemma {:induction false} PromptRunExists(c: Config, l: Loop, now: Time, arrivals: seq<Queued>) returns (turns: seq<Turn>)
    requires Waiting(c, l, now) && Ordered(now, arrivals)
    ensures Prompt(c, l, now, arrivals, turns)
    ensures Heard(turns) == |arrivals| && Run(c, l, turns).pending.None?
    decreases |arrivals|, if l.pending.Some? then 1 else 0, if arrivals == [] then 0 else arrivals[0].at - now
  {
    var deadline := now + Patience(c, l.pending, now);
    NoNewcomers(c, l.attached, [], 0);
    if arrivals == [] && l.pending.None? {
      turns := [];
    } else {
      var hear := arrivals != [] && arrivals[0].at <= deadline;
      var at := if hear then arrivals[0].at else deadline;
      var t := Turn(false, now, if hear then Notified(arrivals[0].event) else Timeout, [], at, at, at);
      var rest := if hear then arrivals[1..] else arrivals;
      var more := PromptRunExists(c, Advance(c, l, t), at, rest);
      turns := [t] + more;
      assert turns[1..] == more;
    }
  }
}
