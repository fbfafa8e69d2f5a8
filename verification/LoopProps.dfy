/** What the watch loop of `config/watch.rs` reacts to, in terms of names, directories and
    clock readings alone. */
module LoopProps {
  import opened Wrappers
  import opened Watch
  import opened WatchProps
  import opened ReloadProps

  // --------------------------------------------------------------- names of files

  /** The artifacts of editors. */
  ghost predicate IsArtifact(name: string) {
    || (exists x :: name == "." + x)
    || (exists x :: name == x + "~")
    || (exists x :: name == x + ".swp")
    || (exists x :: name == x + ".tmp")
  }

  lemma EndsWithIff(name: string, suffix: string)
    ensures EndsWith(name, suffix) <==> exists x :: name == x + suffix
  {
    if EndsWith(name, suffix) {
      assert name == name[..|name| - |suffix|] + suffix;
    }
  }

  lemma JunkIff(name: string)
    ensures IsJunkName(name) <==> IsArtifact(name)
  {
    EndsWithIff(name, "~");
    EndsWithIff(name, ".swp");
    EndsWithIff(name, ".tmp");
    if "." <= name {
      assert name == "." + name[1..];
    }
  }

  /** A name has the extension `e` if and only if it is a stem, a dot and `e`. */
  lemma {:induction false} ExtensionIff(name: string, e: string)
    ensures Extension(name) == Some(e) <==> '.' !in e && exists stem :: stem != [] && name == stem + "." + e
  {
    if '.' !in e && exists stem :: stem != [] && name == stem + "." + e {
      var stem :| stem != [] && name == stem + "." + e;
      ExtensionIsAfterLastDot(stem, e);
    }
    if Extension(name) == Some(e) {
      var stem := StemOf(name);
    }
  }

  lemma {:induction false} StemOf(name: string) returns (stem: string)
    requires Extension(name).Some?
    ensures stem != [] && '.' !in Extension(name).value && name == stem + "." + Extension(name).value
  {
    var n := |name| - 1;
    if name[n] == '.' {
      stem := name[..n];
    } else {
      stem := StemOf(name[..n]);
      assert name == name[..n] + [name[n]];
    }
  }

  /** The file names that a filter is after. */
  ghost predicate Concerns(filter: PathFilter, name: string) {
    && !IsArtifact(name)
    && match filter
       case Basename(want) => name == want
       case AnyName(extensions, extraNames, ignoreSuffixes) =>
         && (forall s <- ignoreSuffixes :: !exists x :: name == x + s)
         && (|| name in extraNames
             || extensions == []
             || (exists stem, e :: stem != [] && '.' !in e && e in extensions && name == stem + "." + e))
  }

  lemma RelevantPathIff(name: string, filter: PathFilter)
    ensures IsRelevantPath(Some(name), filter) <==> Concerns(filter, name)
  {
    JunkIff(name);
    if filter.AnyName? {
      forall s | s in filter.ignoreSuffixes
        ensures EndsWith(name, s) <==> exists x :: name == x + s
      {
        EndsWithIff(name, s);
      }
      if Extension(name).Some? {
        ExtensionIff(name, Extension(name).value);
      }
      forall stem, e | stem != [] && '.' !in e && name == stem + "." + e
        ensures Extension(name) == Some(e)
      {
        ExtensionIff(name, e);
      }
    }
  }

  // --------------------------------------------------------------- one event

  predicate AllAttached(l: Loop) {
    forall i :: 0 <= i < |l.attached| ==> l.attached[i]
  }

  /** A turn that hears of an event. */
  predicate HearsOf(t: Turn, kind: EventKind, paths: seq<Path>) {
    !t.stop && t.message == Notified(Event(kind, paths))
  }

  /** A file was created, modified or removed, or inotify cannot tell. */
  predicate IsChange(kind: EventKind) {
    kind == Create || kind == Modify || kind == Remove || kind == AnyKind
  }

  /** The deadline is set by an event exactly if that is a change of a file that some spec is
      after; any other one leaves it as it was. */
  lemma EventAsksIff(c: Config, l: Loop, t: Turn, kind: EventKind, paths: seq<Path>)
    requires Shaped(c, l) && AllAttached(l) && HearsOf(t, kind, paths)
    ensures Run(c, l, [t]).pending
         == if IsChange(kind) && exists p <- paths :: p.Some? && exists s <- c.specs :: Concerns(s.filter, p.value)
            then Some(t.stampedAt) else l.pending
  {
    assert [t][1..] == [];
    assert Run(c, l, [t]) == Advance(c, l, t);
    AdvanceMoves(c, l, t);
    forall p, s | p in paths && p.Some? && s in c.specs
      ensures IsRelevantPath(p, s.filter) <==> Concerns(s.filter, p.value)
    {
      RelevantPathIff(p.value, s.filter);
    }
  }

  /** The spec of a single file: only changes of that very file count, unless it has the
      name of an artifact. */
  lemma FileSpecReactsIff(c: Config, l: Loop, t: Turn, recursive: bool, want: string, kind: EventKind, name: string)
    requires Shaped(c, l) && AllAttached(l) && HearsOf(t, kind, [Some(name)])
    requires c.specs == [WatchSpec(recursive, Basename(want))] && l.pending == None
    ensures Run(c, l, [t]).pending
         == if && (kind == Create || kind == Modify || kind == Remove || kind == AnyKind)
               && name == want
               && !(want != [] && (want[0] == '.' || want[|want| - 1] == '~'))
               && !(|want| >= 4 && (want[|want| - 4..] == ".swp" || want[|want| - 4..] == ".tmp"))
            then Some(t.stampedAt) else None
  {
    EventAsksIff(c, l, t, kind, [Some(name)]);
    assert Some(name) in [Some(name)] && c.specs[0] in c.specs;
    ArtifactByItsEnds(want);
  }

  lemma ArtifactByItsEnds(name: string)
    ensures IsArtifact(name) <==>
              || (name != [] && (name[0] == '.' || name[|name| - 1] == '~'))
              || (|name| >= 4 && (name[|name| - 4..] == ".swp" || name[|name| - 4..] == ".tmp"))
  {
    JunkIff(name);
    assert name != [] ==> (EndsWith(name, "~") <==> name[|name| - 1] == '~');
  }

  /** Artifacts, nameless paths and mere accesses ask for nothing, whatever the specs are. */
  lemma NoiseAsksForNothing(c: Config, l: Loop, t: Turn, x: string, kind: EventKind, path: Path)
    requires Shaped(c, l) && AllAttached(l) && HearsOf(t, kind, [path])
    requires || path in {None, Some("." + x), Some(x + "~"), Some(x + ".swp"), Some(x + ".tmp")}
             || kind in {Access, OtherKind}
    ensures Run(c, l, [t]).pending == l.pending
  {
    EventAsksIff(c, l, t, kind, [path]);
    if path.Some? && !(kind in {Access, OtherKind}) {
      assert IsArtifact(path.value);
    }
  }

  /** The spec of a directory: ignored suffixes come first, then extra names, and then the
      extensions, if there are any. */
  lemma DirectorySpecReactsIff(c: Config, l: Loop, t: Turn, recursive: bool, extensions: seq<string>,
                               extraNames: seq<string>, ignoreSuffixes: seq<string>, kind: EventKind, name: string)
    requires Shaped(c, l) && AllAttached(l) && HearsOf(t, kind, [Some(name)]) && IsChange(kind) && !IsArtifact(name)
    requires c.specs == [WatchSpec(recursive, AnyName(extensions, extraNames, ignoreSuffixes))] && l.pending == None
    ensures var asks := Run(c, l, [t]).pending == Some(t.stampedAt);
            && (asks || Run(c, l, [t]).pending == None)
            && ((exists s <- ignoreSuffixes :: exists x :: name == x + s) ==> !asks)
            && ((forall s <- ignoreSuffixes :: forall x :: name != x + s) ==>
                  && (name in extraNames || extensions == [] ==> asks)
                  && (name !in extraNames && extensions != [] ==>
                        && ('.' !in name ==> !asks)
                        && (forall stem, e :: name == stem + "." + e && '.' !in e ==>
                              (asks <==> stem != [] && e in extensions))))
  {
    EventAsksIff(c, l, t, kind, [Some(name)]);
    var filter := c.specs[0].filter;
    assert Some(name) in [Some(name)] && c.specs[0] in c.specs;
    assert Run(c, l, [t]).pending == Some(t.stampedAt) <==> Concerns(filter, name);
    forall stem, e | name == stem + "." + e && '.' !in e
      ensures (exists stem, e :: stem != [] && '.' !in e && e in extensions && name == stem + "." + e)
         <==> stem != [] && e in extensions
    {
      ExtensionIsAfterLastDot(stem, e);
      forall stem', e' | stem' != [] && '.' !in e' && name == stem' + "." + e'
        ensures stem != [] && e' == e
      {
        ExtensionIsAfterLastDot(stem', e');
      }
    }
  }

  // --------------------------------------------------------------- directories

  /** A spec attaches in the first turn that finds its directory and can watch it; only a
      spec that is not recursive may have its directory created. */
  lemma AttachesIff(c: Config, l: Loop, t: Turn, i: nat)
    requires Shaped(c, l) && i < |c.specs| && i < |t.sights|
    ensures Run(c, l, [t]).attached[i] <==>
              || l.attached[i]
              || (&& !t.stop && (t.message.Notified? || t.message.Timeout?)
                  && (t.sights[i].isDir || (!c.specs[i].recursive && t.sights[i].created))
                  && t.sights[i].watches)
  {
    assert [t][1..] == [];
    AdvanceMoves(c, l, t);
  }

  lemma AttachesAtStartIff(c: Config, first: seq<Sight>, i: nat)
    requires i < |c.specs| && i < |first|
    ensures Start(c, first).attached[i] <==>
              (first[i].isDir || (!c.specs[i].recursive && first[i].created)) && first[i].watches
  {
    StartAttaches(c, first);
  }

  // --------------------------------------------------------------- stop and timeouts

  /** The turn in which the loop is told to stop, or loses its watcher, is its last one, and
      does nothing. */
  lemma {:induction false} StopsAtOnce(c: Config, l: Loop, turns: seq<Turn>, k: nat)
    requires Shaped(c, l) && k < |turns| && (turns[k].stop || turns[k].message.Disconnected?)
    ensures Run(c, l, turns) == Run(c, l, turns[..k])
    decreases turns
  {
    if k > 0 && !Ends(turns[0]) {
      StopsAtOnce(c, Advance(c, l, turns[0]), turns[1..], k - 1);
      assert turns[..k][0] == turns[0] && turns[..k][1..] == turns[1..][..k - 1];
    }
  }

  /** Nothing else ends it. */
  lemma GoesOn(c: Config, first: seq<Sight>, turns: seq<Turn>, k: nat, now: Time)
    requires Ticks(now, turns) && k <= |turns|
    requires forall j :: 0 <= j < k ==> !turns[j].stop && !turns[j].message.Disconnected?
    ensures Run(c, Start(c, first), turns) == Run(c, Run(c, Start(c, first), turns[..k]), turns[k..])
  {
    StartIsSound(c, first, now);
    RunInTwo(c, Start(c, first), turns, k, now);
  }

  /** The `k`-th wait of a run is the one of turn `k`, which is reached. */
  lemma {:induction false} WaitOfTurn(c: Config, l: Loop, turns: seq<Turn>, k: nat)
    requires Shaped(c, l) && k < |Waits(c, l, turns)|
    ensures k < |turns| && forall j :: 0 <= j < k ==> !Ends(turns[j])
    ensures Waits(c, l, turns)[k] == Patience(c, Run(c, l, turns[..k]).pending, turns[k].asked)
    decreases turns
  {
    if k == 0 {
      assert turns[..0] == [];
    } else {
      var l1, rest := Advance(c, l, turns[0]), turns[1..];
      WaitOfTurn(c, l1, rest, k - 1);
      assert turns[..k][0] == turns[0] && turns[..k][1..] == rest[..k - 1];
      forall j | 0 <= j < k
        ensures !Ends(turns[j])
      {
        assert j > 0 ==> turns[j] == rest[j - 1];
      }
    }
  }

  /** In every run, `recv_timeout` is asked to wait for a second while nothing is pending, and
      else until the deadline of what is, or not at all if that has passed. */
  lemma WaitsUntilDeadline(c: Config, first: seq<Sight>, turns: seq<Turn>, now: Time, k: nat)
    requires Ticks(now, turns) && k < |Waits(c, Start(c, first), turns)|
    ensures k < |turns|
    ensures var wait, asked := Waits(c, Start(c, first), turns)[k], turns[k].asked;
            match Run(c, Start(c, first), turns[..k]).pending
            case None => wait == 1_000_000_000
            case Some(at) => if at + c.debounce <= asked then wait == 0 else asked + wait == at + c.debounce
  {
    WaitOfTurn(c, Start(c, first), turns, k);
    StartIsSound(c, first, now);
    RunInTwo(c, Start(c, first), turns, k, now);
    assert turns[k..][0] == turns[k];
  }
}
