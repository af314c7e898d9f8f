/** The event stream agrees with `list`. */
module SupervisorEvents {
  import opened Options
  import opened SupervisorModel
  import opened SupervisorInvariants
  import opened SupervisorTasks

  /** The last state announced for a name, if any. */
  function Replay(events: seq<Event>, n: Name): Option<ModuleState>
  {
    if events == [] then None
    else
      var e := events[|events| - 1];
      if e.StateChanged? && e.name == n then Some(e.state) else Replay(events[..|events| - 1], n)
  }

  /** A watcher reads no announcement, `disabled` and `stopped` alike as disabled. */
  function Shown(r: Option<ModuleState>): ModuleState
  {
    match r
    case None => Disabled
    case Some(st) => if st == Stopped then Disabled else st
  }

  /** A failed restart of `n` has announced `Initializing` but not yet reported. */
  ghost predicate MidRestart(s: State, n: Name)
  {
    exists id :: id in s.tasks && s.tasks[id] == Report(n, true)
  }

  ghost predicate Agrees(s: State, n: Name)
  {
    var r := Replay(s.events, n);
    if n !in s.loaded then Shown(r) == Disabled
    else r == Some(s.loaded[n].state) || (r == Some(Initializing) && MidRestart(s, n))
  }

  ghost predicate AllAgree(s: State)
  {
    forall n :: Agrees(s, n)
  }

  // ---- replaying an appended event ----

  /** Events about `n` alone: what a section appends to the stream. */
  ghost predicate Appends(s: State, s': State, n: Name, last: Option<ModuleState>)
  {
    forall m :: Replay(s'.events, m) == if m == n && last.Some? then last else Replay(s.events, m)
  }

  lemma AppendsOne(s: State, s': State, e: Event)
    requires s'.events == s.events + [e]
    ensures Appends(s, s', e.name, if e.StateChanged? then Some(e.state) else None)
  {
  }

  lemma AppendsTwo(s: State, s': State, e: Event, f: Event)
    requires s'.events == s.events + [e] + [f] && e.name == f.name
    ensures Appends(s, s', e.name,
      if f.StateChanged? then Some(f.state) else if e.StateChanged? then Some(e.state) else None)
  {
  }

  // ---- the sections ----

  /** Other modules keep their agreement when their entry, tasks and announcements are untouched. */
  lemma OthersAgree(s: State, s': State, n: Name, last: Option<ModuleState>)
    requires (forall m :: m != n ==> Agrees(s, m)) && Appends(s, s', n, last)
    requires forall m :: m != n ==> Untouched(s, s', m)
    ensures forall m :: m != n ==> Agrees(s', m)
  {
    forall m | m != n ensures Agrees(s', m) {
      assert Agrees(s, m) && Untouched(s, s', m);
      if m in s.loaded && MidRestart(s, m) {
        var id :| id in s.tasks && s.tasks[id] == Report(m, true);
        assert id in TasksOf(s, m) && id in TasksOf(s', m);
      }
    }
  }

  lemma LoadAgrees(s: State, n: Name, o: Outcome, saved: bool)
    requires Inv(s) && AllAgree(s)
    ensures AllAgree(DoLoad(s, n, o, saved))
  {
    var s' := DoLoad(s, n, o, saved);
    forall m | m != n ensures Untouched(s, s', m) { UntouchedLoad(s, n, o, saved, m); }
    assert Agrees(s, n);
    if n in s.loaded || o.NotFound? || o.LoadError? {
    } else if o.DispenseError? {
      OthersAgree(s, s', n, None);
    } else if o.Success? {
      AppendsTwo(s, s', StateChanged(n, Initializing, false), StateChanged(n, Running, false));
      OthersAgree(s, s', n, Some(Running));
    } else {
      var mid := Publish(s, n, Initializing);
      AppendsOne(s, mid, StateChanged(n, Initializing, false));
      AppendsTwo(mid, s', ErrorRaised(n), StateChanged(n, Disabled, false));
      OthersAgree(s, s', n, Some(Disabled));
    }
  }

  lemma StopAgrees(s: State, n: Name)
    requires Inv(s) && AllAgree(s)
    ensures AllAgree(StopLocked(s, n))
  {
    if n in s.loaded {
      var s' := StopLocked(s, n);
      forall m | m != n ensures Untouched(s, s', m) {
      }
      OthersAgree(s, s', n, Some(Stopped));
    }
  }

  lemma {:induction false} StopAllAgrees(s: State, order: seq<Name>)
    requires Inv(s) && AllAgree(s)
    ensures AllAgree(StopAll(s, order))
    decreases |order|
  {
    if order != [] {
      StopKeeps(s, order[0]);
      StopAgrees(s, order[0]);
      StopAllAgrees(StopLocked(s, order[0]), order[1..]);
    }
  }

  /** Reporting a failure always announces the state it leaves the module in. */
  lemma ReportAppends(s: State, n: Name, delay: nat)
    requires n in s.loaded
    ensures var s' := DoReport(s, n, delay); n in s'.loaded && Appends(s, s', n, Some(s'.loaded[n].state))
  {
    var s' := DoReport(s, n, delay);
    if Carried(s, s.loaded[n]) + 1 >= s.cfg.maxRestarts {
    } else {
      AppendsOne(s, s', StateChanged(n, Degraded, true));
    }
  }

  lemma ReportAgrees(s: State, n: Name, delay: nat)
    requires Inv(s) && n in s.loaded && forall m :: m != n ==> Agrees(s, m)
    ensures AllAgree(DoReport(s, n, delay))
  {
    var s' := DoReport(s, n, delay);
    forall m | m != n ensures Untouched(s, s', m) { UntouchedReport(s, n, delay, m); }
    ReportAppends(s, n, delay);
    OthersAgree(s, s', n, Some(s'.loaded[n].state));
  }

  /** Touching only a task that is not a pending report, or turning one into it. */
  lemma TasksOnlyAgree(s: State, s': State)
    requires AllAgree(s) && s'.events == s.events && s'.loaded == s.loaded
    requires forall id :: id in s.tasks && s.tasks[id].Report? ==> id in s'.tasks && s'.tasks[id] == s.tasks[id]
    ensures AllAgree(s')
  {
    forall m ensures Agrees(s', m) { assert Agrees(s, m); }
  }

  lemma ActAgrees(s: State, n: Name, level: Health, delay: nat)
    requires Inv(s) && AllAgree(s)
    ensures AllAgree(ActOnHealth(s, n, level, delay))
  {
    if n in s.loaded {
      var st := if level.Impaired? then Degraded else Running;
      if level.Unhealthy? {
        ReportAgrees(s, n, delay);
      } else if ActOnHealth(s, n, level, delay) != s {
        SetStateAgrees(s, n, st);
      }
    }
  }

  lemma SetStateAgrees(s: State, n: Name, st: ModuleState)
    requires AllAgree(s) && n in s.loaded
    ensures AllAgree(Publish(SetEntry(s, n, s.loaded[n].(state := st)), n, st))
  {
    var s' := Publish(SetEntry(s, n, s.loaded[n].(state := st)), n, st);
    OthersAgree(s, s', n, Some(st));
  }

  lemma ProbeAgrees(s: State, id: nat, level: Health, delay: nat)
    requires Inv(s) && AllAgree(s) && id in s.tasks && s.tasks[id].Poll?
    ensures AllAgree(DoProbe(s, id, level, delay))
  {
    ActAgrees(s, s.tasks[id].name, level, delay);
    ActTasks(s, s.tasks[id].name, level, delay);
    TasksOnlyAgree(ActOnHealth(s, s.tasks[id].name, level, delay), DoProbe(s, id, level, delay));
  }

  lemma FireAgrees(s: State, id: nat, o: Outcome)
    requires Inv(s) && AllAgree(s) && id in s.tasks && s.tasks[id].Restart?
    ensures AllAgree(DoFire(s, id, o))
  {
    var n := s.tasks[id].name;
    var s' := DoFire(s, id, o);
    if n !in s.loaded || o.NotFound? || o.LoadError? || o.DispenseError? {
      TasksOnlyAgree(s, s');
    } else {
      forall m | m != n ensures Untouched(s, s', m) { UntouchedFire(s, id, o, m); }
      if o.Success? {
        AppendsTwo(s, s', StateChanged(n, Initializing, false), StateChanged(n, Running, false));
        OthersAgree(s, s', n, Some(Running));
      } else {
        AppendsOne(s, s', StateChanged(n, Initializing, false));
        OthersAgree(s, s', n, Some(Initializing));
        assert s'.tasks[id] == Report(n, true);
      }
    }
  }

  lemma ReportFailedAgrees(s: State, id: nat, delay: nat)
    requires Inv(s) && AllAgree(s) && id in s.tasks && s.tasks[id].Report?
    ensures AllAgree(DoReportFailed(s, id, delay))
  {
    var n := s.tasks[id].name;
    var s0 := PublishError(s, n);
    var s1 := EndTask(s0, id);
    FrameKeeps(s, s0);
    EndKeeps(s0, id);
    forall m | m != n ensures Untouched(s, s1, m) { UntouchedTask(s, id, s.tasks[id], m); }
    OthersAgree(s, s1, n, None);
    if n in s.loaded {
      ReportAgrees(s1, n, delay);
    } else {
      assert Agrees(s, n);
    }
  }

  lemma StepAgrees(s: State, l: Label)
    requires Inv(s) && AllAgree(s) && Possibly(s, l)
    ensures AllAgree(Apply(s, l))
  {
    hide Inv, AllAgree, DoLoad, DoUnload, DoProbe, DoFire, DoReportFailed, StopAll;
    match l
    case Load(n, o, saved) => LoadAgrees(s, n, o, saved);
    case Unload(n, saved) => UnloadAgrees(s, n, saved);
    case ReadEnabled => TasksOnlyAgree(s, Apply(s, l));
    case AdoptEnabled(_) => TasksOnlyAgree(s, Apply(s, l));
    case CancelLife => TasksOnlyAgree(s, Apply(s, l));
    case StopEverything => StopAllAgrees(s, Lifo(s.loaded));
    case Tick(_) => TasksOnlyAgree(s, Apply(s, l));
    case Wake(id) => TasksOnlyAgree(s, Apply(s, l));
    case Probe(id, level, delay) => ProbeAgrees(s, id, level, delay);
    case ExitPoll(id) => TasksOnlyAgree(s, Apply(s, l));
    case Fire(id, o) => FireAgrees(s, id, o);
    case Abandon(id) => TasksOnlyAgree(s, Apply(s, l));
    case ReportFailed(id, delay) => ReportFailedAgrees(s, id, delay);
  }

  lemma UnloadAgrees(s: State, n: Name, saved: bool)
    requires Inv(s) && AllAgree(s)
    ensures AllAgree(DoUnload(s, n, saved))
  {
    hide Inv, AllAgree, StopLocked;
    StopAgrees(s, n);
    if n in s.loaded { TasksOnlyAgree(StopLocked(s, n), DoUnload(s, n, saved)); }
  }

  lemma {:induction false} RunAgrees(cfg: Config, disk: Disk, run: seq<Label>)
    requires Legal(Init(cfg, disk), run)
    ensures AllAgree(After(Init(cfg, disk), run))
    decreases |run|
  {
    hide Apply;
    if run != [] {
      var k := |run| - 1;
      RunAgrees(cfg, disk, run[..k]);
      RunInv(cfg, disk, run[..k]);
      StepAgrees(After(Init(cfg, disk), run[..k]), run[k]);
    }
  }

  /** In every run, replaying the state events of a name gives what `list` reports for it, unless a
      failed restart of it has announced `Initializing` and still has to report. */
  lemma EventsMatchList(cfg: Config, disk: Disk, run: seq<Label>, n: Name)
    requires Legal(Init(cfg, disk), run)
    ensures var s := After(Init(cfg, disk), run); var r := Replay(s.events, n);
      Shown(r) == Listed(s, n) || (n in s.loaded && r == Some(Initializing) && MidRestart(s, n))
  {
    RunAgrees(cfg, disk, run);
    RunInv(cfg, disk, run);
    var s := After(Init(cfg, disk), run);
    assert Agrees(s, n);
    if n in s.loaded { assert SoundEntry(s, n, s.loaded[n]); }
  }
}
