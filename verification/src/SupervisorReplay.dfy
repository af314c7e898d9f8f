/** Exactly when a watcher of the events and a reader of `list` disagree. */
module SupervisorReplay {
  import opened Options
  import opened SupervisorModel
  import opened SupervisorInvariants
  import opened SupervisorTasks
  import opened SupervisorSituations
  import opened SupervisorEvents

  // ---- a step announces only its own module ----

  /** The events that were added are all about `n`. */
  ghost predicate AboutOnly(s: State, s': State, n: Name)
  {
    && |s.events| <= |s'.events| && s'.events[..|s.events|] == s.events
    && (forall i :: |s.events| <= i < |s'.events| ==> s'.events[i].name == n)
  }

  lemma {:induction false} ReplaySkips(s: State, s': State, n: Name, m: Name)
    requires AboutOnly(s, s', n) && m != n
    ensures Replay(s'.events, m) == Replay(s.events, m)
    decreases |s'.events|
  {
    if |s'.events| == |s.events| {
      assert s'.events[..|s.events|] == s'.events;
    } else {
      var k := |s'.events| - 1;
      var t := s'.(events := s'.events[..k]);
      assert t.events[..|s.events|] == s.events;
      ReplaySkips(s, t, n, m);
    }
  }

  lemma LoadAbout(s: State, n: Name, o: Outcome, saved: bool)
    ensures AboutOnly(s, DoLoad(s, n, o, saved), n)
  {
  }

  lemma UnloadAbout(s: State, n: Name, saved: bool)
    ensures AboutOnly(s, DoUnload(s, n, saved), n)
  {
  }

  lemma ReportAbout(s: State, n: Name, delay: nat)
    ensures AboutOnly(s, DoReport(s, n, delay), n)
  {
  }

  lemma ProbeAbout(s: State, id: nat, level: Health, delay: nat)
    requires id in s.tasks && s.tasks[id].Poll?
    ensures AboutOnly(s, DoProbe(s, id, level, delay), s.tasks[id].name)
  {
    hide DoReport;
    ReportAbout(s, s.tasks[id].name, delay);
  }

  lemma FireAbout(s: State, id: nat, o: Outcome)
    requires id in s.tasks && s.tasks[id].Restart?
    ensures AboutOnly(s, DoFire(s, id, o), s.tasks[id].name)
  {
    hide Replace;
    var n := s.tasks[id].name;
    if n in s.loaded {
      var e := s.loaded[n];
      ReplaceAbout(Halt(Cancel(s, e.token), e.instance), id, n, e, o);
    }
  }

  lemma ReplaceAbout(s: State, id: nat, n: Name, e: Entry, o: Outcome)
    ensures AboutOnly(s, Replace(s, id, n, e, o), n)
  {
  }

  lemma ReportFailedAbout(s: State, id: nat, delay: nat)
    requires id in s.tasks && s.tasks[id].Report?
    ensures AboutOnly(s, DoReportFailed(s, id, delay), s.tasks[id].name)
  {
    hide DoReport;
    var n := s.tasks[id].name;
    ReportAbout(EndTask(PublishError(s, n), id), n, delay);
  }

  /** A step on another module leaves what is announced of this one. */
  lemma OthersReplay(s: State, l: Label, m: Name)
    requires Possibly(s, l) && !l.StopEverything? && Target(s, l) != Some(m)
    ensures Replay(Apply(s, l).events, m) == Replay(s.events, m)
  {
    hide Replay, AboutOnly, DoLoad, DoUnload, DoProbe, DoFire, DoReportFailed, StopAll;
    var s' := Apply(s, l);
    match l
    case Load(n, o, saved) =>
      LoadAbout(s, n, o, saved);
      ReplaySkips(s, s', n, m);
    case Unload(n, saved) =>
      UnloadAbout(s, n, saved);
      ReplaySkips(s, s', n, m);
    case Probe(id, level, delay) =>
      ProbeAbout(s, id, level, delay);
      ReplaySkips(s, s', s.tasks[id].name, m);
    case Fire(id, o) =>
      FireAbout(s, id, o);
      ReplaySkips(s, s', s.tasks[id].name, m);
    case ReportFailed(id, delay) =>
      ReportFailedAbout(s, id, delay);
      ReplaySkips(s, s', s.tasks[id].name, m);
    case ReadEnabled =>
    case AdoptEnabled(_) =>
    case CancelLife =>
    case Tick(_) =>
    case Wake(_) =>
    case ExitPoll(_) =>
    case Abandon(_) =>
  }

  // ---- while a report is pending, the last announcement is the restart's ----

  /** A restart of a loaded module whose report is pending was the last to announce anything of it. */
  ghost predicate Pending(s: State, n: Name)
  {
    n in s.loaded && MidRestart(s, n) ==> Replay(s.events, n) == Some(Initializing)
  }

  /** Only a restart that fails after announcing itself leaves a report that says so. */
  lemma FireLeavesReport(s: State, id: nat, o: Outcome)
    requires Inv(s) && id in s.tasks && s.tasks[id].Restart? && InHand(s, s.tasks[id].name)
    ensures Pending(DoFire(s, id, o), s.tasks[id].name)
  {
    var n := s.tasks[id].name;
    var s' := DoFire(s, id, o);
    if n in s.loaded {
      assert id in TasksOf(s, n);
      FireInHand(s, id, o);
      FireEvents(s, id, o);
      hide DoFire;
      if MidRestart(s', n) {
        var k :| k in s'.tasks && s'.tasks[k] == Report(n, true);
        SoleTask(s', n, k);
      }
    }
  }

  lemma FireEvents(s: State, id: nat, o: Outcome)
    requires id in s.tasks && s.tasks[id].Restart? && s.tasks[id].name in s.loaded
    ensures var n := s.tasks[id].name; var s' := DoFire(s, id, o);
      if o.InitError? || o.StartError? then Replay(s'.events, n) == Some(Initializing)
      else if o.Success? then n in s'.loaded && s'.loaded[n].state == Running
      else id in s'.tasks && s'.tasks[id] == Report(n, false)
  {
    var n := s.tasks[id].name;
    var s' := DoFire(s, id, o);
    if o.InitError? || o.StartError? { AppendsOne(s, s', StateChanged(n, Initializing, false)); }
  }

  /** In hand, a module with a task that is no health loop has only that one, and is degraded. */
  lemma SoleTask(s: State, n: Name, id: nat)
    requires InHand(s, n) && n in s.loaded && id in s.tasks && s.tasks[id].name == n && !s.tasks[id].Poll?
    ensures s.loaded[n].state == Degraded && forall k :: k in s.tasks && s.tasks[k].name == n ==> k == id
  {
    assert id in TasksOf(s, n);
    forall k | k in s.tasks && s.tasks[k].name == n ensures k == id { assert k in TasksOf(s, n); }
  }

  /** And one with a health loop has only that. */
  lemma SolePoll(s: State, n: Name, id: nat)
    requires InHand(s, n) && n in s.loaded && id in s.tasks && s.tasks[id].name == n && s.tasks[id].Poll?
    ensures forall k :: k in s.tasks && s.tasks[k].name == n ==> k == id
  {
    assert id in TasksOf(s, n);
    forall k | k in s.tasks && s.tasks[k].name == n ensures k == id { assert k in TasksOf(s, n); }
  }

  lemma StepPending(s: State, l: Label, n: Name)
    requires Inv(s) && Possibly(s, l) && Quiet(s, l) && s.cfg.maxRestarts >= 1 && Situated(s) && Pending(s, n)
    requires !Apply(s, l).lifeCancelled
    ensures Pending(Apply(s, l), n)
  {
    hide Inv, Situated, Apply, Pending, Possibly;
    StepSituated(s, l);
    if Target(s, l) != Some(n) {
      OthersPending(s, l, n);
    } else {
      OwnPending(s, l, n);
    }
  }

  lemma OthersPending(s: State, l: Label, n: Name)
    requires Inv(s) && Possibly(s, l) && !l.StopEverything? && Target(s, l) != Some(n) && Pending(s, n)
    ensures Pending(Apply(s, l), n)
  {
    hide Inv, Apply, Possibly, Replay;
    StepLocal(s, l, n);
    OthersReplay(s, l, n);
    var s' := Apply(s, l);
    if MidRestart(s', n) {
      var id :| id in s'.tasks && s'.tasks[id] == Report(n, true);
      assert id in TasksOf(s', n) && id in TasksOf(s, n);
    }
  }

  lemma OwnPending(s: State, l: Label, n: Name)
    requires Inv(s) && Possibly(s, l) && Quiet(s, l) && s.cfg.maxRestarts >= 1 && !s.lifeCancelled
    requires Target(s, l) == Some(n) && Situated(s) && Situated(Apply(s, l)) && Pending(s, n)
    ensures Pending(Apply(s, l), n)
  {
    hide Inv, DoLoad, DoUnload, DoProbe, DoFire, DoReportFailed, StopAll, Replay;
    var s' := Apply(s, l);
    if n in s.loaded { assert InHand(s, n); }
    if n in s'.loaded { assert InHand(s', n); }
    hide Situated, InHand;
    match l
    case Fire(id, o) =>
      if n !in s.loaded { GoneInHand(s, n); }
      FireLeavesReport(s, id, o);
    case Load(_, o, saved) => LoadPending(s, n, o, saved);
    case Unload(_, saved) => UnloadRemoves(s, l);
    case Wake(id) => PollPending(s, id, s');
    case Probe(id, level, delay) => ProbePending(s, id, level, delay);
    case ExitPoll(id) => PollPending(s, id, s');
    case ReportFailed(id, delay) => ReportPending(s, id, delay);
  }

  /** A loaded module stays as it is; a start is followed by a health loop alone. */
  lemma LoadPending(s: State, n: Name, o: Outcome, saved: bool)
    requires Inv(s) && Pending(s, n) && (n !in s.loaded && o.Success? ==> TasksOf(s, n) == {})
    ensures Pending(DoLoad(s, n, o, saved), n)
  {
    hide Replay, Inv;
    var s' := DoLoad(s, n, o, saved);
    LoadSpawns(s, n, o, saved);
    if n !in s.loaded && o.Success? {
      forall id | id in s.tasks ensures s.tasks[id].name != n { assert id !in TasksOf(s, n); }
      hide DoLoad;
    }
  }

  /** A module with a health loop has no report pending. */
  lemma PollPending(s: State, id: nat, s': State)
    requires id in s.tasks && s.tasks[id].Poll? && (s.tasks[id].name in s.loaded ==> InHand(s, s.tasks[id].name))
    requires s'.loaded == s.loaded
    requires forall k :: k in s'.tasks && s'.tasks[k].Report? ==> k in s.tasks && s.tasks[k] == s'.tasks[k]
    ensures Pending(s', s.tasks[id].name)
  {
    hide Replay, InHand;
    if s.tasks[id].name in s.loaded { SolePoll(s, s.tasks[id].name, id); }
  }

  lemma ProbePending(s: State, id: nat, level: Health, delay: nat)
    requires Inv(s) && id in s.tasks && s.tasks[id].Poll?
    requires s.tasks[id].name in s.loaded ==> InHand(s, s.tasks[id].name)
    ensures Pending(DoProbe(s, id, level, delay), s.tasks[id].name)
  {
    hide DoProbe, Replay, Inv, InHand;
    ProbeReports(s, id, level, delay);
    if s.tasks[id].name in s.loaded { SolePoll(s, s.tasks[id].name, id); }
  }

  lemma ProbeReports(s: State, id: nat, level: Health, delay: nat)
    requires id in s.tasks && s.tasks[id].Poll?
    ensures var s' := DoProbe(s, id, level, delay);
      && s'.loaded.Keys == s.loaded.Keys
      && (forall k :: k in s'.tasks && s'.tasks[k].Report? ==> k in s.tasks && s.tasks[k] == s'.tasks[k])
  {
    hide DoReport;
    ReportReports(s, s.tasks[id].name, delay);
  }

  lemma ReportReports(s: State, n: Name, delay: nat)
    ensures var s' := DoReport(s, n, delay);
      && s'.loaded.Keys == s.loaded.Keys
      && (forall k :: k in s'.tasks && s'.tasks[k].Report? ==> k in s.tasks && s.tasks[k] == s'.tasks[k])
  {
  }

  lemma ReportPending(s: State, id: nat, delay: nat)
    requires Inv(s) && id in s.tasks && s.tasks[id].Report?
    requires s.tasks[id].name in s.loaded ==> InHand(s, s.tasks[id].name)
    ensures Pending(DoReportFailed(s, id, delay), s.tasks[id].name)
  {
    hide DoReportFailed, Replay, Inv, InHand;
    ReportEnds(s, id, delay);
    if s.tasks[id].name in s.loaded { SoleTask(s, s.tasks[id].name, id); }
  }

  lemma ReportEnds(s: State, id: nat, delay: nat)
    requires id in s.tasks && s.tasks[id].Report?
    ensures var s' := DoReportFailed(s, id, delay);
      && s'.loaded.Keys == s.loaded.Keys
      && (forall k :: k in s'.tasks && s'.tasks[k].Report? ==> k != id && k in s.tasks && s.tasks[k] == s'.tasks[k])
  {
    hide DoReport;
    var n := s.tasks[id].name;
    ReportReports(EndTask(PublishError(s, n), id), n, delay);
  }

  lemma {:induction false} RunPending(cfg: Config, disk: Disk, run: seq<Label>, n: Name)
    requires cfg.maxRestarts >= 1 && Legal(Init(cfg, disk), run) && QuietRun(Init(cfg, disk), run)
    requires !After(Init(cfg, disk), run).lifeCancelled
    ensures Pending(After(Init(cfg, disk), run), n)
    decreases |run|
  {
    if run != [] {
      hide Apply, Inv, Situated, Possibly, Pending;
      var k := |run| - 1;
      var s := After(Init(cfg, disk), run[..k]);
      LifeOnlyCancelled(s, run[k]);
      InitInv(cfg, disk);
      InitSituated(cfg, disk);
      RunInv(cfg, disk, run[..k]);
      RunSituated(Init(cfg, disk), run[..k]);
      RunPending(cfg, disk, run[..k], n);
      StepPending(s, run[k], n);
    }
  }

  /** In quiescent runs before shutdown, replaying a name's state events and listing it disagree if and
      only if it is loaded and a restart of it has announced itself, failed, and not reported yet. */
  lemma DisagreeIffMidRestart(cfg: Config, disk: Disk, run: seq<Label>, n: Name)
    requires cfg.maxRestarts >= 1 && Legal(Init(cfg, disk), run) && QuietRun(Init(cfg, disk), run)
    requires !After(Init(cfg, disk), run).lifeCancelled
    ensures var s := After(Init(cfg, disk), run);
      Shown(Replay(s.events, n)) != Listed(s, n) <==> n in s.loaded && MidRestart(s, n)
  {
    hide Apply, Situated, Possibly, Legal, After, Replay;
    var s := After(Init(cfg, disk), run);
    EventsMatchList(cfg, disk, run, n);
    RunPending(cfg, disk, run, n);
    RunInv(cfg, disk, run);
    if n in s.loaded { assert SoundEntry(s, n, s.loaded[n]); }
  }
}
