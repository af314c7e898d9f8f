/** When a module that was parked as failed can leave that state without being unloaded. */
module SupervisorFailed {
  import opened Options
  import opened SupervisorModel
  import opened SupervisorInvariants
  import opened SupervisorTasks
  import opened SupervisorSituations
  import Backoff

  /** A continuation that neither unloads `n` nor shuts down, and finds `n` loaded and not failed. */
  ghost predicate Leaves(s: State, run: seq<Label>, n: Name)
  {
    && Legal(s, run)
    && (forall i :: 0 <= i < |run| ==> !run[i].StopEverything? && !(run[i].Unload? && run[i].name == n))
    && n in After(s, run).loaded && After(s, run).loaded[n].state != Failed
  }

  // ---- without tasks it stays ----

  lemma {:induction false} UnattendedRunStays(s: State, run: seq<Label>, n: Name)
    requires Inv(s) && Legal(s, run) && n in s.loaded && TasksOf(s, n) == {}
    requires forall i :: 0 <= i < |run| ==> !run[i].StopEverything? && !(run[i].Unload? && run[i].name == n)
    ensures var s' := After(s, run); n in s'.loaded && s'.loaded[n] == s.loaded[n] && TasksOf(s', n) == {}
    decreases |run|
  {
    hide Apply, Inv, Possibly, TasksOf;
    if run != [] {
      var k := |run| - 1;
      UnattendedRunStays(s, run[..k], n);
      RunKeeps(s, run[..k]);
      UnattendedStays(After(s, run[..k]), run[k], n);
    }
  }

  // ---- with any task it can leave ----

  lemma TwoSteps(s: State, l: Label, m: Label)
    requires Possibly(s, l) && Possibly(Apply(s, l), m)
    ensures Legal(s, [l, m]) && After(s, [l, m]) == Apply(Apply(s, l), m)
  {
    Extend(s, [], l);
    Extend(s, [] + [l], m);
    assert [] + [l] + [m] == [l, m];
  }

  /** A health loop that sees the module degraded. */
  lemma PollLeaves(s: State, id: nat)
    requires id in s.tasks && s.tasks[id].Poll? && s.tasks[id].name in s.loaded
    ensures exists run :: Leaves(s, run, s.tasks[id].name)
  {
    hide Legal, After, DoLoad, DoUnload, DoProbe, DoFire, DoReportFailed, StopAll;
    var n := s.tasks[id].name;
    var probe := Probe(id, Impaired, 0);
    EmptyRun(s);
    if s.tasks[id].probing {
      ProbeDegrades(s, id);
      Extend(s, [], probe);
      assert Leaves(s, [] + [probe], n);
    } else {
      ProbeDegrades(Apply(s, Wake(id)), id);
      TwoSteps(s, Wake(id), probe);
      assert Leaves(s, [Wake(id), probe], n);
    }
  }

  lemma ProbeDegrades(s: State, id: nat)
    requires id in s.tasks && s.tasks[id].Poll? && s.tasks[id].name in s.loaded
    ensures var s' := DoProbe(s, id, Impaired, 0); var n := s.tasks[id].name;
      n in s'.loaded && s'.loaded[n].state == Degraded
  {
  }

  /** A restart that succeeds. */
  lemma RestartLeaves(s: State, id: nat)
    requires Inv(s) && id in s.tasks && s.tasks[id].Restart? && s.tasks[id].name in s.loaded
    ensures exists run :: Leaves(s, run, s.tasks[id].name)
  {
    hide Inv, Legal, After, DoLoad, DoUnload, DoProbe, DoFire, DoReportFailed, StopAll;
    var n := s.tasks[id].name;
    var wait, fire := Tick(s.tasks[id].due), Fire(id, Success);
    LoadedFacts(s, n);
    FireRuns(s.(now := s.now + s.tasks[id].due), id);
    TwoSteps(s, wait, fire);
    assert Leaves(s, [wait, fire], n);
  }

  lemma LoadedFacts(s: State, n: Name)
    requires Inv(s) && n in s.loaded
    ensures Possible(s.cfg, n, Success) && s.loaded[n].startedAt <= s.now
  {
    assert SoundEntry(s, n, s.loaded[n]);
  }

  lemma FireRuns(s: State, id: nat)
    requires id in s.tasks && s.tasks[id].Restart? && s.tasks[id].name in s.loaded
    ensures var s' := DoFire(s, id, Success); var n := s.tasks[id].name;
      n in s'.loaded && s'.loaded[n].state == Running
  {
  }

  /** A failed restart that reports after the window, so that it is the first failure of a fresh budget. */
  lemma ReportLeaves(s: State, id: nat)
    requires Inv(s) && s.cfg.maxRestarts >= 2
    requires id in s.tasks && s.tasks[id].Report? && s.tasks[id].name in s.loaded
    ensures exists run :: Leaves(s, run, s.tasks[id].name)
  {
    hide Inv, Legal, After, DoLoad, DoUnload, DoProbe, DoFire, DoReportFailed, StopAll;
    hide Backoff.RandomDelay;
    var n := s.tasks[id].name;
    var delay := AnyDelay();
    LoadedFacts(s, n);
    var wait, report := Tick(s.cfg.window), ReportFailed(id, delay);
    ReportDegrades(s.(now := s.now + s.cfg.window), id, delay);
    TwoSteps(s, wait, report);
    assert Leaves(s, [wait, report], n);
  }

  lemma AnyDelay() returns (delay: nat)
    ensures Backoff.RandomDelay(0, delay)
  {
    delay := Backoff.DelayFor(0, Some(0.0));
  }

  lemma ReportDegrades(s: State, id: nat, delay: nat)
    requires id in s.tasks && s.tasks[id].Report? && s.tasks[id].name in s.loaded && s.cfg.maxRestarts >= 2
    requires Carried(s, s.loaded[s.tasks[id].name]) == 0
    ensures var s' := DoReportFailed(s, id, delay); var n := s.tasks[id].name;
      n in s'.loaded && s'.loaded[n].state == Degraded
  {
  }

  // ---- restarts are scheduled only under a budget of two or more ----

  ghost predicate RestartsNeedBudget(s: State)
  {
    s.cfg.maxRestarts <= 1 ==> forall id :: id in s.tasks ==> s.tasks[id].Poll?
  }

  lemma StepNeedsBudget(s: State, l: Label)
    requires RestartsNeedBudget(s) && Possibly(s, l)
    ensures RestartsNeedBudget(Apply(s, l))
  {
    CfgFixed(s, l);
    hide DoLoad, DoUnload, DoProbe, DoFire, DoReportFailed, StopAll;
    match l
    case Load(n, o, saved) => LoadSpawns(s, n, o, saved);
    case StopEverything => StopAllTasks(s, Lifo(s.loaded));
    case Probe(id, level, delay) => ProbeNeedsBudget(s, id, level, delay);
    case Unload(n, saved) => assert Apply(s, l).tasks == s.tasks by { UnloadTasks(s, n, saved); }
    case ReadEnabled =>
    case AdoptEnabled(_) =>
    case CancelLife =>
    case Tick(_) =>
    case Wake(_) =>
    case ExitPoll(_) =>
    case Fire(_, _) =>
    case Abandon(_) =>
    case ReportFailed(_, _) =>
  }

  lemma ProbeNeedsBudget(s: State, id: nat, level: Health, delay: nat)
    requires RestartsNeedBudget(s) && id in s.tasks && s.tasks[id].Poll?
    ensures RestartsNeedBudget(DoProbe(s, id, level, delay))
  {
  }

  lemma {:induction false} RunNeedsBudget(cfg: Config, disk: Disk, run: seq<Label>)
    requires Legal(Init(cfg, disk), run)
    ensures RestartsNeedBudget(After(Init(cfg, disk), run)) && After(Init(cfg, disk), run).cfg == cfg
    decreases |run|
  {
    hide Apply, Possibly;
    if run != [] {
      var k := |run| - 1;
      RunNeedsBudget(cfg, disk, run[..k]);
      StepNeedsBudget(After(Init(cfg, disk), run[..k]), run[k]);
      CfgFixed(After(Init(cfg, disk), run[..k]), run[k]);
    }
  }

  /** In every reachable state, quiescent reload or not, a failed module can get out of that state
      without an unload or a shutdown if and only if some task for its name is still there. */
  lemma FailedLeftIffTasks(cfg: Config, disk: Disk, run: seq<Label>, n: Name)
    requires cfg.maxRestarts >= 1 && Legal(Init(cfg, disk), run)
    requires var s := After(Init(cfg, disk), run); n in s.loaded && s.loaded[n].state == Failed
    ensures var s := After(Init(cfg, disk), run);
      (exists more :: Leaves(s, more, n)) <==> TasksOf(s, n) != {}
  {
    var s := After(Init(cfg, disk), run);
    RunInv(cfg, disk, run);
    RunNeedsBudget(cfg, disk, run);
    hide Inv, Legal, After, Apply;
    if TasksOf(s, n) == {} {
      forall more | Leaves(s, more, n) ensures false { UnattendedRunStays(s, more, n); }
    } else {
      var id :| id in TasksOf(s, n);
      match s.tasks[id]
      case Poll(_, _, _, _) => PollLeaves(s, id);
      case Restart(_, _) => RestartLeaves(s, id);
      case Report(_, _) => ReportLeaves(s, id);
    }
  }
}
