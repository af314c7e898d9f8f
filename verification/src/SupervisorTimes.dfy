/** When modules started and when restarts fall due, told from the run. */
module SupervisorTimes {
  import opened Options
  import opened SupervisorModel
  import opened SupervisorInvariants
  import opened SupervisorTasks
  import opened SupervisorShutdown
  import opened SupervisorEffects
  import Backoff

  /** The step reports a failure of the loaded module `n`. */
  predicate FailureOf(s: State, l: Label, n: Name)
  {
    && n in s.loaded
    && ((l.Probe? && l.level.Unhealthy?) || l.ReportFailed?)
    && l.task in s.tasks && s.tasks[l.task].name == n
  }

  /** The step is a restart of `n` that succeeds. */
  predicate RestartsOk(s: State, l: Label, n: Name)
  {
    n in s.loaded && l.Fire? && l.outcome.Success? && l.task in s.tasks && s.tasks[l.task].name == n
  }

  // ---- start times ----

  /** The time of the last load or restart in the run that started `n`. */
  ghost function LastStart(s0: State, run: seq<Label>, n: Name): nat
    requires Legal(s0, run)
    decreases |run|
  {
    if run == [] then 0
    else
      var k := |run| - 1;
      NextStart(After(s0, run[..k]), run[k], n, LastStart(s0, run[..k], n))
  }

  function NextStart(s: State, l: Label, n: Name, last: nat): nat
  {
    if Starts(s, l, n) || RestartsOk(s, l, n) then s.now else last
  }

  /** A load stores the time it starts the module at. */
  lemma StartStamps(s: State, l: Label, n: Name)
    requires Possibly(s, l) && Starts(s, l, n)
    ensures n in Apply(s, l).loaded && Apply(s, l).loaded[n].startedAt == s.now
  {
    hide DoLoad, DoUnload, DoProbe, DoFire, DoReportFailed, StopAll;
    StartEffect(s, n, l.saved);
  }

  lemma ReportStamp(s: State, n: Name, delay: nat)
    requires n in s.loaded
    ensures var s' := DoReport(s, n, delay); n in s'.loaded && s'.loaded[n].startedAt == s.loaded[n].startedAt
  {
    hide DoReport;
    ReportEffect(s, n, delay);
  }

  lemma ProbeStamp(s: State, id: nat, level: Health, delay: nat)
    requires id in s.tasks && s.tasks[id].Poll? && s.tasks[id].name in s.loaded
    ensures var s' := DoProbe(s, id, level, delay); var n := s.tasks[id].name;
      n in s'.loaded && s'.loaded[n].startedAt == s.loaded[n].startedAt
  {
    hide DoReport;
    ReportStamp(s, s.tasks[id].name, delay);
  }

  lemma ReportFailedStamp(s: State, id: nat, delay: nat)
    requires id in s.tasks && s.tasks[id].Report? && s.tasks[id].name in s.loaded
    ensures var s' := DoReportFailed(s, id, delay); var n := s.tasks[id].name;
      n in s'.loaded && s'.loaded[n].startedAt == s.loaded[n].startedAt
  {
    hide DoReport;
    var n := s.tasks[id].name;
    ReportStamp(EndTask(PublishError(s, n), id), n, delay);
  }

  lemma FireStamp(s: State, id: nat, o: Outcome)
    requires id in s.tasks && s.tasks[id].Restart? && s.tasks[id].name in s.loaded
    ensures var s' := DoFire(s, id, o); var n := s.tasks[id].name;
      n in s'.loaded && s'.loaded[n].startedAt == if o.Success? then s.now else s.loaded[n].startedAt
  {
    hide DoFire;
    if o.Success? { RestartEffect(s, id); } else { FailedRestartEffect(s, id, o); }
  }

  lemma LoadStamp(s: State, n: Name, o: Outcome, saved: bool)
    requires n in s.loaded
    ensures DoLoad(s, n, o, saved) == s
  {
  }

  /** Only a restart that succeeds moves the start time of a module that stays loaded. */
  lemma StepStamp(s: State, l: Label, n: Name)
    requires Inv(s) && Possibly(s, l) && !l.StopEverything? && n in s.loaded && n in Apply(s, l).loaded
    ensures Apply(s, l).loaded[n].startedAt == if RestartsOk(s, l, n) then s.now else s.loaded[n].startedAt
  {
    hide Inv, DoLoad, DoUnload, DoProbe, DoFire, DoReportFailed, StopAll;
    if Target(s, l) != Some(n) {
      StepLocal(s, l, n);
    } else {
      match l
      case Load(_, o, saved) => LoadStamp(s, n, o, saved);
      case Unload(_, _) => StepNames(s, l);
      case Probe(id, level, delay) => ProbeStamp(s, id, level, delay);
      case Fire(id, o) => FireStamp(s, id, o);
      case ReportFailed(id, delay) => ReportFailedStamp(s, id, delay);
      case Wake(_) =>
      case ExitPoll(_) =>
      case Abandon(_) =>
    }
  }

  /** In every run, the start time of a loaded module is the time of the step that last started it; so
      whether a failure comes after the window depends on the time since that step. */
  lemma {:induction false} StartedAtLastStart(cfg: Config, disk: Disk, run: seq<Label>, n: Name)
    requires Legal(Init(cfg, disk), run) && n in After(Init(cfg, disk), run).loaded
    ensures After(Init(cfg, disk), run).loaded[n].startedAt == LastStart(Init(cfg, disk), run, n)
    decreases |run|
  {
    hide Apply, Inv, Possibly;
    if run != [] {
      var k := |run| - 1;
      var s := After(Init(cfg, disk), run[..k]);
      RunInv(cfg, disk, run[..k]);
      StepKeepsNothing(s, run[k]);
      if n in s.loaded {
        StartedAtLastStart(cfg, disk, run[..k], n);
        StepStamp(s, run[k], n);
      } else {
        NewlyStarted(s, run[k], n);
        StartStamps(s, run[k], n);
      }
    }
  }

  lemma StepKeepsNothing(s: State, l: Label)
    requires Possibly(s, l)
    ensures l.StopEverything? ==> Apply(s, l).loaded == map[]
  {
    hide DoLoad, DoUnload, DoProbe, DoFire, DoReportFailed;
    if l.StopEverything? { ShutdownEmpties(s); }
  }

  lemma NewlyStarted(s: State, l: Label, n: Name)
    requires Possibly(s, l) && n !in s.loaded && n in Apply(s, l).loaded
    ensures Starts(s, l, n)
  {
    hide Apply;
    if !(l.Load? && l.name == n) { StaysOut(s, l, n); } else { StepNames(s, l); }
  }

  // ---- due times ----

  /** A failure that schedules a restart makes it due after the delay it drew. */
  lemma RestartDue(s: State, l: Label, n: Name)
    requires Inv(s) && Possibly(s, l) && FailureOf(s, l, n) && Carried(s, s.loaded[n]) + 1 < s.cfg.maxRestarts
    ensures s.nextTask !in s.tasks && s.nextTask in Apply(s, l).tasks
    ensures Apply(s, l).tasks[s.nextTask] == Restart(n, s.now + l.delay)
    ensures Backoff.RandomDelay(Carried(s, s.loaded[n]), l.delay)
  {
    hide DoLoad, DoUnload, DoFire, DoReport, StopAll, Backoff.RandomDelay;
    InvBelow(s, l.task);
    NextIsFree(s);
    if l.Probe? {
      ReportEffect(s, n, l.delay);
    } else {
      ReportEffect(EndTask(PublishError(s, n), l.task), n, l.delay);
    }
  }

  lemma NextIsFree(s: State)
    requires Inv(s)
    ensures s.nextTask !in s.tasks
  {
  }

  /** The failure at step `i` of the run scheduled this restart: it drew a delay for the attempts it
      carried over, and the restart is due that long after it. */
  ghost predicate ScheduledAt(s0: State, run: seq<Label>, i: nat, id: nat, n: Name, due: nat)
  {
    && i < |run| && Legal(s0, run[..i])
    && var s := After(s0, run[..i]);
      && FailureOf(s, run[i], n) && id == s.nextTask && due == s.now + run[i].delay
      && Backoff.RandomDelay(Carried(s, s.loaded[n]), run[i].delay)
  }

  /** The restart is not one of those that were there. */
  ghost predicate NewRestart(s: State, s': State, id: nat)
  {
    id in s'.tasks && s'.tasks[id].Restart? && !(id in s.tasks && s.tasks[id] == s'.tasks[id])
  }

  lemma ReportEffects(s: State, n: Name, delay: nat)
    ensures n !in s.loaded ==> DoReport(s, n, delay) == s
    ensures n in s.loaded ==>
      DoReport(s, n, delay).tasks ==
        if Carried(s, s.loaded[n]) + 1 < s.cfg.maxRestarts then s.tasks[s.nextTask := Restart(n, s.now + delay)]
        else s.tasks
  {
  }

  /** A restart appears only by a failure that schedules it. */
  lemma OnlyFailuresSchedule(s: State, l: Label, id: nat)
    requires Inv(s) && Possibly(s, l) && NewRestart(s, Apply(s, l), id)
    ensures var n := Apply(s, l).tasks[id].name;
      && FailureOf(s, l, n) && Carried(s, s.loaded[n]) + 1 < s.cfg.maxRestarts && id == s.nextTask
      && Apply(s, l).tasks[id] == Restart(n, s.now + l.delay)
  {
    hide Inv, DoLoad, DoUnload, DoProbe, DoFire, DoReportFailed, StopAll;
    match l
    case Load(n, o, saved) => LoadSpawns(s, n, o, saved);
    case Unload(n, saved) => UnloadTasks(s, n, saved);
    case StopEverything => StopAllTasks(s, Lifo(s.loaded));
    case Probe(p, level, delay) => ProbeNew(s, p, level, delay, id);
    case Fire(f, o) => FireNew(s, f, o, id);
    case ReportFailed(r, delay) => ReportFailedNew(s, r, delay, id);
    case ReadEnabled =>
    case AdoptEnabled(_) =>
    case CancelLife =>
    case Tick(_) =>
    case Wake(_) =>
    case ExitPoll(_) =>
    case Abandon(_) =>
  }

  lemma ProbeNew(s: State, p: nat, level: Health, delay: nat, id: nat)
    requires p in s.tasks && s.tasks[p].Poll? && NewRestart(s, DoProbe(s, p, level, delay), id)
    ensures var n := s.tasks[p].name;
      && level.Unhealthy? && n in s.loaded && Carried(s, s.loaded[n]) + 1 < s.cfg.maxRestarts && id == s.nextTask
      && DoProbe(s, p, level, delay).tasks[id] == Restart(n, s.now + delay)
  {
    hide DoReport;
    ReportEffects(s, s.tasks[p].name, delay);
  }

  lemma FireNew(s: State, f: nat, o: Outcome, id: nat)
    requires f in s.tasks && s.tasks[f].Restart?
    ensures !NewRestart(s, DoFire(s, f, o), id)
  {
    if s.tasks[f].name in s.loaded {
      hide DoFire;
      if o.Success? { RestartEffect(s, f); } else { FailedRestartEffect(s, f, o); }
    }
  }

  lemma ReportFailedNew(s: State, r: nat, delay: nat, id: nat)
    requires r in s.tasks && s.tasks[r].Report? && NewRestart(s, DoReportFailed(s, r, delay), id)
    ensures var n := s.tasks[r].name;
      && n in s.loaded && Carried(s, s.loaded[n]) + 1 < s.cfg.maxRestarts && id == s.nextTask
      && DoReportFailed(s, r, delay).tasks[id] == Restart(n, s.now + delay)
  {
    hide DoReport;
    var n := s.tasks[r].name;
    ReportEffects(EndTask(PublishError(s, n), r), n, delay);
  }

  /** In every run, each pending restart was scheduled by a failure of its module in the run. */
  lemma {:induction false} RestartsWereScheduled(cfg: Config, disk: Disk, run: seq<Label>, id: nat)
    requires Legal(Init(cfg, disk), run)
    requires id in After(Init(cfg, disk), run).tasks && After(Init(cfg, disk), run).tasks[id].Restart?
    ensures var t := After(Init(cfg, disk), run).tasks[id];
      exists i :: ScheduledAt(Init(cfg, disk), run, i, id, t.name, t.due)
    decreases |run|
  {
    hide Apply, Inv, Possibly, ScheduledAt, NewRestart;
    var s0 := Init(cfg, disk);
    if run != [] {
      var k := |run| - 1;
      var t := After(s0, run).tasks[id];
      if NewRestart(After(s0, run[..k]), After(s0, run), id) {
        RunInv(cfg, disk, run[..k]);
        ScheduledNow(s0, run, id);
      } else {
        RestartKept(After(s0, run[..k]), After(s0, run), id);
        RestartsWereScheduled(cfg, disk, run[..k], id);
        var i :| ScheduledAt(s0, run[..k], i, id, t.name, t.due);
        ScheduledBefore(s0, run, i, id, t.name, t.due);
      }
    }
  }

  lemma RestartKept(s: State, s': State, id: nat)
    requires id in s'.tasks && s'.tasks[id].Restart? && !NewRestart(s, s', id)
    ensures id in s.tasks && s.tasks[id] == s'.tasks[id]
  {
  }

  lemma ScheduledNow(s0: State, run: seq<Label>, id: nat)
    requires Legal(s0, run) && run != [] && Inv(After(s0, run[..|run| - 1]))
    requires NewRestart(After(s0, run[..|run| - 1]), After(s0, run), id)
    ensures var t := After(s0, run).tasks[id]; ScheduledAt(s0, run, |run| - 1, id, t.name, t.due)
  {
    hide Apply, Inv, Possibly, Backoff.RandomDelay;
    var k := |run| - 1;
    OnlyFailuresSchedule(After(s0, run[..k]), run[k], id);
    RestartDue(After(s0, run[..k]), run[k], After(s0, run).tasks[id].name);
  }

  lemma ScheduledBefore(s0: State, run: seq<Label>, i: nat, id: nat, n: Name, due: nat)
    requires run != [] && ScheduledAt(s0, run[..|run| - 1], i, id, n, due)
    ensures ScheduledAt(s0, run, i, id, n, due)
  {
    hide Legal, After, Backoff.RandomDelay;
    assert run[..|run| - 1][..i] == run[..i];
  }

  /** In every run, a restart happens no earlier than the failure that scheduled it plus the delay that
      one drew, which is at least 0.95 times the schedule for the attempts it carried over. */
  lemma RestartsWait(cfg: Config, disk: Disk, run: seq<Label>, id: nat, o: Outcome)
    requires Legal(Init(cfg, disk), run) && Possibly(After(Init(cfg, disk), run), Fire(id, o))
    ensures exists i :: 0 <= i < |run| && WaitedSince(Init(cfg, disk), run, i, id)
  {
    hide Apply, Legal, After, ScheduledAt, WaitedSince;
    var s0 := Init(cfg, disk);
    var t := After(s0, run).tasks[id];
    RestartsWereScheduled(cfg, disk, run, id);
    var i :| ScheduledAt(s0, run, i, id, t.name, t.due);
    ScheduledWaits(s0, run, i, id);
  }

  lemma ScheduledWaits(s0: State, run: seq<Label>, i: nat, id: nat)
    requires Legal(s0, run) && id in After(s0, run).tasks && After(s0, run).tasks[id].Restart?
    requires var t := After(s0, run).tasks[id];
      t.due <= After(s0, run).now && ScheduledAt(s0, run, i, id, t.name, t.due)
    ensures i < |run| && WaitedSince(s0, run, i, id)
  {
    hide Apply, Legal, After, Backoff.RandomDelay, Backoff.Base;
    var f, n := After(s0, run[..i]), After(s0, run).tasks[id].name;
    Backoff.RandomDelayBounds(Carried(f, f.loaded[n]), run[i].delay);
  }

  /** Step `i` is a failure of the module that restart `id` is for, and by now its delay has passed. */
  ghost predicate WaitedSince(s0: State, run: seq<Label>, i: nat, id: nat)
  {
    && i < |run| && Legal(s0, run) && Legal(s0, run[..i]) && id in After(s0, run).tasks
    && var f := After(s0, run[..i]); var n := After(s0, run).tasks[id].name;
      && FailureOf(f, run[i], n)
      && After(s0, run).now >= f.now + run[i].delay
      && 100 * run[i].delay + 100 >= 95 * Backoff.Base(Carried(f, f.loaded[n]))
  }
}
