/** Quiescent reload: a name is loaded again only once the tasks of its earlier load are gone. Under
    that hypothesis every loaded module is in exactly one situation, `Failed` is a real parking
    place, and the restart budget counts the restarts that were scheduled. */
module SupervisorSituations {
  import opened Options
  import opened SupervisorModel
  import opened SupervisorInvariants
  import opened SupervisorTasks

  ghost predicate Quiet(s: State, l: Label)
  {
    l.Load? && Starts(s, l, l.name) ==> TasksOf(s, l.name) == {}
  }

  ghost predicate QuietRun(s0: State, run: seq<Label>)
    requires Legal(s0, run)
    decreases |run|
  {
    run == [] || (QuietRun(s0, run[..|run| - 1]) && Quiet(After(s0, run[..|run| - 1]), run[|run| - 1]))
  }

  // ---- the three situations ----

  /** Its only task is a live health loop on the stored instance. */
  ghost predicate Watched(s: State, n: Name)
    requires n in s.loaded
  {
    var e := s.loaded[n];
    && (e.state == Running || e.state == Degraded)
    && e.restartAttempt < s.cfg.maxRestarts
    && e.token !in s.cancelled
    && exists id ::
         && Sole(s, n, id) && s.tasks[id].Poll?
         && s.tasks[id].token == e.token && s.tasks[id].instance == e.instance
  }

  /** Its only task is one restart, pending or in flight. */
  ghost predicate Restarting(s: State, n: Name)
    requires n in s.loaded
  {
    var e := s.loaded[n];
    && e.state == Degraded
    && e.restartAttempt < s.cfg.maxRestarts
    && e.token in s.cancelled
    && exists id :: Sole(s, n, id) && !s.tasks[id].Poll?
  }

  /** Its budget is spent and no task is left to act on it. */
  ghost predicate Parked(s: State, n: Name)
    requires n in s.loaded
  {
    s.loaded[n].state == Failed && s.loaded[n].restartAttempt == s.cfg.maxRestarts && TasksOf(s, n) == {}
  }

  ghost predicate Sole(s: State, n: Name, id: nat)
  {
    id in s.tasks && TasksOf(s, n) == {id}
  }

  ghost predicate InHand(s: State, n: Name)
  {
    n in s.loaded ==> Watched(s, n) || Restarting(s, n) || Parked(s, n)
  }

  ghost predicate Situated(s: State)
  {
    forall n :: n in s.loaded ==> InHand(s, n)
  }

  lemma UntouchedInHand(s: State, s': State, m: Name)
    requires Untouched(s, s', m) && InHand(s, m) && s'.cfg == s.cfg
    ensures InHand(s', m)
  {
  }

  // ---- what each kind of turn does to its own module ----

  lemma StartInHand(s: State, n: Name, saved: bool)
    requires Inv(s) && n !in s.loaded && TasksOf(s, n) == {} && s.cfg.maxRestarts >= 1
    ensures InHand(LoadSucceeds(s, n, saved), n)
  {
    var s' := LoadSucceeds(s, n, saved);
    assert forall id :: id in s.tasks ==> s.tasks[id].name != n by {
      forall id | id in s.tasks ensures s.tasks[id].name != n { assert id !in TasksOf(s, n); }
    }
    assert Sole(s', n, s.nextTask);
    assert s'.cancelled == s.cancelled;
  }

  /** A failure reported by the module's only task, which is gone by then, leaves it restarting or
      parked. */
  lemma ReportInHand(s: State, n: Name, delay: nat)
    requires Inv(s) && n in s.loaded && TasksOf(s, n) == {} && s.loaded[n].restartAttempt < s.cfg.maxRestarts
    ensures var s' := DoReport(s, n, delay); n in s'.loaded && (Restarting(s', n) || Parked(s', n))
  {
    hide Park, Schedule, Inv, Restarting, Parked;
    var e := s.loaded[n];
    var attempt := Carried(s, e) + 1;
    if attempt >= s.cfg.maxRestarts {
      ParkInHand(s, n, e);
    } else {
      ScheduleInHand(s, n, e, attempt, s.now + delay);
    }
  }

  lemma ParkInHand(s: State, n: Name, e: Entry)
    requires n in s.loaded && TasksOf(s, n) == {}
    ensures var s' := Park(s, n, e, s.cfg.maxRestarts); n in s'.loaded && Parked(s', n)
  {
    var s' := Park(s, n, e, s.cfg.maxRestarts);
    assert TasksOf(s', n) == TasksOf(s, n);
  }

  lemma ScheduleInHand(s: State, n: Name, e: Entry, attempt: nat, due: nat)
    requires Inv(s) && n in s.loaded && TasksOf(s, n) == {} && attempt < s.cfg.maxRestarts
    ensures var s' := Schedule(s, n, e, attempt, due); n in s'.loaded && Restarting(s', n)
  {
    var s' := Schedule(s, n, e, attempt, due);
    forall id | id in s.tasks ensures s.tasks[id].name != n { assert id !in TasksOf(s, n); }
    assert Sole(s', n, s.nextTask);
  }

  /** Whether the loop ends before or after its report is spawned makes no difference. */
  lemma UnhealthyProbe(s: State, id: nat, delay: nat)
    requires Polls(s) && id in s.tasks && s.tasks[id].Poll? && s.tasks[id].name in s.loaded
    requires s.loaded[s.tasks[id].name].token == s.tasks[id].token
    ensures DoProbe(s, id, Unhealthy, delay) == DoReport(EndTask(s, id), s.tasks[id].name, delay)
  {
    hide Park, Schedule, Polls;
    var n := s.tasks[id].name;
    var e := s.loaded[n];
    IdBelow(s, id);
    EndsFirst(s, id, n, e, Carried(s, e) + 1, s.now + delay);
  }

  lemma EndsFirst(s: State, id: nat, n: Name, e: Entry, attempt: nat, due: nat)
    requires id < s.nextTask
    ensures EndTask(Park(s, n, e, attempt), id) == Park(EndTask(s, id), n, e, attempt)
    ensures EndTask(Schedule(s, n, e, attempt, due), id) == Schedule(EndTask(s, id), n, e, attempt, due)
    ensures e.token in Park(s, n, e, attempt).cancelled && e.token in Schedule(s, n, e, attempt, due).cancelled
  {
    assert (s.tasks - {id})[s.nextTask := Restart(n, due)] == s.tasks[s.nextTask := Restart(n, due)] - {id};
  }

  lemma ProbeInHand(s: State, id: nat, level: Health, delay: nat)
    requires Inv(s) && id in s.tasks && s.tasks[id].Poll? && InHand(s, s.tasks[id].name)
    ensures InHand(DoProbe(s, id, level, delay), s.tasks[id].name)
  {
    var n := s.tasks[id].name;
    if n in s.loaded {
      assert id in TasksOf(s, n);
      assert Watched(s, n) && Sole(s, n, id);
      if level.Unhealthy? {
        UnhealthyProbe(s, id, delay);
        EndKeeps(s, id);
        assert TasksOf(EndTask(s, id), n) == {};
        ReportInHand(EndTask(s, id), n, delay);
        hide DoProbe, DoReport;
      } else {
        ObservedInHand(s, id, level, delay);
      }
    }
  }

  /** A probe that sees no failure leaves the loop in place. */
  lemma ObservedInHand(s: State, id: nat, level: Health, delay: nat)
    requires id in s.tasks && s.tasks[id].Poll? && s.tasks[id].name in s.loaded && !level.Unhealthy?
    requires Watched(s, s.tasks[id].name) && Sole(s, s.tasks[id].name, id)
    ensures InHand(DoProbe(s, id, level, delay), s.tasks[id].name)
  {
    assert Sole(DoProbe(s, id, level, delay), s.tasks[id].name, id);
  }

  lemma FireInHand(s: State, id: nat, o: Outcome)
    requires Inv(s) && id in s.tasks && s.tasks[id].Restart? && InHand(s, s.tasks[id].name)
    ensures InHand(DoFire(s, id, o), s.tasks[id].name)
  {
    var n := s.tasks[id].name;
    if n in s.loaded {
      var e := s.loaded[n];
      assert id in TasksOf(s, n);
      assert Restarting(s, n) && Sole(s, n, id);
      var s1 := Halt(Cancel(s, e.token), e.instance);
      assert TasksOf(s1, n) == TasksOf(s, n);
      ReplaceInHand(s1, id, n, e, o);
      hide InHand, Replace, Halt, Cancel;
    }
  }

  lemma ReplaceInHand(s: State, id: nat, n: Name, e: Entry, o: Outcome)
    requires Polls(s) && Sole(s, n, id) && n in s.loaded && s.loaded[n] == e && e.token in s.cancelled
    requires e.state == Degraded && e.restartAttempt < s.cfg.maxRestarts
    ensures InHand(Replace(s, id, n, e, o), n)
  {
    var s' := Replace(s, id, n, e, o);
    assert id in TasksOf(s, n);
    if o.Success? {
      assert Sole(s', n, s.nextTask);
    } else {
      assert Sole(s', n, id);
    }
  }

  lemma ReportFailedInHand(s: State, id: nat, delay: nat)
    requires Inv(s) && id in s.tasks && s.tasks[id].Report? && InHand(s, s.tasks[id].name)
    ensures InHand(DoReportFailed(s, id, delay), s.tasks[id].name)
  {
    var n := s.tasks[id].name;
    if n in s.loaded {
      assert id in TasksOf(s, n);
      assert Restarting(s, n) && Sole(s, n, id);
      var s0 := PublishError(s, n);
      FrameKeeps(s, s0);
      EndKeeps(s0, id);
      ReportInHand(EndTask(s0, id), n, delay);
    }
  }

  lemma WakeInHand(s: State, id: nat)
    requires id in s.tasks && s.tasks[id].Poll? && InHand(s, s.tasks[id].name)
    ensures InHand(SetTask(s, id, s.tasks[id].(probing := true)), s.tasks[id].name)
  {
    var n := s.tasks[id].name;
    var s' := SetTask(s, id, s.tasks[id].(probing := true));
    if n in s.loaded {
      assert id in TasksOf(s, n);
      assert Sole(s', n, id);
    }
  }

  lemma TargetInHand(s: State, l: Label, n: Name)
    requires Inv(s) && Possibly(s, l) && Quiet(s, l) && !s.lifeCancelled && s.cfg.maxRestarts >= 1
    requires Target(s, l) == Some(n) && InHand(s, n)
    ensures InHand(Apply(s, l), n)
  {
    hide Inv, InHand, DoLoad, DoUnload, DoProbe, DoFire, DoReportFailed, StopAll;
    match l
    case Load(_, o, saved) => LoadInHand(s, n, o, saved);
    case Unload(_, _) =>
      UnloadRemoves(s, l);
      GoneInHand(Apply(s, l), n);
    case Wake(id) => WakeInHand(s, id);
    case Probe(id, level, delay) => ProbeInHand(s, id, level, delay);
    case ExitPoll(id) => ExitInHand(s, id);
    case Fire(id, o) => FireInHand(s, id, o);
    case ReportFailed(id, delay) => ReportFailedInHand(s, id, delay);
  }

  lemma LoadInHand(s: State, n: Name, o: Outcome, saved: bool)
    requires Inv(s) && InHand(s, n) && s.cfg.maxRestarts >= 1
    requires n !in s.loaded && o.Success? ==> TasksOf(s, n) == {}
    ensures InHand(DoLoad(s, n, o, saved), n)
  {
    hide LoadSucceeds, Watched, Restarting, Parked;
    if n !in s.loaded && o.Success? { StartInHand(s, n, saved); }
  }

  lemma GoneInHand(s: State, n: Name)
    requires n !in s.loaded
    ensures InHand(s, n)
  {
  }

  /** A loop that ends because its token is cancelled is not the one of a loaded module. */
  lemma ExitInHand(s: State, id: nat)
    requires id in s.tasks && s.tasks[id].Poll? && s.tasks[id].token in s.cancelled && InHand(s, s.tasks[id].name)
    ensures InHand(EndTask(s, id), s.tasks[id].name)
  {
    assert id in TasksOf(s, s.tasks[id].name);
  }

  lemma StepSituated(s: State, l: Label)
    requires Inv(s) && Possibly(s, l) && Quiet(s, l) && s.cfg.maxRestarts >= 1 && Situated(s)
    requires !Apply(s, l).lifeCancelled
    ensures Situated(Apply(s, l)) && !s.lifeCancelled && !l.StopEverything?
  {
    forall n | n in Apply(s, l).loaded ensures InHand(Apply(s, l), n) {
      if Target(s, l) == Some(n) {
        TargetInHand(s, l, n);
      } else {
        StepLocal(s, l, n);
        UntouchedInHand(s, Apply(s, l), n);
      }
    }
  }

  lemma LifeOnlyCancelled(s: State, l: Label)
    requires Possibly(s, l)
    ensures s.lifeCancelled ==> Apply(s, l).lifeCancelled
    ensures !l.CancelLife? ==> Apply(s, l).lifeCancelled == s.lifeCancelled
  {
  }

  lemma CfgFixed(s: State, l: Label)
    requires Possibly(s, l)
    ensures Apply(s, l).cfg == s.cfg
  {
  }

  lemma {:induction false} RunSituated(s0: State, run: seq<Label>)
    requires Inv(s0) && Situated(s0) && s0.cfg.maxRestarts >= 1
    requires Legal(s0, run) && QuietRun(s0, run) && !After(s0, run).lifeCancelled
    ensures Situated(After(s0, run)) && After(s0, run).cfg == s0.cfg
    decreases |run|
  {
    if run != [] {
      var k := |run| - 1;
      var s := After(s0, run[..k]);
      LifeOnlyCancelled(s, run[k]);
      RunSituated(s0, run[..k]);
      RunKeeps(s0, run[..k]);
      StepSituated(s, run[k]);
    }
  }

  /** In every run before shutdown with quiescent reload, each loaded module is in exactly one
      situation: watched by one live health loop on an instance that was never stopped, degraded with
      exactly one restart on its way, or failed with no task at all. */
  lemma OneSituation(cfg: Config, disk: Disk, run: seq<Label>, n: Name)
    requires cfg.maxRestarts >= 1
    requires Legal(Init(cfg, disk), run) && QuietRun(Init(cfg, disk), run)
    requires !After(Init(cfg, disk), run).lifeCancelled && n in After(Init(cfg, disk), run).loaded
    ensures var s := After(Init(cfg, disk), run);
      && (Watched(s, n) || Restarting(s, n) || Parked(s, n))
      && (Watched(s, n) ==> s.loaded[n].instance < |s.instances| && s.instances[s.loaded[n].instance].stops == 0)
      && !(Watched(s, n) && Restarting(s, n)) && !(Watched(s, n) && Parked(s, n)) && !(Restarting(s, n) && Parked(s, n))
  {
    RunSituated(Init(cfg, disk), run);
    RunInv(cfg, disk, run);
    var s := After(Init(cfg, disk), run);
    assert InHand(s, n) && SoundEntry(s, n, s.loaded[n]);
  }

  /** With no task left to act on it, only unloading it or shutdown can change a loaded module. */
  lemma UnattendedStays(s: State, l: Label, n: Name)
    requires Inv(s) && Possibly(s, l) && n in s.loaded && TasksOf(s, n) == {}
    requires !l.StopEverything? && !(l.Unload? && l.name == n)
    ensures var s' := Apply(s, l); n in s'.loaded && s'.loaded[n] == s.loaded[n] && TasksOf(s', n) == {}
  {
    forall id | id in s.tasks ensures s.tasks[id].name != n { assert id !in TasksOf(s, n); }
    if l.Load? && l.name == n {
    } else {
      StepLocal(s, l, n);
    }
  }

  /** In such runs a failed module stays exactly as it is until it is unloaded. */
  lemma FailedLeftOnlyByUnload(cfg: Config, disk: Disk, run: seq<Label>, l: Label, n: Name)
    requires cfg.maxRestarts >= 1
    requires Legal(Init(cfg, disk), run) && QuietRun(Init(cfg, disk), run)
    requires var s := After(Init(cfg, disk), run);
      && Possibly(s, l) && Quiet(s, l) && !Apply(s, l).lifeCancelled
      && n in s.loaded && s.loaded[n].state == Failed
    ensures var s := After(Init(cfg, disk), run);
      if l.Unload? && l.name == n then n !in Apply(s, l).loaded
      else n in Apply(s, l).loaded && Apply(s, l).loaded[n] == s.loaded[n] && TasksOf(Apply(s, l), n) == {}
  {
    hide Apply, Inv, Situated, Possibly, TasksOf;
    var s := After(Init(cfg, disk), run);
    LifeOnlyCancelled(s, l);
    InitInv(cfg, disk);
    InitSituated(cfg, disk);
    RunSituated(Init(cfg, disk), run);
    RunInv(cfg, disk, run);
    FailedIsParked(s, n);
    StepSituated(s, l);
    if l.Unload? && l.name == n {
      UnloadRemoves(s, l);
    } else {
      UnattendedStays(s, l, n);
    }
  }

  lemma InitSituated(cfg: Config, disk: Disk)
    ensures Situated(Init(cfg, disk))
  {
  }

  lemma FailedIsParked(s: State, n: Name)
    requires Situated(s) && n in s.loaded && s.loaded[n].state == Failed
    ensures Parked(s, n) && TasksOf(s, n) == {}
  {
    assert InHand(s, n);
  }

  lemma UnloadRemoves(s: State, l: Label)
    requires Possibly(s, l) && l.Unload?
    ensures l.name !in Apply(s, l).loaded
  {
    hide DoLoad, DoProbe, DoFire, DoReportFailed, StopAll;
  }

  /** Quiescence is exactly what a load needs: from a state where every module is in one situation,
      starting a module keeps it so if and only if no task of an earlier load of that name is left. */
  lemma QuiescenceNeeded(s: State, l: Label, n: Name)
    requires Inv(s) && Situated(s) && Possibly(s, l) && Starts(s, l, n)
    requires !s.lifeCancelled && s.cfg.maxRestarts >= 1
    ensures Situated(Apply(s, l)) <==> TasksOf(s, n) == {}
  {
    if TasksOf(s, n) == {} {
      StepSituated(s, l);
    } else {
      var id :| id in TasksOf(s, n);
      var s' := Apply(s, l);
      assert s'.tasks == s.tasks[s.nextTask := Poll(n, |s.instances|, s.nextToken, false)];
      assert id in TasksOf(s', n) && s.nextTask in TasksOf(s', n) && id != s.nextTask;
      assert !InHand(s', n);
    }
  }
}
