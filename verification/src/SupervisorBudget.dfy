/** The restart budget: what it counts, when a failing module is parked, and how long that takes. */
module SupervisorBudget {
  import opened Options
  import opened SupervisorModel
  import opened SupervisorInvariants
  import opened SupervisorTasks
  import opened SupervisorSituations
  import opened SupervisorShutdown
  import opened SupervisorTimes

  /** The stability window has passed since the module started at `started`. */
  predicate Late(s: State, started: nat)
  {
    s.now - started >= s.cfg.window
  }

  /** A restart task for `n` appears that was not there before. */
  ghost predicate Schedules(s: State, s': State, n: Name)
  {
    exists id :: id in s'.tasks && id !in s.tasks && s'.tasks[id].Restart? && s'.tasks[id].name == n
  }

  // ---- one step ----

  lemma FailureStep(s: State, n: Name, s1: State, delay: nat)
    requires Inv(s) && Inv(s1) && n in s.loaded
    requires s1.loaded == s.loaded && SameWorld(s, s1) && s1.nextTask == s.nextTask
    requires forall id :: id in s1.tasks ==> id in s.tasks && s1.tasks[id] == s.tasks[id]
    ensures var s' := DoReport(s1, n, delay);
      var attempt := Carried(s, s.loaded[n]) + 1;
      && n in s'.loaded && s'.loaded[n].restartAttempt == attempt
      && s'.loaded[n].startedAt == s.loaded[n].startedAt && s'.loaded[n].loadSeq == s.loaded[n].loadSeq
      && s'.loaded[n].state == (if attempt >= s.cfg.maxRestarts then Failed else Degraded)
      && (Schedules(s, s', n) <==> attempt < s.cfg.maxRestarts)
  {
    hide Inv, Park, Schedule, Schedules;
    var e := s.loaded[n];
    var attempt := Carried(s, e) + 1;
    FreshId(s);
    ParkCounts(s, s1, n, e, attempt);
    ScheduleCounts(s, s1, n, e, attempt, s.now + delay);
  }

  lemma FreshId(s: State)
    requires Inv(s)
    ensures s.nextTask !in s.tasks
  {
  }

  lemma ParkCounts(s: State, s1: State, n: Name, e: Entry, attempt: nat)
    requires forall id :: id in s1.tasks ==> id in s.tasks
    ensures var s' := Park(s1, n, e, attempt);
      n in s'.loaded && s'.loaded[n] == e.(state := Failed, restartAttempt := attempt) && !Schedules(s, s', n)
  {
  }

  lemma ScheduleCounts(s: State, s1: State, n: Name, e: Entry, attempt: nat, due: nat)
    requires s1.nextTask == s.nextTask && s.nextTask !in s.tasks
    ensures var s' := Schedule(s1, n, e, attempt, due);
      n in s'.loaded && s'.loaded[n] == e.(state := Degraded, restartAttempt := attempt) && Schedules(s, s', n)
  {
    assert s.nextTask in Schedule(s1, n, e, attempt, due).tasks;
  }

  lemma FailureCounts(s: State, l: Label, n: Name)
    requires Inv(s) && Possibly(s, l) && FailureOf(s, l, n)
    requires l.Probe? ==> s.tasks[l.task].token == s.loaded[n].token
    ensures var s' := Apply(s, l);
      var attempt := Carried(s, s.loaded[n]) + 1;
      && n in s'.loaded && s'.loaded[n].restartAttempt == attempt
      && s'.loaded[n].startedAt == s.loaded[n].startedAt && s'.loaded[n].loadSeq == s.loaded[n].loadSeq
      && s'.loaded[n].state == (if attempt >= s.cfg.maxRestarts then Failed else Degraded)
      && (Schedules(s, s', n) <==> attempt < s.cfg.maxRestarts)
  {
    if l.Probe? {
      UnhealthyProbe(s, l.task, l.delay);
      EndKeeps(s, l.task);
      FailureStep(s, n, EndTask(s, l.task), l.delay);
    } else {
      var s0 := PublishError(s, n);
      FrameKeeps(s, s0);
      EndKeeps(s0, l.task);
      FailureStep(s, n, EndTask(s0, l.task), l.delay);
    }
  }

  /** Any other step leaves the budget of a module that stays loaded alone. It schedules no restart,
      parks nothing, and restarts the stability window only by a successful restart. */
  lemma OthersKeepBudget(s: State, l: Label, n: Name)
    requires Inv(s) && Possibly(s, l) && n in s.loaded && !l.StopEverything? && !FailureOf(s, l, n)
    requires !(l.Unload? && l.name == n)
    ensures var s' := Apply(s, l);
      && n in s'.loaded && s'.loaded[n].restartAttempt == s.loaded[n].restartAttempt
      && s'.loaded[n].loadSeq == s.loaded[n].loadSeq
      && s'.loaded[n].startedAt == (if RestartsOk(s, l, n) then s.now else s.loaded[n].startedAt)
      && (s'.loaded[n].state == Failed ==> s.loaded[n].state == Failed)
  {
    if Target(s, l) != Some(n) {
      StepLocal(s, l, n);
      hide Apply;
    } else {
      hide DoLoad, DoProbe, DoFire, DoReportFailed, StopAll;
      match l
      case Load(_, o, saved) => assert DoLoad(s, n, o, saved) == s by { LoadedAlready(s, n, o, saved); }
      case Probe(id, level, delay) => ProbeKeepsBudget(s, id, level, delay);
      case Fire(id, o) => FireKeepsBudget(s, id, o);
      case Wake(_) =>
      case ExitPoll(_) =>
      case Abandon(_) =>
    }
  }

  lemma LoadedAlready(s: State, n: Name, o: Outcome, saved: bool)
    requires n in s.loaded
    ensures DoLoad(s, n, o, saved) == s
  {
  }

  lemma ProbeKeepsBudget(s: State, id: nat, level: Health, delay: nat)
    requires id in s.tasks && s.tasks[id].Poll? && s.tasks[id].name in s.loaded && !level.Unhealthy?
    ensures var n := s.tasks[id].name; var s' := DoProbe(s, id, level, delay);
      n in s'.loaded && s'.loaded[n] == s.loaded[n].(state := s'.loaded[n].state)
      && (s'.loaded[n].state == Failed ==> s.loaded[n].state == Failed)
  {
  }

  lemma FireKeepsBudget(s: State, id: nat, o: Outcome)
    requires id in s.tasks && s.tasks[id].Restart? && s.tasks[id].name in s.loaded
    ensures var n := s.tasks[id].name; var s' := DoFire(s, id, o);
      && n in s'.loaded && s'.loaded[n].restartAttempt == s.loaded[n].restartAttempt
      && s'.loaded[n].loadSeq == s.loaded[n].loadSeq
      && (if o.Success? then s'.loaded[n].startedAt == s.now && s'.loaded[n].state == Running
          else s'.loaded[n] == s.loaded[n])
  {
  }

  lemma OthersSchedule(s: State, l: Label, n: Name)
    requires Inv(s) && Possibly(s, l) && !l.StopEverything? && !FailureOf(s, l, n)
    ensures !Schedules(s, Apply(s, l), n)
  {
    var s' := Apply(s, l);
    if Target(s, l) != Some(n) {
      StepLocal(s, l, n);
      forall id | id in s'.tasks && s'.tasks[id].name == n ensures id in s.tasks { assert id in TasksOf(s', n); }
    } else {
      OwnTurnSchedules(s, l, n);
    }
  }

  lemma OwnTurnSchedules(s: State, l: Label, n: Name)
    requires Inv(s) && Possibly(s, l) && Target(s, l) == Some(n) && !FailureOf(s, l, n)
    ensures forall id :: id in Apply(s, l).tasks && id !in s.tasks ==> Apply(s, l).tasks[id].Poll?
  {
    if l.Load? {
      LoadSpawns(s, n, l.outcome, l.saved);
    } else if l.Fire? {
      FireSpawns(s, l.task, l.outcome);
    } else if l.Probe? {
    } else {
      assert Apply(s, l).tasks.Keys <= s.tasks.Keys;
    }
  }

  lemma FireSpawns(s: State, id: nat, o: Outcome)
    requires Inv(s) && id in s.tasks && s.tasks[id].Restart?
    ensures forall k :: k in DoFire(s, id, o).tasks && k !in s.tasks ==> DoFire(s, id, o).tasks[k].Poll?
  {
  }

  // ---- the budget counts scheduled restarts ----

  /** Restarts scheduled for `n` since it was loaded or its budget was last cleared, told from the run. */
  ghost function ScheduledSince(s0: State, run: seq<Label>, n: Name): nat
    requires Legal(s0, run)
    decreases |run|
  {
    if run == [] then 0
    else
      var k := |run| - 1;
      NextScheduled(After(s0, run[..k]), run[k], n, LastStart(s0, run[..k], n), ScheduledSince(s0, run[..k], n))
  }

  ghost function NextScheduled(s: State, l: Label, n: Name, started: nat, count: nat): nat
    requires Possibly(s, l)
  {
    if Starts(s, l, n) then 0
    else
      (if FailureOf(s, l, n) && Late(s, started) then 0 else count) + if Schedules(s, Apply(s, l), n) then 1 else 0
  }

  /** The entry's budget and state agree with the number of scheduled restarts. */
  ghost predicate Tallies(s: State, n: Name, scheduled: nat)
    requires n in s.loaded
  {
    var e := s.loaded[n];
    if e.state == Failed then e.restartAttempt == s.cfg.maxRestarts && scheduled == s.cfg.maxRestarts - 1
    else e.restartAttempt < s.cfg.maxRestarts && scheduled == e.restartAttempt
  }

  lemma SolePollHoldsToken(s: State, id: nat)
    requires Inv(s) && Situated(s) && id in s.tasks && s.tasks[id].name in s.loaded
    ensures var n := s.tasks[id].name;
      && s.loaded[n].state != Failed && s.loaded[n].restartAttempt < s.cfg.maxRestarts
      && (s.tasks[id].Poll? ==> s.tasks[id].token == s.loaded[n].token)
  {
    assert id in TasksOf(s, s.tasks[id].name);
    assert InHand(s, s.tasks[id].name);
  }

  /** A failed module has no task, so only its unload or a shutdown changes it. */
  lemma FailedStays(s: State, l: Label, n: Name)
    requires Inv(s) && Situated(s) && Possibly(s, l) && !l.StopEverything?
    requires n in s.loaded && s.loaded[n].state == Failed && !(l.Unload? && l.name == n)
    ensures !FailureOf(s, l, n) && !RestartsOk(s, l, n)
    ensures n in Apply(s, l).loaded && Apply(s, l).loaded[n] == s.loaded[n]
  {
    hide Apply, Possibly;
    assert InHand(s, n);
    forall id | id in s.tasks ensures s.tasks[id].name != n { assert id !in TasksOf(s, n); }
    UnattendedStays(s, l, n);
  }

  /** What one step does to the entry of a module that stays loaded. */
  lemma StepEntry(s: State, l: Label, n: Name)
    requires Inv(s) && Situated(s) && Possibly(s, l) && !l.StopEverything? && n in s.loaded
    requires !(l.Unload? && l.name == n)
    ensures var s' := Apply(s, l); var e := s.loaded[n];
      && s'.now >= s.now && s'.cfg == s.cfg
      && n in s'.loaded && s'.loaded[n].startedAt == (if RestartsOk(s, l, n) then s.now else e.startedAt)
      && (FailureOf(s, l, n) ==>
           && e.state != Failed && e.restartAttempt < s.cfg.maxRestarts
           && s'.loaded[n].restartAttempt == Carried(s, e) + 1
           && (s'.loaded[n].state == Failed <==> Carried(s, e) + 1 >= s.cfg.maxRestarts)
           && (Schedules(s, s', n) <==> Carried(s, e) + 1 < s.cfg.maxRestarts))
      && (!FailureOf(s, l, n) ==>
           && s'.loaded[n].restartAttempt == e.restartAttempt && (s'.loaded[n].state == Failed <==> e.state == Failed)
           && !Schedules(s, s', n))
  {
    ClockAndConfig(s, l);
    hide Apply, Possibly, Situated, Inv, Schedules;
    if FailureOf(s, l, n) {
      SolePollHoldsToken(s, l.task);
      FailureCounts(s, l, n);
    } else {
      OthersSchedule(s, l, n);
      if s.loaded[n].state == Failed {
        FailedStays(s, l, n);
      } else {
        OthersKeepBudget(s, l, n);
      }
    }
  }

  lemma ClockAndConfig(s: State, l: Label)
    requires Possibly(s, l)
    ensures Apply(s, l).cfg == s.cfg && Apply(s, l).now >= s.now
  {
    hide DoLoad, DoUnload, DoProbe, DoFire, DoReportFailed, StopAll;
  }

  lemma StepTallies(s: State, l: Label, n: Name, scheduled: nat)
    requires Inv(s) && Situated(s) && Possibly(s, l) && !l.StopEverything?
    requires n in s.loaded && Tallies(s, n, scheduled) && n in Apply(s, l).loaded && !(l.Unload? && l.name == n)
    ensures Tallies(Apply(s, l), n, NextScheduled(s, l, n, s.loaded[n].startedAt, scheduled))
  {
    hide Apply, Possibly, Situated, Inv, Schedules;
    StepEntry(s, l, n);
  }

  /** In quiescent runs before shutdown, a module that is not failed has used fewer restarts than
      `maxRestarts`, exactly as many as were scheduled since its load or its last budget reset; a
      failed one has counted exactly `maxRestarts` failures and had `maxRestarts - 1` restarts. */
  lemma {:induction false} BudgetIsScheduledRestarts(cfg: Config, disk: Disk, run: seq<Label>, n: Name)
    requires cfg.maxRestarts >= 1
    requires Legal(Init(cfg, disk), run) && QuietRun(Init(cfg, disk), run)
    requires !After(Init(cfg, disk), run).lifeCancelled && n in After(Init(cfg, disk), run).loaded
    ensures Tallies(After(Init(cfg, disk), run), n, ScheduledSince(Init(cfg, disk), run, n))
    ensures After(Init(cfg, disk), run).cfg == cfg
    decreases |run|
  {
    var s0 := Init(cfg, disk);
    if run != [] {
      var k := |run| - 1;
      var s := After(s0, run[..k]);
      hide Apply, Inv, Situated, Possibly;
      LifeOnlyCancelled(s, run[k]);
      CfgFixed(s, run[k]);
      QuietPrefix(cfg, disk, run);
      if n !in s.loaded {
        StartsOrNot(s, run[k], n);
      } else {
        if run[k].Unload? { UnloadRemoves(s, run[k]); }
        BudgetIsScheduledRestarts(cfg, disk, run[..k], n);
        StartedAtLastStart(cfg, disk, run[..k], n);
        StepTallies(s, run[k], n, ScheduledSince(s0, run[..k], n));
      }
    }
  }

  lemma StartsOrNot(s: State, l: Label, n: Name)
    requires Possibly(s, l) && n !in s.loaded && !l.StopEverything? && n in Apply(s, l).loaded
    ensures Starts(s, l, n)
    ensures Apply(s, l).loaded[n].restartAttempt == 0 && Apply(s, l).loaded[n].state == Running
  {
    if !(l.Load? && l.name == n) {
      StaysOut(s, l, n);
    } else {
      FreshEntry(s, n, l.outcome, l.saved);
      hide DoLoad;
    }
  }

  lemma FreshEntry(s: State, n: Name, o: Outcome, saved: bool)
    requires n !in s.loaded
    ensures var s' := DoLoad(s, n, o, saved);
      n in s'.loaded ==> o.Success? && s'.loaded[n].restartAttempt == 0 && s'.loaded[n].state == Running
  {
  }

  // ---- and failures, whether or not restarts succeed in between ----

  /** Failures of `n` since it was loaded, counted afresh from each one that finds the window passed. */
  ghost function FailuresSince(s0: State, run: seq<Label>, n: Name): nat
    requires Legal(s0, run)
    decreases |run|
  {
    if run == [] then 0
    else
      var k := |run| - 1;
      NextFailures(After(s0, run[..k]), run[k], n, LastStart(s0, run[..k], n), FailuresSince(s0, run[..k], n))
  }

  function NextFailures(s: State, l: Label, n: Name, started: nat, count: nat): nat
  {
    if Starts(s, l, n) then 0
    else if !FailureOf(s, l, n) then count
    else if Late(s, started) then 1
    else count + 1
  }

  /** The count is the number of failures, and the module is failed exactly when they use it up. */
  ghost predicate Spent(s: State, n: Name, failures: nat)
    requires n in s.loaded
  {
    && s.loaded[n].restartAttempt == failures <= s.cfg.maxRestarts
    && (s.loaded[n].state == Failed <==> failures == s.cfg.maxRestarts)
  }

  lemma StepSpent(s: State, l: Label, n: Name, failures: nat)
    requires Inv(s) && Situated(s) && Possibly(s, l) && !l.StopEverything? && s.cfg.maxRestarts >= 1
    requires n in s.loaded && Spent(s, n, failures) && n in Apply(s, l).loaded && !(l.Unload? && l.name == n)
    ensures Spent(Apply(s, l), n, NextFailures(s, l, n, s.loaded[n].startedAt, failures))
  {
    hide Apply, Possibly, Situated, Inv, Schedules;
    StepEntry(s, l, n);
  }

  /** In quiescent runs before shutdown, a loaded module is failed if and only if its failures, counted
      since its load or since the last one that came after the window, have reached `maxRestarts`.
      Restarts that succeed in between change nothing about that but the start of the window. */
  lemma {:induction false} ParkedIffFailuresSpent(cfg: Config, disk: Disk, run: seq<Label>, n: Name)
    requires cfg.maxRestarts >= 1
    requires Legal(Init(cfg, disk), run) && QuietRun(Init(cfg, disk), run)
    requires !After(Init(cfg, disk), run).lifeCancelled && n in After(Init(cfg, disk), run).loaded
    ensures Spent(After(Init(cfg, disk), run), n, FailuresSince(Init(cfg, disk), run, n))
    ensures After(Init(cfg, disk), run).cfg == cfg
    decreases |run|
  {
    var s0 := Init(cfg, disk);
    if run != [] {
      var k := |run| - 1;
      var s := After(s0, run[..k]);
      hide Apply, Inv, Situated, Possibly;
      LifeOnlyCancelled(s, run[k]);
      CfgFixed(s, run[k]);
      QuietPrefix(cfg, disk, run);
      if n !in s.loaded {
        StartsOrNot(s, run[k], n);
      } else {
        if run[k].Unload? { UnloadRemoves(s, run[k]); }
        ParkedIffFailuresSpent(cfg, disk, run[..k], n);
        StartedAtLastStart(cfg, disk, run[..k], n);
        StepSpent(s, run[k], n, FailuresSince(s0, run[..k], n));
      }
    }
  }

  lemma QuietPrefix(cfg: Config, disk: Disk, run: seq<Label>)
    requires cfg.maxRestarts >= 1 && run != []
    requires Legal(Init(cfg, disk), run) && QuietRun(Init(cfg, disk), run) && !After(Init(cfg, disk), run).lifeCancelled
    ensures var s := After(Init(cfg, disk), run[..|run| - 1]);
      Inv(s) && Situated(s) && !s.lifeCancelled && s.cfg == cfg && !run[|run| - 1].StopEverything?
  {
    var k := |run| - 1;
    LifeOnlyCancelled(After(Init(cfg, disk), run[..k]), run[k]);
    InitInv(cfg, disk);
    hide Apply, Inv;
    RunKeeps(Init(cfg, disk), run[..k]);
    RunSituated(Init(cfg, disk), run[..k]);
  }
}
