/** Tasks are conserved, and a step on one module leaves the others alone. */
module SupervisorTasks {
  import opened Options
  import opened SupervisorModel
  import opened SupervisorInvariants

  /** The module a step acts on. Shutdown acts on all, clock and token steps on none. */
  function Target(s: State, l: Label): Option<Name>
  {
    match l
    case Load(n, _, _) => Some(n)
    case Unload(n, _) => Some(n)
    case ReadEnabled => None
    case AdoptEnabled(_) => None
    case CancelLife => None
    case StopEverything => None
    case Tick(_) => None
    case _ => if l.task in s.tasks then Some(s.tasks[l.task].name) else None
  }

  /** What another module sees of a step: nothing. */
  ghost predicate Untouched(s: State, s': State, m: Name)
  {
    && (m in s.loaded <==> m in s'.loaded)
    && (m in s.loaded ==> s'.loaded[m] == s.loaded[m])
    && (m in s.loaded ==> (s.loaded[m].token in s'.cancelled <==> s.loaded[m].token in s.cancelled))
    && TasksOf(s', m) == TasksOf(s, m)
    && (forall id :: id in TasksOf(s, m) ==> s'.tasks[id] == s.tasks[id])
  }

  lemma UntouchedFrame(s: State, s': State, m: Name)
    requires s'.loaded == s.loaded && s'.cancelled == s.cancelled && s'.tasks == s.tasks
    ensures Untouched(s, s', m)
  {
  }

  lemma UntouchedCancel(s: State, n: Name, m: Name)
    requires Entries(s) && n in s.loaded && m != n
    ensures Untouched(s, Cancel(s, s.loaded[n].token), m)
  {
  }

  lemma UntouchedTask(s: State, id: nat, t: Task, m: Name)
    requires t.name != m && (id in s.tasks ==> s.tasks[id].name != m)
    ensures Untouched(s, SetTask(s, id, t), m)
    ensures Untouched(s, EndTask(s, id), m)
  {
  }

  lemma UntouchedReport(s: State, n: Name, delay: nat, m: Name)
    requires Inv(s) && m != n
    ensures Untouched(s, DoReport(s, n, delay), m)
  {
    hide Untouched, Park, Schedule, Entries;
    UntouchedFrame(s, s, m);
    if n in s.loaded {
      var e := s.loaded[n];
      UntouchedCancel(s, n, m);
      UntouchedOutcome(Cancel(s, e.token), s, n, e, Carried(s, e) + 1, s.now + delay, m);
      UntouchedTrans(s, Cancel(s, e.token), DoReport(s, n, delay), m);
    }
  }

  lemma UntouchedOutcome(c: State, s: State, n: Name, e: Entry, attempt: nat, due: nat, m: Name)
    requires c == Cancel(s, e.token) && m != n && s.nextTask !in s.tasks
    ensures Untouched(c, Park(s, n, e, attempt), m) && Untouched(c, Schedule(s, n, e, attempt, due), m)
  {
    UntouchedTask(c, s.nextTask, Restart(n, due), m);
  }

  lemma UntouchedInstall(s: State, n: Name, instance: nat, attempt: nat, seqNo: nat, m: Name)
    requires s.nextTask !in s.tasks && m != n
    ensures Untouched(s, Install(s, n, instance, attempt, seqNo), m)
  {
    UntouchedTask(s, s.nextTask, Poll(n, instance, s.nextToken, false), m);
  }

  lemma UntouchedTrans(a: State, b: State, c: State, m: Name)
    requires Untouched(a, b, m) && Untouched(b, c, m)
    ensures Untouched(a, c, m)
  {
  }

  lemma UntouchedFire(s: State, id: nat, o: Outcome, m: Name)
    requires Inv(s) && id in s.tasks && s.tasks[id].Restart? && s.tasks[id].name != m
    ensures Untouched(s, DoFire(s, id, o), m)
  {
    var n := s.tasks[id].name;
    UntouchedTask(s, id, s.tasks[id], m);
    if n in s.loaded {
      var e := s.loaded[n];
      var s1 := Halt(Cancel(s, e.token), e.instance);
      UntouchedCancel(s, n, m);
      UntouchedFrame(Cancel(s, e.token), s1, m);
      UntouchedTrans(s, Cancel(s, e.token), s1, m);
      UntouchedReplace(s1, id, n, e, o, m);
      hide Untouched, Halt, Cancel, Replace;
      UntouchedTrans(s, s1, DoFire(s, id, o), m);
    }
  }

  lemma UntouchedReplace(s: State, id: nat, n: Name, e: Entry, o: Outcome, m: Name)
    requires id in s.tasks && s.tasks[id].name == n && n != m && s.nextTask !in s.tasks
    ensures Untouched(s, Replace(s, id, n, e, o), m)
  {
    UntouchedTask(s, id, Report(n, false), m);
    UntouchedTask(s, id, Report(n, true), m);
    var s1 := EndTask(Publish(Build(s, n), n, Initializing), id);
    UntouchedInstall(s1, n, |s.instances|, e.restartAttempt, e.loadSeq, m);
    UntouchedTrans(s, s1, RestartSucceeds(s, id, n, e), m);
  }

  lemma UntouchedLoad(s: State, n: Name, o: Outcome, saved: bool, m: Name)
    requires Inv(s) && m != n
    ensures Untouched(s, DoLoad(s, n, o, saved), m)
  {
    var s' := DoLoad(s, n, o, saved);
    if n !in s.loaded && o.Success? {
      var s1 := Publish(Build(s, n), n, Initializing).(loadSeq := s.loadSeq + 1);
      UntouchedFrame(s, s1, m);
      UntouchedInstall(s1, n, |s.instances|, 0, s.loadSeq, m);
      var s2 := Install(s1, n, |s.instances|, 0, s.loadSeq);
      UntouchedFrame(s2, s', m);
      hide Untouched;
      UntouchedTrans(s, s1, s2, m);
      UntouchedTrans(s, s2, s', m);
    } else {
      UntouchedFrame(s, s', m);
    }
  }

  lemma UntouchedUnload(s: State, n: Name, saved: bool, m: Name)
    requires Inv(s) && m != n
    ensures Untouched(s, DoUnload(s, n, saved), m)
  {
    if n in s.loaded { UntouchedCancel(s, n, m); }
  }

  lemma UntouchedProbe(s: State, id: nat, level: Health, delay: nat, m: Name)
    requires Inv(s) && id in s.tasks && s.tasks[id].Poll? && s.tasks[id].name != m
    ensures Untouched(s, DoProbe(s, id, level, delay), m)
  {
    hide Inv, Untouched, ActOnHealth;
    var t := s.tasks[id];
    var s1 := ActOnHealth(s, t.name, level, delay);
    UntouchedAct(s, t.name, level, delay, m);
    ActTasks(s, t.name, level, delay);
    UntouchedTask(s1, id, t.(probing := false), m);
    UntouchedTrans(s, s1, DoProbe(s, id, level, delay), m);
  }

  lemma UntouchedAct(s: State, n: Name, level: Health, delay: nat, m: Name)
    requires Inv(s) && m != n
    ensures Untouched(s, ActOnHealth(s, n, level, delay), m)
  {
    hide Inv, DoReport;
    if level.Unhealthy? { UntouchedReport(s, n, delay, m); }
  }

  lemma UntouchedReportFailed(s: State, id: nat, delay: nat, m: Name)
    requires Inv(s) && id in s.tasks && s.tasks[id].Report? && s.tasks[id].name != m
    ensures Untouched(s, DoReportFailed(s, id, delay), m)
  {
    var s0 := PublishError(s, s.tasks[id].name);
    var s1 := EndTask(s0, id);
    FrameKeeps(s, s0);
    EndKeeps(s0, id);
    UntouchedReport(s1, s.tasks[id].name, delay, m);
  }

  /** Every step but shutdown leaves every module other than its target untouched. */
  lemma StepLocal(s: State, l: Label, m: Name)
    requires Inv(s) && Possibly(s, l) && !l.StopEverything? && Target(s, l) != Some(m)
    ensures Untouched(s, Apply(s, l), m)
  {
    match l
    case Load(n, o, saved) => UntouchedLoad(s, n, o, saved, m);
    case Unload(n, saved) => UntouchedUnload(s, n, saved, m);
    case ReadEnabled =>
    case AdoptEnabled(_) =>
    case CancelLife =>
    case Tick(_) =>
    case Wake(id) => UntouchedTask(s, id, s.tasks[id].(probing := true), m);
    case Probe(id, level, delay) => UntouchedProbe(s, id, level, delay, m);
    case ExitPoll(id) => UntouchedTask(s, id, s.tasks[id], m);
    case Fire(id, o) => UntouchedFire(s, id, o, m);
    case Abandon(id) => UntouchedTask(s, id, s.tasks[id], m);
    case ReportFailed(id, delay) => UntouchedReportFailed(s, id, delay, m);
  }

  // ---- conservation ----

  /** The step is a load that actually starts the module. */
  predicate Starts(s: State, l: Label, n: Name)
  {
    l.Load? && l.name == n && l.outcome.Success? && n !in s.loaded
  }

  /** How often a run's loads started `n`. */
  ghost function StartCount(s0: State, run: seq<Label>, n: Name): nat
    requires Legal(s0, run)
    decreases |run|
  {
    if run == [] then 0
    else
      var k := |run| - 1;
      StartCount(s0, run[..k], n) + if Starts(After(s0, run[..k]), run[k], n) then 1 else 0
  }

  lemma ReportTasks(s: State, n: Name, delay: nat)
    requires Inv(s)
    ensures TasksOf(DoReport(s, n, delay), n) <= TasksOf(s, n) + {s.nextTask}
    ensures n !in s.loaded ==> DoReport(s, n, delay) == s
    ensures n in s.loaded ==> s.loaded[n].token in DoReport(s, n, delay).cancelled
    ensures s.cancelled <= DoReport(s, n, delay).cancelled
  {
  }

  /** A loop that reports a failure ends with that report, so it hands its place to the restart. */
  lemma ProbeTasks(s: State, id: nat, level: Health, delay: nat)
    requires Inv(s) && id in s.tasks && s.tasks[id].Poll?
    ensures |TasksOf(DoProbe(s, id, level, delay), s.tasks[id].name)| <= |TasksOf(s, s.tasks[id].name)|
  {
    hide Inv, DoReport;
    var n := s.tasks[id].name;
    var s' := DoProbe(s, id, level, delay);
    assert id in TasksOf(s, n);
    if level.Unhealthy? && n in s.loaded {
      ReportTasks(s, n, delay);
      PollEnds(s, id, n, delay);
      var s1 := DoReport(s, n, delay);
      assert s' == EndTask(s1, id) && TasksOf(s', n) == TasksOf(s1, n) - {id};
      CardLeq(TasksOf(s', n), (TasksOf(s, n) - {id}) + {s.nextTask});
    } else {
      if level.Unhealthy? { ReportTasks(s, n, delay); }
      assert ActOnHealth(s, n, level, delay).tasks == s.tasks;
      CardLeq(TasksOf(s', n), TasksOf(s, n));
    }
  }

  /** The token of a loop that reports its own module's failure is cancelled by then. */
  lemma PollEnds(s: State, id: nat, n: Name, delay: nat)
    requires Inv(s) && id in s.tasks && s.tasks[id].Poll? && s.tasks[id].name == n && n in s.loaded
    ensures s.tasks[id].token in DoReport(s, n, delay).cancelled
  {
    ReportTasks(s, n, delay);
    assert SoundPoll(s, s.tasks[id]);
  }

  lemma CardLeq<T>(a: set<T>, b: set<T>)
    requires a <= b
    ensures |a| <= |b|
  {
    assert b == a + (b - a);
  }

  lemma EndTasks(s: State, id: nat, n: Name)
    ensures |TasksOf(EndTask(s, id), n)| <= |TasksOf(s, n)|
  {
    CardLeq(TasksOf(EndTask(s, id), n), TasksOf(s, n));
  }

  lemma FireTasks(s: State, id: nat, o: Outcome)
    requires Inv(s) && id in s.tasks && s.tasks[id].Restart?
    ensures |TasksOf(DoFire(s, id, o), s.tasks[id].name)| <= |TasksOf(s, s.tasks[id].name)|
  {
    var n := s.tasks[id].name;
    if n in s.loaded {
      var e := s.loaded[n];
      var s1 := Halt(Cancel(s, e.token), e.instance);
      assert TasksOf(s1, n) == TasksOf(s, n);
      ReplaceTasks(s1, id, n, e, o);
    } else {
      EndTasks(s, id, n);
    }
  }

  lemma ReplaceTasks(s: State, id: nat, n: Name, e: Entry, o: Outcome)
    requires id in s.tasks && s.tasks[id].name == n
    ensures |TasksOf(Replace(s, id, n, e, o), n)| <= |TasksOf(s, n)|
  {
    var s' := Replace(s, id, n, e, o);
    assert id in TasksOf(s, n);
    if o.Success? {
      CardLeq(TasksOf(s', n), TasksOf(s, n) - {id} + {s.nextTask});
    } else {
      assert TasksOf(s', n) == TasksOf(s, n);
    }
  }

  lemma ReportFailedTasks(s: State, id: nat, delay: nat)
    requires Inv(s) && id in s.tasks && s.tasks[id].Report?
    ensures |TasksOf(DoReportFailed(s, id, delay), s.tasks[id].name)| <= |TasksOf(s, s.tasks[id].name)|
  {
    var n := s.tasks[id].name;
    var s0 := PublishError(s, n);
    var s1 := EndTask(s0, id);
    FrameKeeps(s, s0);
    EndKeeps(s0, id);
    ReportTasks(s1, n, delay);
    assert TasksOf(s1, n) == TasksOf(s, n) - {id};
    CardLeq(TasksOf(DoReport(s1, n, delay), n), TasksOf(s1, n) + {s.nextTask});
  }

  lemma {:induction false} StopAllTasks(s: State, order: seq<Name>)
    ensures StopAll(s, order).tasks == s.tasks
    decreases |order|
  {
    if order != [] { StopAllTasks(StopLocked(s, order[0]), order[1..]); }
  }

  lemma StepTasks(s: State, l: Label, n: Name)
    requires Inv(s) && Possibly(s, l)
    ensures |TasksOf(Apply(s, l), n)| <= |TasksOf(s, n)| + if Starts(s, l, n) then 1 else 0
  {
    hide Inv, DoLoad, DoUnload, DoProbe, DoFire, DoReportFailed, StopAll;
    if l.StopEverything? {
      StopAllTasks(s, Lifo(s.loaded));
    } else if Target(s, l) != Some(n) {
      StepLocal(s, l, n);
    } else {
      match l
      case Load(_, o, saved) => LoadTasks(s, n, o, saved);
      case Unload(_, saved) => UnloadTasks(s, n, saved);
      case Wake(id) => assert TasksOf(Apply(s, l), n) == TasksOf(s, n);
      case Probe(id, level, delay) => ProbeTasks(s, id, level, delay);
      case ExitPoll(id) => EndTasks(s, id, n);
      case Fire(id, o) => FireTasks(s, id, o);
      case Abandon(id) => EndTasks(s, id, n);
      case ReportFailed(id, delay) => ReportFailedTasks(s, id, delay);
    }
  }

  lemma UnloadTasks(s: State, n: Name, saved: bool)
    ensures DoUnload(s, n, saved).tasks == s.tasks
  {
  }

  lemma LoadSpawns(s: State, n: Name, o: Outcome, saved: bool)
    ensures var s' := DoLoad(s, n, o, saved);
      s'.tasks == if o.Success? && n !in s.loaded
        then s.tasks[s.nextTask := Poll(n, |s.instances|, s.nextToken, false)] else s.tasks
  {
  }

  lemma LoadTasks(s: State, n: Name, o: Outcome, saved: bool)
    ensures |TasksOf(DoLoad(s, n, o, saved), n)| <= |TasksOf(s, n)| + if o.Success? && n !in s.loaded then 1 else 0
  {
    hide DoLoad;
    var s' := DoLoad(s, n, o, saved);
    LoadSpawns(s, n, o, saved);
    CardLeq(TasksOf(s', n), TasksOf(s, n) + if o.Success? && n !in s.loaded then {s.nextTask} else {});
  }

  /** In every run, the tasks alive for a name never outnumber the times a load started it. */
  lemma {:induction false} TasksConserved(cfg: Config, disk: Disk, run: seq<Label>, n: Name)
    requires Legal(Init(cfg, disk), run)
    ensures |TasksOf(After(Init(cfg, disk), run), n)| <= StartCount(Init(cfg, disk), run, n)
    decreases |run|
  {
    var s0 := Init(cfg, disk);
    if run == [] {
    } else {
      var k := |run| - 1;
      TasksConserved(cfg, disk, run[..k], n);
      RunInv(cfg, disk, run[..k]);
      StepTasks(After(s0, run[..k]), run[k], n);
    }
  }

  /** In every run, at most one health loop per name has an uncancelled token: the one whose token
      the loaded entry holds, and it watches the stored instance. */
  lemma OneLivePoll(cfg: Config, disk: Disk, run: seq<Label>, i: nat, j: nat)
    requires Legal(Init(cfg, disk), run)
    requires var s := After(Init(cfg, disk), run);
      && i in s.tasks && s.tasks[i].Poll? && s.tasks[i].token !in s.cancelled
      && j in s.tasks && s.tasks[j].Poll? && s.tasks[j].token !in s.cancelled
      && s.tasks[i].name == s.tasks[j].name
    ensures i == j
    ensures var s := After(Init(cfg, disk), run);
      && s.tasks[i].name in s.loaded
      && s.loaded[s.tasks[i].name].token == s.tasks[i].token
      && s.loaded[s.tasks[i].name].instance == s.tasks[i].instance
  {
    RunInv(cfg, disk, run);
    var s := After(Init(cfg, disk), run);
    assert SoundPoll(s, s.tasks[i]) && SoundPoll(s, s.tasks[j]);
  }

  predicate Unstopped(x: Instance)
  {
    x.handedOver && x.stops == 0
  }

  /** In every run, an instance handed to the supervisor is the stored one for its name or has been
      stopped; so no name has two un-stopped instances. A launched plugin process is torn down at
      most once however often it is stopped, and exactly once if its name is not loaded. */
  lemma NothingLeaks(cfg: Config, disk: Disk, run: seq<Label>, i: nat)
    requires Legal(Init(cfg, disk), run) && i < |After(Init(cfg, disk), run).instances|
    ensures var s := After(Init(cfg, disk), run); var x := s.instances[i];
      && (x.handedOver ==> x.stops > 0 || (x.name in s.loaded && s.loaded[x.name].instance == i))
      && (Unstopped(x) ==>
            forall j :: 0 <= j < |s.instances| && Unstopped(s.instances[j]) && s.instances[j].name == x.name ==> i == j)
      && x.teardowns <= 1
      && (x.external && (x.name !in s.loaded || s.loaded[x.name].instance != i) ==> x.teardowns == 1)
      && (x.external ==> (x.teardowns == 1 <==> !x.handedOver || x.stops > 0))
  {
    RunInv(cfg, disk, run);
    var s := After(Init(cfg, disk), run);
    forall j | 0 <= j < |s.instances| ensures AccountedFor(s, j, s.instances[j]) {}
  }
}
