/** Why a reload should be quiescent: tasks left over from an earlier load act on the new one. */
module SupervisorLeftovers {
  import opened SupervisorModel
  import opened SupervisorInvariants
  import opened SupervisorTasks
  import opened SupervisorSituations
  import opened SupervisorFailed
  import Backoff

  /** Time passes, or a task older than `bound` takes a step. */
  predicate OldTurn(l: Label, bound: nat)
  {
    match l
    case Tick(_) => true
    case Wake(id) => id < bound
    case Probe(id, _, _) => id < bound
    case ExitPoll(id) => id < bound
    case Fire(id, _) => id < bound
    case Abandon(id) => id < bound
    case ReportFailed(id, _) => id < bound
    case _ => false
  }

  /** Old tasks alone change the entry of `n`. */
  ghost predicate ActsOn(s: State, run: seq<Label>, n: Name, bound: nat)
    requires n in s.loaded
  {
    && Legal(s, run) && (forall i :: 0 <= i < |run| ==> OldTurn(run[i], bound))
    && !(n in After(s, run).loaded && After(s, run).loaded[n] == s.loaded[n])
  }

  lemma {:induction false} StrangersStayOut(s: State, run: seq<Label>, n: Name, bound: nat)
    requires Inv(s) && n in s.loaded && Legal(s, run)
    requires forall id :: id in TasksOf(s, n) ==> id >= bound
    requires forall i :: 0 <= i < |run| ==> OldTurn(run[i], bound)
    ensures var s' := After(s, run); n in s'.loaded && s'.loaded[n] == s.loaded[n] && TasksOf(s', n) == TasksOf(s, n)
    decreases |run|
  {
    hide Apply, Inv, Possibly;
    if run != [] {
      var k := |run| - 1;
      StrangersStayOut(s, run[..k], n, bound);
      RunKeeps(s, run[..k]);
      StrangerTurn(After(s, run[..k]), run[k], n, bound);
    }
  }

  lemma StrangerTurn(s: State, l: Label, n: Name, bound: nat)
    requires Inv(s) && Possibly(s, l) && OldTurn(l, bound) && forall id :: id in TasksOf(s, n) ==> id >= bound
    ensures Untouched(s, Apply(s, l), n)
  {
    hide Inv, Apply, Untouched;
    forall id | id in s.tasks && id < bound ensures s.tasks[id].name != n { assert id !in TasksOf(s, n); }
    StepLocal(s, l, n);
  }

  /** A leftover health loop sees the new module degraded. */
  lemma PollActs(s: State, id: nat, bound: nat)
    requires id in s.tasks && s.tasks[id].Poll? && id < bound
    requires s.tasks[id].name in s.loaded && s.loaded[s.tasks[id].name].state == Running
    ensures exists run :: ActsOn(s, run, s.tasks[id].name, bound)
  {
    hide Legal, After, DoLoad, DoUnload, DoProbe, DoFire, DoReportFailed, StopAll;
    var n := s.tasks[id].name;
    var probe := Probe(id, Impaired, 0);
    EmptyRun(s);
    if s.tasks[id].probing {
      ProbeDegrades(s, id);
      Extend(s, [], probe);
      assert ActsOn(s, [] + [probe], n, bound);
    } else {
      ProbeDegrades(Apply(s, Wake(id)), id);
      TwoSteps(s, Wake(id), probe);
      assert ActsOn(s, [Wake(id), probe], n, bound);
    }
  }

  /** A leftover restart replaces its instance. */
  lemma RestartActs(s: State, id: nat, bound: nat)
    requires Inv(s) && id in s.tasks && s.tasks[id].Restart? && id < bound && s.tasks[id].name in s.loaded
    ensures exists run :: ActsOn(s, run, s.tasks[id].name, bound)
  {
    hide Inv, Legal, After, DoLoad, DoUnload, DoProbe, DoFire, DoReportFailed, StopAll;
    var n := s.tasks[id].name;
    var wait, fire := Tick(s.tasks[id].due), Fire(id, Success);
    LoadedFacts(s, n);
    TokenBelow(s, n);
    FreshToken(s.(now := s.now + s.tasks[id].due), id);
    TwoSteps(s, wait, fire);
    assert ActsOn(s, [wait, fire], n, bound);
  }

  lemma TokenBelow(s: State, n: Name)
    requires Inv(s) && n in s.loaded
    ensures s.loaded[n].token < s.nextToken
  {
    assert SoundEntry(s, n, s.loaded[n]);
  }

  lemma FreshToken(s: State, id: nat)
    requires id in s.tasks && s.tasks[id].Restart? && s.tasks[id].name in s.loaded
    ensures var s' := DoFire(s, id, Success); var n := s.tasks[id].name;
      n in s'.loaded && s'.loaded[n].token == s.nextToken
  {
  }

  /** The report of a leftover failed restart counts as the new module's failure. */
  lemma ReportActs(s: State, id: nat, bound: nat)
    requires id in s.tasks && s.tasks[id].Report? && id < bound
    requires var n := s.tasks[id].name; n in s.loaded && s.loaded[n].state == Running && s.loaded[n].restartAttempt == 0
    ensures exists run :: ActsOn(s, run, s.tasks[id].name, bound)
  {
    hide Legal, After, DoLoad, DoUnload, DoProbe, DoFire, DoReportFailed, StopAll;
    hide Backoff.RandomDelay;
    var delay := AnyDelay();
    var report := ReportFailed(id, delay);
    ReportUnsettles(s, id, delay);
    EmptyRun(s);
    Extend(s, [], report);
    assert ActsOn(s, [] + [report], s.tasks[id].name, bound);
  }

  lemma ReportUnsettles(s: State, id: nat, delay: nat)
    requires id in s.tasks && s.tasks[id].Report? && s.tasks[id].name in s.loaded
    ensures var s' := DoReportFailed(s, id, delay); var n := s.tasks[id].name;
      n in s'.loaded && s'.loaded[n].state != Running
  {
  }

  /** The entry and the tasks of a module that was just started. */
  lemma JustStarted(s: State, l: Label, n: Name)
    requires Possibly(s, l) && Starts(s, l, n)
    ensures var s' := Apply(s, l);
      && n in s'.loaded && s'.loaded[n].state == Running && s'.loaded[n].restartAttempt == 0
      && s'.tasks == s.tasks[s.nextTask := Poll(n, |s.instances|, s.nextToken, false)]
  {
  }

  /** Tasks older than a start can change the entry of the module it starts if and only if some task of
      an earlier load of that name is left. From a state with every module in one situation, that is
      also when the start takes the module out of them. */
  lemma OldTasksActIffLeft(s: State, l: Label, n: Name)
    requires Inv(s) && Possibly(s, l) && Starts(s, l, n)
    ensures n in Apply(s, l).loaded
    ensures (exists run :: ActsOn(Apply(s, l), run, n, s.nextTask)) <==> TasksOf(s, n) != {}
    ensures Situated(s) && !s.lifeCancelled && s.cfg.maxRestarts >= 1 ==>
      (Situated(Apply(s, l)) <==> TasksOf(s, n) == {})
  {
    hide Inv, Apply, Possibly, Situated, Legal, After;
    var s' := Apply(s, l);
    JustStarted(s, l, n);
    StepKeeps(s, l);
    if Situated(s) && !s.lifeCancelled && s.cfg.maxRestarts >= 1 { QuiescenceNeeded(s, l, n); }
    if TasksOf(s, n) == {} {
      forall id | id in TasksOf(s', n) ensures id >= s.nextTask { assert id != s.nextTask ==> id !in TasksOf(s, n); }
      forall run | ActsOn(s', run, n, s.nextTask) ensures false { StrangersStayOut(s', run, n, s.nextTask); }
    } else {
      var id :| id in TasksOf(s, n);
      InvBelow(s, id);
      match s.tasks[id]
      case Poll(_, _, _, _) => PollActs(s', id, s.nextTask);
      case Restart(_, _) => RestartActs(s', id, s.nextTask);
      case Report(_, _) => ReportActs(s', id, s.nextTask);
    }
  }
}
