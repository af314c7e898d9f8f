/** A module that is retried although its budget is used up: it fails after the stability window, and
    its failed restart is measured against the same old start. */
module SupervisorRetry {
  import opened Options
  import opened SupervisorModel
  import Backoff

  const M: Name := "m"

  /** A budget of two failures within ten nanoseconds of a start. */
  const CFG := Config({M}, false, 2, 10)

  function Delay(): nat
  {
    Backoff.DelayFor(0, Some(0.0))
  }

  /** Loaded and healthy for the whole window. */
  const STARTED: seq<Label> := [] + [Load(M, Success, true)] + [Tick(10)] + [Wake(0)]

  /** Then unhealthy. */
  function Unwell(): seq<Label>
  {
    STARTED + [Probe(0, Unhealthy, Delay())]
  }

  /** Its restart fails. */
  function RestartFailed(): seq<Label>
  {
    Unwell() + [Tick(Delay())] + [Fire(1, InitError)]
  }

  /** And is reported as its second failure. */
  function Reported(): seq<Label>
  {
    RestartFailed() + [ReportFailed(1, Delay())]
  }

  lemma DelayIsDrawn()
    ensures Backoff.RandomDelay(0, Delay())
  {
  }

  lemma StartedState()
    ensures Legal(Init(CFG, Unreadable), STARTED)
    ensures var s := After(Init(CFG, Unreadable), STARTED);
      && s.cfg == CFG && s.now == 10 && s.nextTask == 1 && s.cancelled == {} && |s.instances| == 1
      && s.loaded == map[M := Entry(0, Running, 0, 0, 0, 0)] && s.tasks == map[0 := Poll(M, 0, 0, true)]
  {
    var s0 := Init(CFG, Unreadable);
    Extend(s0, [], Load(M, Success, true));
    var run := [] + [Load(M, Success, true)];
    Extend(s0, run + [Tick(10)], Wake(0));
  }

  lemma UnwellState()
    ensures Legal(Init(CFG, Unreadable), Unwell())
    ensures var s := After(Init(CFG, Unreadable), Unwell());
      && s.cfg == CFG && s.now == 10 && s.nextTask == 2 && |s.instances| == 1
      && s.loaded == map[M := Entry(0, Degraded, 1, 0, 0, 0)] && s.tasks == map[1 := Restart(M, 10 + Delay())]
  {
    hide Delay, Backoff.RandomDelay, DoLoad, DoUnload, DoProbe, DoFire, DoReportFailed, StopAll;
    DelayIsDrawn();
    StartedState();
    ProbeCounts(After(Init(CFG, Unreadable), STARTED));
    Extend(Init(CFG, Unreadable), STARTED, Probe(0, Unhealthy, Delay()));
  }

  lemma ProbeCounts(s: State)
    requires s.cfg == CFG && s.now == 10 && s.nextTask == 1 && s.cancelled == {}
    requires s.loaded == map[M := Entry(0, Running, 0, 0, 0, 0)] && s.tasks == map[0 := Poll(M, 0, 0, true)]
    ensures var s' := DoProbe(s, 0, Unhealthy, Delay());
      && s'.cfg == CFG && s'.now == 10 && s'.nextTask == 2 && s'.instances == s.instances
      && s'.loaded == map[M := Entry(0, Degraded, 1, 0, 0, 0)] && s'.tasks == map[1 := Restart(M, 10 + Delay())]
  {
    hide Delay;
    assert DoReport(s, M, Delay()) == Schedule(s, M, s.loaded[M], 1, 10 + Delay());
  }

  lemma RestartFailedState()
    ensures Legal(Init(CFG, Unreadable), RestartFailed())
    ensures var s := After(Init(CFG, Unreadable), RestartFailed());
      && s.cfg == CFG && s.now == 10 + Delay() && s.nextTask == 2
      && s.loaded == map[M := Entry(0, Degraded, 1, 0, 0, 0)] && s.tasks == map[1 := Report(M, true)]
  {
    hide Delay, DoLoad, DoUnload, DoProbe, DoFire, DoReportFailed, StopAll;
    UnwellState();
    Extend(Init(CFG, Unreadable), Unwell(), Tick(Delay()));
    FireFails(After(Init(CFG, Unreadable), Unwell() + [Tick(Delay())]));
    Extend(Init(CFG, Unreadable), Unwell() + [Tick(Delay())], Fire(1, InitError));
  }

  lemma FireFails(s: State)
    requires s.cfg == CFG && s.nextTask == 2 && |s.instances| == 1
    requires s.loaded == map[M := Entry(0, Degraded, 1, 0, 0, 0)] && 1 in s.tasks
    requires s.tasks.Keys == {1} && s.tasks[1].Restart? && s.tasks[1].name == M
    ensures var s' := DoFire(s, 1, InitError);
      && s'.cfg == CFG && s'.now == s.now && s'.nextTask == 2
      && s'.loaded == s.loaded && s'.tasks == map[1 := Report(M, true)]
  {
  }

  /** Two failures in a row, as many as the budget allows, and no successful restart in between: yet
      the module is degraded with its count back at one, and another restart is on its way. */
  lemma NotParked()
    ensures Legal(Init(CFG, Unreadable), Reported())
    ensures var s := After(Init(CFG, Unreadable), Reported());
      && M in s.loaded && s.loaded[M].state == Degraded && s.loaded[M].restartAttempt == 1
      && s.tasks == map[2 := Restart(M, s.now + Delay())]
  {
    hide Delay, Backoff.RandomDelay, DoLoad, DoUnload, DoProbe, DoFire, DoReportFailed, StopAll;
    DelayIsDrawn();
    RestartFailedState();
    var s := After(Init(CFG, Unreadable), RestartFailed());
    ReportCounts(s);
    Extend(Init(CFG, Unreadable), RestartFailed(), ReportFailed(1, Delay()));
  }

  lemma ReportCounts(s: State)
    requires s.cfg == CFG && s.now >= 10 && s.nextTask == 2
    requires s.loaded == map[M := Entry(0, Degraded, 1, 0, 0, 0)] && s.tasks == map[1 := Report(M, true)]
    ensures var s' := DoReportFailed(s, 1, Delay());
      && s'.now == s.now && s'.loaded == map[M := Entry(0, Degraded, 1, 0, 0, 0)]
      && s'.tasks == map[2 := Restart(M, s.now + Delay())]
  {
  }
}
