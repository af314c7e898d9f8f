/** What each operation leaves behind, spelled out: entry, tasks, tokens, instances and announcements. */
module SupervisorEffects {
  import opened SupervisorModel

  /** The announcement of a state, without a reason. */
  function Announce(n: Name, state: ModuleState): Event
  {
    StateChanged(n, state, false)
  }

  /** A load that starts the module stores it as running since now, under the next load number, watched by
      one new sleeping health loop with a new token. */
  lemma StartEffect(s: State, n: Name, saved: bool)
    requires n !in s.loaded
    ensures DoLoad(s, n, Success, saved) == s.(
      loaded := s.loaded[n := Entry(|s.instances|, Running, 0, s.now, s.loadSeq, s.nextToken)],
      persisted := s.persisted + {n},
      disk := if saved then Enabled(s.persisted + {n}) else s.disk,
      loadSeq := s.loadSeq + 1,
      nextToken := s.nextToken + 1,
      tasks := s.tasks[s.nextTask := Poll(n, |s.instances|, s.nextToken, false)],
      nextTask := s.nextTask + 1,
      instances := s.instances + [Instance(n, n !in s.cfg.registry, true, n !in s.cfg.registry, 0, 0)],
      events := s.events + [Announce(n, Initializing), Announce(n, Running)])
  {
  }

  /** A load whose instance does not come up leaves that instance stopped, and nothing else but news. */
  lemma FailedLoadEffect(s: State, n: Name, o: Outcome, saved: bool)
    requires n !in s.loaded && !o.Success?
    ensures DoLoad(s, n, o, saved) ==
      if o.InitError? || o.StartError? then s.(
        instances := s.instances +
          [Instance(n, n !in s.cfg.registry, true, false, 1, if n !in s.cfg.registry then 1 else 0)],
        events := s.events + [Announce(n, Initializing), ErrorRaised(n), Announce(n, Disabled)])
      else if o.DispenseError? then s.(instances := s.instances + [Instance(n, true, false, false, 0, 1)])
      else s
  {
    if o.InitError? || o.StartError? {
      var s1 := Publish(Build(s, n), n, Initializing);
      assert s1.instances[..|s.instances|] == s.instances;
    }
  }

  /** A failure report: the loop's token is cancelled, the count goes up by one from what it carries over,
      and the module is parked or a restart falls due after the delay. */
  lemma ReportEffect(s: State, n: Name, delay: nat)
    requires n in s.loaded
    ensures var e := s.loaded[n];
      var attempt := (if s.now - e.startedAt >= s.cfg.window then 0 else e.restartAttempt) + 1;
      DoReport(s, n, delay) ==
        if attempt >= s.cfg.maxRestarts then s.(
          loaded := s.loaded[n := e.(state := Failed, restartAttempt := attempt)],
          cancelled := s.cancelled + {e.token},
          events := s.events + [Announce(n, Failed), ErrorRaised(n)])
        else s.(
          loaded := s.loaded[n := e.(state := Degraded, restartAttempt := attempt)],
          cancelled := s.cancelled + {e.token},
          events := s.events + [StateChanged(n, Degraded, true)],
          tasks := s.tasks[s.nextTask := Restart(n, s.now + delay)],
          nextTask := s.nextTask + 1)
  {
  }

  /** What a report that is no failure makes of a state. */
  function Observed(level: Health, state: ModuleState): ModuleState
  {
    match level
    case Healthy => if state == Degraded then Running else state
    case Impaired => Degraded
    case Unhealthy => state
  }

  /** Such a report changes the state alone, and announces it exactly if it changes. */
  lemma ObserveEffect(s: State, n: Name, level: Health, delay: nat)
    requires n in s.loaded && !level.Unhealthy?
    ensures var e := s.loaded[n]; var state := Observed(level, e.state);
      ActOnHealth(s, n, level, delay) ==
        if state == e.state then s
        else s.(loaded := s.loaded[n := e.(state := state)], events := s.events + [Announce(n, state)])
  {
  }

  /** What a probe that sees no failure does to the module it is for, in any state: a healthy report makes
      degraded running and leaves every other state, an impaired one makes it degraded, and the change is
      announced if and only if there is one. */
  lemma ProbeObserves(s: State, id: nat, level: Health, delay: nat)
    requires Possibly(s, Probe(id, level, delay)) && s.tasks[id].name in s.loaded && !level.Unhealthy?
    ensures var n := s.tasks[id].name; var s' := Apply(s, Probe(id, level, delay));
      && n in s'.loaded && s'.loaded == s.loaded[n := s.loaded[n].(state := s'.loaded[n].state)]
      && (level.Healthy? ==>
           s'.loaded[n].state == if s.loaded[n].state == Degraded then Running else s.loaded[n].state)
      && (level.Impaired? ==> s'.loaded[n].state == Degraded)
      && s'.events == s.events +
           (if s'.loaded[n].state != s.loaded[n].state then [Announce(n, s'.loaded[n].state)] else [])
  {
    hide ActOnHealth;
    ObserveEffect(s, s.tasks[id].name, level, delay);
  }

  /** A restart that succeeds: the old instance is stopped and its token cancelled; the new one runs since
      now with the budget and the load number it had, watched by one new health loop. */
  lemma RestartEffect(s: State, id: nat)
    requires id in s.tasks && s.tasks[id].Restart? && s.tasks[id].name in s.loaded
    ensures var n := s.tasks[id].name; var e := s.loaded[n];
      DoFire(s, id, Success) == s.(
        loaded := s.loaded[n := Entry(|s.instances|, Running, e.restartAttempt, s.now, e.loadSeq, s.nextToken)],
        cancelled := s.cancelled + {e.token},
        nextToken := s.nextToken + 1,
        tasks := (s.tasks - {id})[s.nextTask := Poll(n, |s.instances|, s.nextToken, false)],
        nextTask := s.nextTask + 1,
        instances := Halt(s, e.instance).instances +
          [Instance(n, n !in s.cfg.registry, true, n !in s.cfg.registry, 0, 0)],
        events := s.events + [Announce(n, Initializing), Announce(n, Running)])
  {
  }

  /** One that fails leaves the entry as it was and its report pending. */
  lemma FailedRestartEffect(s: State, id: nat, o: Outcome)
    requires id in s.tasks && s.tasks[id].Restart? && s.tasks[id].name in s.loaded && !o.Success?
    ensures var n := s.tasks[id].name; var e := s.loaded[n];
      var halted := s.(cancelled := s.cancelled + {e.token}, instances := Halt(s, e.instance).instances);
      DoFire(s, id, o) ==
        if o.InitError? || o.StartError? then halted.(
          tasks := s.tasks[id := Report(n, true)],
          instances := halted.instances +
            [Instance(n, n !in s.cfg.registry, true, false, 1, if n !in s.cfg.registry then 1 else 0)],
          events := s.events + [Announce(n, Initializing)])
        else halted.(
          tasks := s.tasks[id := Report(n, false)],
          instances := halted.instances + if o.DispenseError? then [Instance(n, true, false, false, 0, 1)] else [])
  {
    hide Replace, Halt;
    var e := s.loaded[s.tasks[id].name];
    HaltOnly(Cancel(s, e.token), e.instance);
    HaltOnly(s, e.instance);
    FailedReplaceEffect(Halt(Cancel(s, e.token), e.instance), id, s.tasks[id].name, e, o);
  }

  lemma HaltOnly(s: State, i: nat)
    ensures Halt(s, i) == s.(instances := Halt(s, i).instances)
    ensures forall c :: Halt(s.(cancelled := c), i).instances == Halt(s, i).instances
  {
  }

  lemma FailedReplaceEffect(s: State, id: nat, n: Name, e: Entry, o: Outcome)
    requires !o.Success?
    ensures Replace(s, id, n, e, o) ==
      if o.InitError? || o.StartError? then s.(
        tasks := s.tasks[id := Report(n, true)],
        instances := s.instances +
          [Instance(n, n !in s.cfg.registry, true, false, 1, if n !in s.cfg.registry then 1 else 0)],
        events := s.events + [Announce(n, Initializing)])
      else s.(
        tasks := s.tasks[id := Report(n, false)],
        instances := s.instances + if o.DispenseError? then [Instance(n, true, false, false, 0, 1)] else [])
  {
    if o.InitError? || o.StartError? {
      assert Build(s, n).instances[..|s.instances|] == s.instances;
    } else if !o.DispenseError? {
      assert s.instances + [] == s.instances;
    }
  }
}
