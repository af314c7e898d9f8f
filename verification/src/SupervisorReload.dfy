/** Why quiescence is needed: a health loop left over from before an unload acts on the next load of
    the same name, and can bring a failed module back. */
module SupervisorReload {
  import opened SupervisorModel

  const M: Name := "m"
  const CFG := Config({M}, false, 1, 10)

  /** Loaded and unloaded again while the health loop is mid-probe. */
  const UNLOADED: seq<Label> := [] + [Load(M, Success, true)] + [Wake(0)] + [Unload(M, true)]

  const RELOADED := UNLOADED + [Load(M, Success, true)]

  /** The old loop's unhealthy report parks the new module. */
  const PARKED := RELOADED + [Probe(0, Unhealthy, 0)]

  /** The new module's own loop, cancelled while asleep, completes one last probe. */
  const REVIVED := PARKED + [Wake(1)] + [Probe(1, Impaired, 0)]

  lemma UnloadedState()
    ensures Legal(Init(CFG, Unreadable), UNLOADED)
    ensures var s := After(Init(CFG, Unreadable), UNLOADED);
      && s.cfg == CFG && s.now == 0 && s.cancelled == {0} && s.loaded == map[] && s.loadSeq == 1 && s.nextToken == 1
      && s.tasks == map[0 := Poll(M, 0, 0, true)] && s.nextTask == 1 && |s.instances| == 1
  {
    var s0 := Init(CFG, Unreadable);
    Extend(s0, [], Load(M, Success, true));
    Extend(s0, [] + [Load(M, Success, true)], Wake(0));
    Extend(s0, [] + [Load(M, Success, true)] + [Wake(0)], Unload(M, true));
  }

  lemma ReloadedState()
    ensures Legal(Init(CFG, Unreadable), RELOADED)
    ensures var s := After(Init(CFG, Unreadable), RELOADED);
      && s.cfg == CFG && s.now == 0 && s.cancelled == {0}
      && s.loaded == map[M := Entry(1, Running, 0, 0, 1, 1)]
      && s.tasks == map[0 := Poll(M, 0, 0, true), 1 := Poll(M, 1, 1, false)] && s.nextTask == 2
  {
    UnloadedState();
    Extend(Init(CFG, Unreadable), UNLOADED, Load(M, Success, true));
  }

  lemma ParkedState()
    ensures Legal(Init(CFG, Unreadable), PARKED)
    ensures var s := After(Init(CFG, Unreadable), PARKED);
      && s.cancelled == {0, 1} && s.tasks == map[1 := Poll(M, 1, 1, false)] && s.cfg == CFG
      && s.loaded == map[M := Entry(1, Failed, 1, 0, 1, 1)]
  {
    hide DoProbe, DoLoad, DoUnload, DoFire, DoReportFailed, StopAll;
    ReloadedState();
    var s := After(Init(CFG, Unreadable), RELOADED);
    OldLoopParks(s);
    Extend(Init(CFG, Unreadable), RELOADED, Probe(0, Unhealthy, 0));
  }

  lemma OldLoopParks(s: State)
    requires s.cfg == CFG && s.now == 0 && s.cancelled == {0} && s.loaded == map[M := Entry(1, Running, 0, 0, 1, 1)]
    requires s.tasks == map[0 := Poll(M, 0, 0, true), 1 := Poll(M, 1, 1, false)]
    ensures var s' := DoProbe(s, 0, Unhealthy, 0);
      && s'.cancelled == {0, 1} && s'.tasks == map[1 := Poll(M, 1, 1, false)] && s'.cfg == CFG
      && s'.loaded == map[M := Entry(1, Failed, 1, 0, 1, 1)]
  {
    assert DoReport(s, M, 0) == Park(s, M, s.loaded[M], 1);
  }

  /** Without quiescent reload `Failed` is not a parking place: this run leaves it without an unload,
      after the module was parked by a failure it never had. */
  lemma FailedLeftWithoutUnload()
    ensures Legal(Init(CFG, Unreadable), PARKED) && Legal(Init(CFG, Unreadable), REVIVED)
    ensures M in After(Init(CFG, Unreadable), PARKED).loaded && M in After(Init(CFG, Unreadable), REVIVED).loaded
    ensures After(Init(CFG, Unreadable), PARKED).loaded[M].state == Failed
    ensures After(Init(CFG, Unreadable), REVIVED).loaded[M].state == Degraded
  {
    hide DoProbe, DoLoad, DoUnload, DoFire, DoReportFailed, StopAll;
    ParkedState();
    Extend(Init(CFG, Unreadable), PARKED, Wake(1));
    OwnLoopRevives(After(Init(CFG, Unreadable), PARKED + [Wake(1)]));
    Extend(Init(CFG, Unreadable), PARKED + [Wake(1)], Probe(1, Impaired, 0));
  }

  lemma OwnLoopRevives(s: State)
    requires s.loaded == map[M := Entry(1, Failed, 1, 0, 1, 1)] && s.tasks == map[1 := Poll(M, 1, 1, true)]
    ensures var s' := DoProbe(s, 1, Impaired, 0); M in s'.loaded && s'.loaded[M].state == Degraded
  {
  }
}
