/** What every step of the supervisor keeps, in every interleaving. */
module SupervisorInvariants {
  import opened SupervisorModel

  /** Loaded entries are well formed, no two share a token or a load number, the instance of one whose
      token is not cancelled has never been stopped, and a loaded name can be built again. */
  ghost predicate Entries(s: State)
  {
    && (forall n :: n in s.loaded ==> SoundEntry(s, n, s.loaded[n]))
    && (forall n, m :: n in s.loaded && m in s.loaded && n != m ==>
         s.loaded[n].token != s.loaded[m].token && s.loaded[n].loadSeq != s.loaded[m].loadSeq)
  }

  ghost predicate SoundEntry(s: State, n: Name, e: Entry)
  {
    && e.token < s.nextToken && e.loadSeq < s.loadSeq && e.startedAt <= s.now
    && e.instance < |s.instances| && s.instances[e.instance].name == n && s.instances[e.instance].handedOver
    && (e.state == Running || e.state == Degraded || e.state == Failed)
    && (e.token !in s.cancelled ==> s.instances[e.instance].stops == 0)
    && Possible(s.cfg, n, Success)
  }

  /** A health loop whose token is not cancelled is the one its loaded entry holds, and watches the
      entry's instance. No two loops share a token. */
  ghost predicate Polls(s: State)
  {
    && (forall t :: t in s.cancelled ==> t < s.nextToken)
    && (forall id :: id in s.tasks ==> id < s.nextTask)
    && (forall id :: id in s.tasks && s.tasks[id].Poll? ==> SoundPoll(s, s.tasks[id]))
    && (forall i, j :: i in s.tasks && j in s.tasks && i != j && s.tasks[i].Poll? && s.tasks[j].Poll? ==>
         s.tasks[i].token != s.tasks[j].token)
  }

  ghost predicate SoundPoll(s: State, t: Task)
    requires t.Poll?
  {
    && t.token < s.nextToken
    && (t.token !in s.cancelled ==> Watches(s, t))
  }

  ghost predicate Watches(s: State, t: Task)
    requires t.Poll?
  {
    t.name in s.loaded && s.loaded[t.name].token == t.token && s.loaded[t.name].instance == t.instance
  }

  /** Every instance that was never stopped is the stored one for its name, and a plugin process is
      torn down exactly when its instance has been stopped, and then once. */
  ghost predicate Accounted(s: State)
  {
    forall i :: 0 <= i < |s.instances| ==> AccountedFor(s, i, s.instances[i])
  }

  ghost predicate AccountedFor(s: State, i: nat, x: Instance)
  {
    && (x.handedOver && x.stops == 0 ==> x.name in s.loaded && s.loaded[x.name].instance == i)
    && (x.slot <==> x.external && x.handedOver && x.stops == 0)
    && x.teardowns == (if x.external && !x.slot then 1 else 0)
  }

  ghost predicate Inv(s: State)
  {
    Entries(s) && Polls(s) && Accounted(s)
  }

  lemma InitInv(cfg: Config, disk: Disk)
    ensures Inv(Init(cfg, disk))
  {
  }

  lemma InvBelow(s: State, id: nat)
    requires Inv(s) && id in s.tasks
    ensures id < s.nextTask
  {
  }

  lemma IdBelow(s: State, id: nat)
    requires Polls(s) && id in s.tasks
    ensures id < s.nextTask
  {
  }

  // ---- frames ----

  lemma AccountedFrame(s: State, s': State)
    requires Accounted(s) && s'.instances == s.instances
    requires forall n :: n in s.loaded ==> n in s'.loaded && s'.loaded[n].instance == s.loaded[n].instance
    ensures Accounted(s')
  {
  }

  // ---- single effects ----

  /** Events, the enabled-set, the file, the lifetime token and the clock play no part. */
  lemma FrameKeeps(s: State, s': State)
    requires Inv(s)
    requires s'.loaded == s.loaded && s'.loadSeq == s.loadSeq && s'.cancelled == s.cancelled
    requires s'.nextToken == s.nextToken && s'.tasks == s.tasks && s'.nextTask >= s.nextTask
    requires s'.instances == s.instances && s'.now >= s.now && s'.cfg == s.cfg
    ensures Inv(s')
  {
  }

  lemma CancelKeeps(s: State, token: nat)
    requires Inv(s) && token < s.nextToken
    ensures Inv(Cancel(s, token))
  {
  }

  /** Stopping an instance whose entry, if it is a stored one, is cancelled. */
  lemma HaltKeeps(s: State, i: nat)
    requires Inv(s)
    requires forall n :: n in s.loaded && s.loaded[n].instance == i ==> s.loaded[n].token in s.cancelled
    ensures Inv(Halt(s, i))
  {
  }

  /** Appending an instance that is already stopped, or was never handed over. */
  lemma AppendKeeps(s: State, x: Instance)
    requires Inv(s)
    requires x.handedOver ==> x.stops > 0
    requires !x.slot && x.teardowns == (if x.external then 1 else 0)
    ensures Inv(s.(instances := s.instances + [x]))
  {
  }

  lemma EndKeeps(s: State, id: nat)
    requires Inv(s)
    ensures Inv(EndTask(s, id))
  {
  }

  /** Writing a task that is not a health loop, or one that only changes its phase. */
  lemma SetTaskKeeps(s: State, id: nat, t: Task)
    requires Inv(s) && id < s.nextTask
    requires t.Poll? ==> id in s.tasks && s.tasks[id].Poll? && t == s.tasks[id].(probing := t.probing)
    ensures Inv(SetTask(s, id, t))
  {
  }

  lemma SpawnKeeps(s: State, t: Task)
    requires Inv(s) && !t.Poll?
    ensures Inv(Spawn(s, t))
  {
  }

  /** Changing a loaded entry's state and budget. */
  lemma SetEntryKeeps(s: State, n: Name, e: Entry)
    requires Inv(s) && n in s.loaded
    requires e == s.loaded[n].(state := e.state, restartAttempt := e.restartAttempt)
    requires e.state == Running || e.state == Degraded || e.state == Failed
    ensures Inv(SetEntry(s, n, e))
  {
    SetEntryEntries(s, n, e);
    SetEntryPolls(s, n, e);
    AccountedFrame(s, SetEntry(s, n, e));
    hide Entries, Polls, Accounted;
  }

  lemma SetEntryEntries(s: State, n: Name, e: Entry)
    requires Entries(s) && n in s.loaded
    requires e == s.loaded[n].(state := e.state, restartAttempt := e.restartAttempt)
    requires e.state == Running || e.state == Degraded || e.state == Failed
    ensures Entries(SetEntry(s, n, e))
  {
  }

  lemma SetEntryPolls(s: State, n: Name, e: Entry)
    requires Polls(s) && n in s.loaded
    requires e == s.loaded[n].(state := e.state, restartAttempt := e.restartAttempt)
    ensures Polls(SetEntry(s, n, e))
  {
  }

  /** Removing a loaded entry whose token is cancelled and whose instance is stopped. */
  lemma RemoveKeeps(s: State, n: Name)
    requires Inv(s) && n in s.loaded
    requires s.loaded[n].token in s.cancelled
    requires s.loaded[n].instance < |s.instances| && s.instances[s.loaded[n].instance].stops > 0
    ensures Inv(s.(loaded := s.loaded - {n}))
  {
  }

  /** Nothing un-stopped or uncancelled is left of the name's previous entry, if it had one. */
  ghost predicate Vacant(s: State, n: Name)
  {
    n in s.loaded ==> s.loaded[n].token in s.cancelled
                      && s.loaded[n].instance < |s.instances| && s.instances[s.loaded[n].instance].stops > 0
  }

  /** Building an instance and installing it, under a load number no other entry has. */
  lemma InstallKeeps(s: State, n: Name, attempt: nat, seqNo: nat)
    requires Inv(s) && Vacant(s, n) && seqNo < s.loadSeq && Possible(s.cfg, n, Success)
    requires forall m :: m in s.loaded && m != n ==> s.loaded[m].loadSeq != seqNo
    ensures Inv(Install(Publish(Build(s, n), n, Initializing), n, |s.instances|, attempt, seqNo))
  {
    InstallEntries(s, n, attempt, seqNo);
    InstallPolls(s, n, attempt, seqNo);
    InstallAccounted(s, n, attempt, seqNo);
  }

  lemma InstallEntries(s: State, n: Name, attempt: nat, seqNo: nat)
    requires Entries(s) && seqNo < s.loadSeq && Possible(s.cfg, n, Success)
    requires forall m :: m in s.loaded && m != n ==> s.loaded[m].loadSeq != seqNo
    ensures Entries(Install(Publish(Build(s, n), n, Initializing), n, |s.instances|, attempt, seqNo))
  {
  }

  lemma InstallPolls(s: State, n: Name, attempt: nat, seqNo: nat)
    requires Polls(s) && Vacant(s, n)
    ensures Polls(Install(Publish(Build(s, n), n, Initializing), n, |s.instances|, attempt, seqNo))
  {
  }

  lemma InstallAccounted(s: State, n: Name, attempt: nat, seqNo: nat)
    requires Accounted(s) && Vacant(s, n)
    ensures Accounted(Install(Publish(Build(s, n), n, Initializing), n, |s.instances|, attempt, seqNo))
  {
  }

  // ---- the lock sections ----

  /** An instance built and stopped again leaves only its record. */
  lemma BuildHalted(s: State, n: Name, s1: State)
    requires Inv(s) && s1.instances == Build(s, n).instances
    ensures var external := n !in s.cfg.registry;
      Halt(s1, |s.instances|).instances ==
        s.instances + [Instance(n, external, true, false, 1, if external then 1 else 0)]
  {
  }

  lemma LoadKeeps(s: State, n: Name, o: Outcome, saved: bool)
    requires Inv(s) && Possible(s.cfg, n, o)
    ensures Inv(DoLoad(s, n, o, saved))
  {
    var s' := DoLoad(s, n, o, saved);
    var external := n !in s.cfg.registry;
    if n in s.loaded {
    } else if o.DispenseError? {
      AppendKeeps(s, Instance(n, true, false, false, 0, 1));
    } else if o.InitError? || o.StartError? {
      var x := Instance(n, external, true, false, 1, if external then 1 else 0);
      AppendKeeps(s, x);
      BuildHalted(s, n, Publish(Build(s, n), n, Initializing));
      FrameKeeps(s.(instances := s.instances + [x]), s');
    } else if o.Success? {
      LoadSucceedsKeeps(s, n, saved);
    }
  }

  lemma LoadSucceedsKeeps(s: State, n: Name, saved: bool)
    requires Inv(s) && n !in s.loaded && Possible(s.cfg, n, Success)
    ensures Inv(LoadSucceeds(s, n, saved))
  {
    hide Inv;
    var s1 := s.(loadSeq := s.loadSeq + 1);
    NextSeqKeeps(s, n);
    InstallKeeps(s1, n, 0, s.loadSeq);
    var s2 := Install(Publish(Build(s1, n), n, Initializing), n, |s.instances|, 0, s.loadSeq);
    FrameKeeps(s2, LoadSucceeds(s, n, saved));
  }

  /** The next load number is free. */
  lemma NextSeqKeeps(s: State, n: Name)
    requires Inv(s)
    ensures Inv(s.(loadSeq := s.loadSeq + 1))
    ensures forall m :: m in s.loaded ==> s.loaded[m].loadSeq != s.loadSeq
  {
  }

  lemma StopKeeps(s: State, n: Name)
    requires Inv(s)
    ensures Inv(StopLocked(s, n))
  {
    if n in s.loaded {
      var e := s.loaded[n];
      var s1 := Cancel(s, e.token);
      var s2 := Halt(s1, e.instance);
      RemoveKeeps(s2, n);
      FrameKeeps(s2.(loaded := s.loaded - {n}), StopLocked(s, n));
    }
  }

  lemma {:induction false} StopAllKeeps(s: State, order: seq<Name>)
    requires Inv(s)
    ensures Inv(StopAll(s, order))
    decreases |order|
  {
    if order != [] {
      StopKeeps(s, order[0]);
      StopAllKeeps(StopLocked(s, order[0]), order[1..]);
    }
  }

  lemma ReportKeeps(s: State, n: Name, delay: nat)
    requires Inv(s)
    ensures Inv(DoReport(s, n, delay))
  {
    hide Inv, Park, Schedule;
    if n in s.loaded {
      var attempt := Carried(s, s.loaded[n]) + 1;
      ParkKeeps(s, n, attempt);
      ScheduleKeeps(s, n, attempt, s.now + delay);
    }
  }

  lemma ParkKeeps(s: State, n: Name, attempt: nat)
    requires Inv(s) && n in s.loaded
    ensures Inv(Park(s, n, s.loaded[n], attempt))
  {
    var e := s.loaded[n];
    CancelKeeps(s, e.token);
    var e' := e.(state := Failed, restartAttempt := attempt);
    SetEntryKeeps(Cancel(s, e.token), n, e');
    FrameKeeps(SetEntry(Cancel(s, e.token), n, e'), Park(s, n, e, attempt));
  }

  lemma ScheduleKeeps(s: State, n: Name, attempt: nat, due: nat)
    requires Inv(s) && n in s.loaded
    ensures Inv(Schedule(s, n, s.loaded[n], attempt, due))
  {
    var e := s.loaded[n];
    CancelKeeps(s, e.token);
    var s1 := SetEntry(Cancel(s, e.token), n, e.(state := Degraded, restartAttempt := attempt));
    SetEntryKeeps(Cancel(s, e.token), n, e.(state := Degraded, restartAttempt := attempt));
    FrameKeeps(s1, s1.(events := s.events + [StateChanged(n, Degraded, true)]));
    SpawnKeeps(s1.(events := s.events + [StateChanged(n, Degraded, true)]), Restart(n, due));
  }

  lemma ActKeeps(s: State, n: Name, level: Health, delay: nat)
    requires Inv(s)
    ensures Inv(ActOnHealth(s, n, level, delay))
  {
    if level.Unhealthy? {
      ReportKeeps(s, n, delay);
    } else if n in s.loaded {
      var e := s.loaded[n].(state := if level.Impaired? then Degraded else Running);
      SetEntryKeeps(s, n, e);
      FrameKeeps(SetEntry(s, n, e), Publish(SetEntry(s, n, e), n, e.state));
    }
  }

  /** A turn that acts on a module leaves the tasks other than newly spawned ones alone. */
  lemma ActTasks(s: State, n: Name, level: Health, delay: nat)
    requires Inv(s)
    ensures var s1 := ActOnHealth(s, n, level, delay);
      && s1.nextTask >= s.nextTask
      && (forall id :: id in s.tasks ==> id in s1.tasks && s1.tasks[id] == s.tasks[id])
  {
  }

  lemma ProbeKeeps(s: State, id: nat, level: Health, delay: nat)
    requires Inv(s) && id in s.tasks && s.tasks[id].Poll?
    ensures Inv(DoProbe(s, id, level, delay))
  {
    var t := s.tasks[id];
    ActKeeps(s, t.name, level, delay);
    ActTasks(s, t.name, level, delay);
    var s1 := ActOnHealth(s, t.name, level, delay);
    if t.token in s1.cancelled {
      EndKeeps(s1, id);
    } else {
      SetTaskKeeps(s1, id, t.(probing := false));
    }
  }

  lemma FireKeeps(s: State, id: nat, o: Outcome)
    requires Inv(s) && id in s.tasks && s.tasks[id].Restart?
    ensures Inv(DoFire(s, id, o))
  {
    var n := s.tasks[id].name;
    if n !in s.loaded {
      EndKeeps(s, id);
    } else {
      var e := s.loaded[n];
      CancelKeeps(s, e.token);
      HaltKeeps(Cancel(s, e.token), e.instance);
      ReplaceKeeps(Halt(Cancel(s, e.token), e.instance), id, n, o);
    }
  }

  lemma ReplaceKeeps(s: State, id: nat, n: Name, o: Outcome)
    requires Inv(s) && id in s.tasks && s.tasks[id].Restart? && n in s.loaded && Vacant(s, n)
    ensures Inv(Replace(s, id, n, s.loaded[n], o))
  {
    var e := s.loaded[n];
    if o.Success? {
      EndKeeps(s, id);
      InstallKeeps(EndTask(s, id), n, e.restartAttempt, e.loadSeq);
    } else if o.InitError? || o.StartError? {
      RestartFailsKeeps(s, id, n);
    } else {
      SetTaskKeeps(s, id, Report(n, false));
      AppendKeeps(s, Instance(n, true, false, false, 0, 1));
      SetTaskKeeps(BuildUndispensed(s, n), id, Report(n, false));
    }
  }

  lemma RestartFailsKeeps(s: State, id: nat, n: Name)
    requires Inv(s) && id in s.tasks && s.tasks[id].Restart?
    ensures Inv(RestartFails(s, id, n))
  {
    var external := n !in s.cfg.registry;
    var x := Instance(n, external, true, false, 1, if external then 1 else 0);
    var s1 := s.(instances := s.instances + [x]);
    AppendKeeps(s, x);
    BuildHalted(s, n, Publish(Build(s, n), n, Initializing));
    var s2 := Halt(Publish(Build(s, n), n, Initializing), |s.instances|);
    FrameKeeps(s1, s2);
    SetTaskKeeps(s2, id, Report(n, true));
  }

  lemma StepKeeps(s: State, l: Label)
    requires Inv(s) && Possibly(s, l)
    ensures Inv(Apply(s, l))
  {
    hide Inv, DoLoad, DoUnload, DoProbe, DoFire, DoReportFailed, StopAll;
    match l
    case Load(n, o, saved) => LoadKeeps(s, n, o, saved);
    case Unload(n, saved) => UnloadKeeps(s, n, saved);
    case ReadEnabled => FrameKeeps(s, Apply(s, l));
    case AdoptEnabled(_) => FrameKeeps(s, Apply(s, l));
    case CancelLife => FrameKeeps(s, Apply(s, l));
    case StopEverything => StopAllKeeps(s, Lifo(s.loaded));
    case Tick(_) => FrameKeeps(s, Apply(s, l));
    case Wake(id) => WakeKeeps(s, id);
    case Probe(id, level, delay) => ProbeKeeps(s, id, level, delay);
    case ExitPoll(id) => EndKeeps(s, id);
    case Fire(id, o) => FireKeeps(s, id, o);
    case Abandon(id) => EndKeeps(s, id);
    case ReportFailed(id, delay) => ReportFailedKeeps(s, id, delay);
  }

  lemma UnloadKeeps(s: State, n: Name, saved: bool)
    requires Inv(s)
    ensures Inv(DoUnload(s, n, saved))
  {
    hide Inv, StopLocked;
    StopKeeps(s, n);
    if n in s.loaded { FrameKeeps(StopLocked(s, n), DoUnload(s, n, saved)); }
  }

  lemma WakeKeeps(s: State, id: nat)
    requires Inv(s) && id in s.tasks && s.tasks[id].Poll?
    ensures Inv(SetTask(s, id, s.tasks[id].(probing := true)))
  {
    SetTaskKeeps(s, id, s.tasks[id].(probing := true));
  }

  lemma ReportFailedKeeps(s: State, id: nat, delay: nat)
    requires Inv(s) && id in s.tasks && s.tasks[id].Report?
    ensures Inv(DoReportFailed(s, id, delay))
  {
    hide Inv, DoReport;
    var n := s.tasks[id].name;
    FrameKeeps(s, PublishError(s, n));
    EndKeeps(PublishError(s, n), id);
    ReportKeeps(EndTask(PublishError(s, n), id), n, delay);
  }

  lemma {:induction false} RunKeeps(s0: State, run: seq<Label>)
    requires Inv(s0) && Legal(s0, run)
    ensures Inv(After(s0, run))
    decreases |run|
  {
    if run != [] {
      var k := |run| - 1;
      RunKeeps(s0, run[..k]);
      StepKeeps(After(s0, run[..k]), run[k]);
    }
  }

  /** The invariant holds after every legal run of a fresh supervisor. */
  lemma RunInv(cfg: Config, disk: Disk, run: seq<Label>)
    requires Legal(Init(cfg, disk), run)
    ensures Inv(After(Init(cfg, disk), run))
  {
    RunKeeps(Init(cfg, disk), run);
  }
}
