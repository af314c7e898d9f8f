/** The module supervisor as a step machine.

    Everything the supervisor shares is one value, `State`: the lock-protected map of loaded
    modules and enabled-set, the load counter and lifetime token, the background tasks, the
    cancellation tokens, every instance ever built, the published events, the file the enabled-set
    is saved to, what boots have read from it and not adopted yet, and the clock. A `Label` names
    one atomic step with its outcome: an operator call or a task's turn under the lock, or a step
    taken outside it. `Apply` is what the step does. Tasks act on modules by name, as the code
    does. */
module SupervisorModel {
  import Backoff

  type Name = string

  datatype ModuleState = Disabled | Initializing | Running | Degraded | Failed | Stopping | Stopped

  datatype Health = Healthy | Impaired | Unhealthy

  /** One loaded module's bookkeeping. */
  datatype Entry = Entry(
    instance: nat,
    state: ModuleState,
    restartAttempt: nat,
    startedAt: nat,
    loadSeq: nat,
    token: nat)

  /** A background task that can still act. `Poll` is a health loop, `Probing` while it awaits a
      report. `Restart` waits out its backoff. `Report` is a restart that failed and released the
      lock, but has not yet reported; `announced` says that it published `Initializing`. */
  datatype Task =
    | Poll(name: Name, instance: nat, token: nat, probing: bool)
    | Restart(name: Name, due: nat)
    | Report(name: Name, announced: bool)

  /** A module instance, or for an external plugin the process launched for one. `handedOver` is
      false for a process whose module could not be dispensed. `slot` is the take-once process
      slot, `teardowns` how often the process was shut down. */
  datatype Instance = Instance(
    name: Name,
    external: bool,
    handedOver: bool,
    slot: bool,
    stops: nat,
    teardowns: nat)

  datatype Event =
    | StateChanged(name: Name, state: ModuleState, withReason: bool)
    | ErrorRaised(name: Name)

  /** What the enabled-set file holds when read back. */
  datatype Disk = Unreadable | Enabled(names: set<Name>)

  datatype Config = Config(registry: set<Name>, external: bool, maxRestarts: nat, window: nat)

  datatype State = State(
    cfg: Config,
    loaded: map<Name, Entry>,
    persisted: set<Name>,
    disk: Disk,
    boots: seq<set<Name>>,
    loadSeq: nat,
    lifeCancelled: bool,
    cancelled: set<nat>,
    nextToken: nat,
    tasks: map<nat, Task>,
    nextTask: nat,
    instances: seq<Instance>,
    events: seq<Event>,
    now: nat)

  /** How building and starting an instance ends. The first three are failures to build one. */
  datatype Outcome = NotFound | LoadError | DispenseError | InitError | StartError | Success

  datatype Label =
    | Load(name: Name, outcome: Outcome, saved: bool)
    | Unload(name: Name, saved: bool)
    | ReadEnabled
    | AdoptEnabled(boot: nat)
    | CancelLife
    | StopEverything
    | Tick(elapsed: nat)
    | Wake(task: nat)
    | Probe(task: nat, level: Health, delay: nat)
    | ExitPoll(task: nat)
    | Fire(task: nat, outcome: Outcome)
    | Abandon(task: nat)
    | ReportFailed(task: nat, delay: nat)

  /** A configured budget of zero stands for the default. */
  function EffectiveMaxRestarts(configured: nat): (m: nat)
    ensures m >= 1
  {
    if configured == 0 then Backoff.MAX_RESTARTS else configured
  }

  function Init(cfg: Config, disk: Disk): State
  {
    State(cfg, map[], {}, disk, [], 0, false, {}, 0, map[], 0, [], [], 0)
  }

  // ---- single effects ----

  function Publish(s: State, n: Name, state: ModuleState): State
  {
    s.(events := s.events + [StateChanged(n, state, false)])
  }

  function PublishError(s: State, n: Name): State
  {
    s.(events := s.events + [ErrorRaised(n)])
  }

  function Cancel(s: State, token: nat): State
  {
    s.(cancelled := s.cancelled + {token})
  }

  function Spawn(s: State, t: Task): State
  {
    s.(tasks := s.tasks[s.nextTask := t], nextTask := s.nextTask + 1)
  }

  function EndTask(s: State, id: nat): State
  {
    s.(tasks := s.tasks - {id})
  }

  function SetTask(s: State, id: nat, t: Task): State
  {
    s.(tasks := s.tasks[id := t])
  }

  function SetEntry(s: State, n: Name, e: Entry): State
  {
    s.(loaded := s.loaded[n := e])
  }

  /** `stop` on an instance: the process slot is emptied, and torn down if it held a process. */
  function Halted(i: Instance): Instance
  {
    i.(stops := i.stops + 1, slot := false, teardowns := if i.slot then i.teardowns + 1 else i.teardowns)
  }

  function Halt(s: State, i: nat): State
  {
    if i < |s.instances| then s.(instances := s.instances[i := Halted(s.instances[i])]) else s
  }

  /** A fresh instance of `n`, from the registry or, failing that, from the external loader. */
  function Build(s: State, n: Name): State
  {
    var external := n !in s.cfg.registry;
    s.(instances := s.instances + [Instance(n, external, true, external, 0, 0)])
  }

  /** A plugin process that came up but was shut down again by the loader. */
  function BuildUndispensed(s: State, n: Name): State
  {
    s.(instances := s.instances + [Instance(n, true, false, false, 0, 1)])
  }

  function Save(s: State, saved: bool): State
  {
    if saved then s.(disk := Enabled(s.persisted)) else s
  }

  /** Which outcomes a name can have: a registered name always builds, and without an external
      loader an unregistered one never does. */
  predicate Possible(cfg: Config, n: Name, o: Outcome)
  {
    if n in cfg.registry then o.InitError? || o.StartError? || o.Success?
    else if cfg.external then true
    else o.NotFound?
  }

  // ---- the lock sections ----

  /** No lock section changes the configuration, the lifetime token or the clock. */
  predicate SameWorld(s: State, s': State)
  {
    s'.cfg == s.cfg && s'.lifeCancelled == s.lifeCancelled && s'.now == s.now
  }

  /** Publishes `Running`, starts the health loop and stores the entry, for a load or a restart. */
  function Install(s: State, n: Name, instance: nat, attempt: nat, seqNo: nat): State
  {
    var s1 := Publish(s, n, Running);
    var s2 := Spawn(s1, Poll(n, instance, s.nextToken, false));
    var s3 := s2.(nextToken := s.nextToken + 1);
    SetEntry(s3, n, Entry(instance, Running, attempt, s.now, seqNo, s.nextToken))
  }

  function DoLoad(s: State, n: Name, o: Outcome, saved: bool): (s': State)
    ensures SameWorld(s, s')
  {
    if n in s.loaded then s
    else match o
      case NotFound => s
      case LoadError => s
      case DispenseError => BuildUndispensed(s, n)
      case InitError => LoadFails(s, n)
      case StartError => LoadFails(s, n)
      case Success => LoadSucceeds(s, n, saved)
  }

  function LoadFails(s: State, n: Name): State
  {
    Discard(Publish(Build(s, n), n, Initializing), n, |s.instances|)
  }

  function Discard(s: State, n: Name, instance: nat): State
  {
    Publish(PublishError(Halt(s, instance), n), n, Disabled)
  }

  function LoadSucceeds(s: State, n: Name, saved: bool): State
  {
    Enlist(Publish(Build(s, n), n, Initializing), n, |s.instances|, saved)
  }

  function Enlist(s: State, n: Name, instance: nat, saved: bool): State
  {
    var s1 := Install(s.(loadSeq := s.loadSeq + 1), n, instance, 0, s.loadSeq);
    Save(s1.(persisted := s.persisted + {n}), saved)
  }

  function StopLocked(s: State, n: Name): (s': State)
    ensures SameWorld(s, s')
  {
    if n !in s.loaded then s
    else
      var e := s.loaded[n];
      var s1 := Publish(Cancel(s, e.token), n, Stopping);
      var s2 := Publish(Halt(s1, e.instance), n, Stopped);
      s2.(loaded := s.loaded - {n})
  }

  function DoUnload(s: State, n: Name, saved: bool): (s': State)
    ensures SameWorld(s, s')
  {
    if n !in s.loaded then s
    else Save(StopLocked(s, n).(persisted := s.persisted - {n}), saved)
  }

  function DiskSet(d: Disk): set<Name>
  {
    match d
    case Unreadable => {}
    case Enabled(names) => names
  }

  function StopAll(s: State, order: seq<Name>): (s': State)
    ensures SameWorld(s, s')
    decreases |order|
  {
    if order == [] then s else StopAll(StopLocked(s, order[0]), order[1..])
  }

  /** The order `shutdown` sorts the loaded names into: every loaded name once, by descending load
      number. */
  ghost predicate IsLifo(loaded: map<Name, Entry>, order: seq<Name>)
  {
    && (forall n :: n in order <==> n in loaded)
    && (forall i, j :: 0 <= i < j < |order| ==> order[i] != order[j])
    && (forall i, j :: 0 <= i < j < |order| ==>
         order[i] in loaded && order[j] in loaded && loaded[order[i]].loadSeq >= loaded[order[j]].loadSeq)
  }

  lemma NewestExists(loaded: map<Name, Entry>)
    requires loaded != map[]
    ensures exists n :: IsNewest(loaded, n)
    decreases |loaded|
  {
    var m :| m in loaded;
    var rest := loaded - {m};
    if rest == map[] {
      assert forall k :: k in loaded ==> k == m || k in rest;
      assert IsNewest(loaded, m);
    } else {
      assert |rest| < |loaded| by { assert rest.Keys < loaded.Keys; SmallerKeys(rest.Keys, loaded.Keys); }
      NewestExists(rest);
      var k :| IsNewest(rest, k);
      assert forall j :: j in loaded ==> j == m || j in rest;
      assert IsNewest(loaded, if loaded[m].loadSeq > loaded[k].loadSeq then m else k);
    }
  }

  lemma SmallerKeys<T>(a: set<T>, b: set<T>)
    requires a < b
    ensures |a| < |b|
  {
    assert b == a + (b - a);
    assert b - a != {};
  }

  ghost predicate IsNewest(loaded: map<Name, Entry>, n: Name)
  {
    n in loaded && forall m :: m in loaded ==> loaded[m].loadSeq <= loaded[n].loadSeq
  }

  ghost function Lifo(loaded: map<Name, Entry>): (order: seq<Name>)
    ensures IsLifo(loaded, order)
    decreases loaded.Keys
  {
    if loaded == map[] then []
    else
      NewestExists(loaded);
      var n :| IsNewest(loaded, n);
      LifoCons(loaded, n, Lifo(loaded - {n}));
      [n] + Lifo(loaded - {n})
  }

  lemma LifoCons(loaded: map<Name, Entry>, n: Name, rest: seq<Name>)
    requires IsNewest(loaded, n) && IsLifo(loaded - {n}, rest)
    ensures IsLifo(loaded, [n] + rest)
  {
    var order := [n] + rest;
    forall m ensures m in order <==> m in loaded { assert m in loaded <==> m == n || m in loaded - {n}; }
    forall i, j | 0 <= i < j < |order|
      ensures order[i] != order[j] && order[i] in loaded && order[j] in loaded
      ensures loaded[order[i]].loadSeq >= loaded[order[j]].loadSeq
    {
      assert order[j] == rest[j - 1] && rest[j - 1] in rest && order[j] in loaded - {n};
      assert i > 0 ==> order[i] == rest[i - 1] && rest[i - 1] in loaded - {n};
    }
  }

  /** The budget a failure is counted against: cleared once the window has passed since the last
      successful start. */
  function Carried(s: State, e: Entry): nat
  {
    if s.now - e.startedAt >= s.cfg.window then 0 else e.restartAttempt
  }

  function DoReport(s: State, n: Name, delay: nat): (s': State)
    ensures SameWorld(s, s')
  {
    if n !in s.loaded then s
    else
      var e := s.loaded[n];
      var attempt := Carried(s, e) + 1;
      if attempt >= s.cfg.maxRestarts then Park(s, n, e, attempt)
      else Schedule(s, n, e, attempt, s.now + delay)
  }

  function Park(s: State, n: Name, e: Entry, attempt: nat): State
  {
    var s1 := SetEntry(Cancel(s, e.token), n, e.(state := Failed, restartAttempt := attempt));
    PublishError(Publish(s1, n, Failed), n)
  }

  function Schedule(s: State, n: Name, e: Entry, attempt: nat, due: nat): State
  {
    var s1 := SetEntry(Cancel(s, e.token), n, e.(state := Degraded, restartAttempt := attempt));
    Spawn(s1.(events := s.events + [StateChanged(n, Degraded, true)]), Restart(n, due))
  }

  function MarkDegraded(s: State, n: Name): State
  {
    if n !in s.loaded || s.loaded[n].state == Degraded then s
    else Publish(SetEntry(s, n, s.loaded[n].(state := Degraded)), n, Degraded)
  }

  function RestoreRunning(s: State, n: Name): State
  {
    if n !in s.loaded || s.loaded[n].state != Degraded then s
    else Publish(SetEntry(s, n, s.loaded[n].(state := Running)), n, Running)
  }

  function ActOnHealth(s: State, n: Name, level: Health, delay: nat): State
  {
    match level
    case Unhealthy => DoReport(s, n, delay)
    case Impaired => MarkDegraded(s, n)
    case Healthy => RestoreRunning(s, n)
  }

  /** A probe returns: its transition runs, and the loop goes back to sleep unless it now finds its
      token cancelled. */
  function DoProbe(s: State, id: nat, level: Health, delay: nat): (s': State)
    requires id in s.tasks && s.tasks[id].Poll?
    ensures SameWorld(s, s')
  {
    var t := s.tasks[id];
    var s1 := ActOnHealth(s, t.name, level, delay);
    if t.token in s1.cancelled then EndTask(s1, id) else SetTask(s1, id, t.(probing := false))
  }

  /** A restart whose backoff elapsed runs under the lock. */
  function DoFire(s: State, id: nat, o: Outcome): (s': State)
    requires id in s.tasks && s.tasks[id].Restart?
    ensures SameWorld(s, s')
  {
    var n := s.tasks[id].name;
    if n !in s.loaded then EndTask(s, id)
    else
      var e := s.loaded[n];
      Replace(Halt(Cancel(s, e.token), e.instance), id, n, e, o)
  }

  /** The rest of a restart, once the old instance is stopped. */
  function Replace(s: State, id: nat, n: Name, e: Entry, o: Outcome): (s': State)
    ensures SameWorld(s, s')
  {
    match o
    case NotFound => SetTask(s, id, Report(n, false))
    case LoadError => SetTask(s, id, Report(n, false))
    case DispenseError => SetTask(BuildUndispensed(s, n), id, Report(n, false))
    case InitError => RestartFails(s, id, n)
    case StartError => RestartFails(s, id, n)
    case Success => RestartSucceeds(s, id, n, e)
  }

  function RestartFails(s: State, id: nat, n: Name): State
  {
    var s1 := Publish(Build(s, n), n, Initializing);
    SetTask(Halt(s1, |s.instances|), id, Report(n, true))
  }

  function RestartSucceeds(s: State, id: nat, n: Name, e: Entry): State
  {
    var s1 := Publish(Build(s, n), n, Initializing);
    Install(EndTask(s1, id), n, |s.instances|, e.restartAttempt, e.loadSeq)
  }

  function DoReportFailed(s: State, id: nat, delay: nat): (s': State)
    requires id in s.tasks && s.tasks[id].Report?
    ensures SameWorld(s, s')
  {
    var n := s.tasks[id].name;
    DoReport(EndTask(PublishError(s, n), id), n, delay)
  }

  // ---- steps and runs ----

  /** The delay of a restart scheduled now is one the backoff may draw for the attempts so far. */
  ghost predicate Drawn(s: State, n: Name, delay: nat)
  {
    n in s.loaded && Carried(s, s.loaded[n]) + 1 < s.cfg.maxRestarts ==>
      Backoff.RandomDelay(Carried(s, s.loaded[n]), delay)
  }

  /** When a step can happen. A sleeping health loop can wake whether or not its token is cancelled,
      since both arms of its select may be ready; it can only exit if it is cancelled. */
  ghost predicate Possibly(s: State, l: Label)
  {
    match l
    case Load(n, o, _) => Possible(s.cfg, n, o)
    case Unload(_, _) => true
    case ReadEnabled => true
    case AdoptEnabled(b) => b < |s.boots|
    case CancelLife => true
    case StopEverything => s.lifeCancelled
    case Tick(_) => true
    case Wake(id) => id in s.tasks && s.tasks[id].Poll? && !s.tasks[id].probing
    case Probe(id, level, delay) =>
      && id in s.tasks && s.tasks[id].Poll? && s.tasks[id].probing
      && (level.Unhealthy? ==> Drawn(s, s.tasks[id].name, delay))
    case ExitPoll(id) =>
      id in s.tasks && s.tasks[id].Poll? && !s.tasks[id].probing && s.tasks[id].token in s.cancelled
    case Fire(id, o) =>
      && id in s.tasks && s.tasks[id].Restart? && s.tasks[id].due <= s.now
      && Possible(s.cfg, s.tasks[id].name, o)
    case Abandon(id) => id in s.tasks && s.tasks[id].Restart? && s.lifeCancelled
    case ReportFailed(id, delay) => id in s.tasks && s.tasks[id].Report? && Drawn(s, s.tasks[id].name, delay)
  }

  ghost function Apply(s: State, l: Label): State
    requires Possibly(s, l)
  {
    match l
    case Load(n, o, saved) => DoLoad(s, n, o, saved)
    case Unload(n, saved) => DoUnload(s, n, saved)
    case ReadEnabled => s.(boots := s.boots + [DiskSet(s.disk)])
    case AdoptEnabled(b) => s.(persisted := s.boots[b], boots := s.boots[..b] + s.boots[b + 1..])
    case CancelLife => s.(lifeCancelled := true)
    case StopEverything => StopAll(s, Lifo(s.loaded))
    case Tick(d) => s.(now := s.now + d)
    case Wake(id) => SetTask(s, id, s.tasks[id].(probing := true))
    case Probe(id, level, delay) => DoProbe(s, id, level, delay)
    case ExitPoll(id) => EndTask(s, id)
    case Fire(id, o) => DoFire(s, id, o)
    case Abandon(id) => EndTask(s, id)
    case ReportFailed(id, delay) => DoReportFailed(s, id, delay)
  }

  /** A run is a sequence of labels; `Legal` runs are those whose every step could happen. */
  ghost predicate Legal(s0: State, run: seq<Label>)
    decreases |run|, 0
  {
    run == [] || (Legal(s0, run[..|run| - 1]) && Possibly(After(s0, run[..|run| - 1]), run[|run| - 1]))
  }

  ghost function After(s0: State, run: seq<Label>): State
    requires Legal(s0, run)
    decreases |run|, 1
  {
    if run == [] then s0 else Apply(After(s0, run[..|run| - 1]), run[|run| - 1])
  }

  lemma EmptyRun(s: State)
    ensures Legal(s, []) && After(s, []) == s
  {
  }

  /** Extending a run by one step. */
  lemma Extend(s0: State, run: seq<Label>, l: Label)
    requires Legal(s0, run) && Possibly(After(s0, run), l)
    ensures Legal(s0, run + [l]) && After(s0, run + [l]) == Apply(After(s0, run), l)
  {
  }

  lemma {:induction false} LegalPrefix(s0: State, run: seq<Label>, k: nat)
    requires Legal(s0, run) && k <= |run|
    ensures Legal(s0, run[..k])
    decreases |run|
  {
    if k == |run| {
      assert run[..k] == run;
    } else {
      assert run[..|run| - 1][..k] == run[..k];
      LegalPrefix(s0, run[..|run| - 1], k);
    }
  }

  /** A run from where another run ends continues it. */
  lemma {:induction false} Concat(s0: State, first: seq<Label>, then': seq<Label>)
    requires Legal(s0, first) && Legal(After(s0, first), then')
    ensures Legal(s0, first + then') && After(s0, first + then') == After(After(s0, first), then')
    decreases |then'|
  {
    hide Apply, Possibly;
    if then' == [] {
      assert first + then' == first;
    } else {
      var k := |then'| - 1;
      Concat(s0, first, then'[..k]);
      Extend(s0, first + then'[..k], then'[k]);
      assert first + then' == first + then'[..k] + [then'[k]];
    }
  }

  /** The tasks that can still act on a name. */
  ghost function TasksOf(s: State, n: Name): set<nat>
  {
    set id | id in s.tasks && s.tasks[id].name == n
  }

  /** What `list` reports for a name. */
  function Listed(s: State, n: Name): ModuleState
  {
    if n in s.loaded then s.loaded[n].state else Disabled
  }
}
