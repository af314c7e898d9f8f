/** The supervisor itself: the shared state its lock protects and the methods that update it in
    place. Each method is proved to be a step of the machine in `SupervisorModel`, so everything
    proved about runs holds of sequences of these calls. Outcomes of module calls, saves and random
    draws are parameters. */
module SupervisorCode {
  import opened Options
  import opened SupervisorModel
  import opened SupervisorInvariants
  import opened SupervisorShutdown
  import opened SupervisorEnabled
  import opened SupervisorEffects
  import Backoff

  datatype Error = UnknownModule | ExternalLoad | ModuleFailed

  datatype Result<+T> = Ok(value: T) | Err(error: Error)

  datatype Row = Row(name: Name, state: ModuleState, external: bool)

  /** The error an outcome surfaces as. */
  function ErrorOf(o: Outcome): Error
    requires !o.Success?
  {
    match o
    case NotFound => UnknownModule
    case LoadError => ExternalLoad
    case DispenseError => ExternalLoad
    case InitError => ModuleFailed
    case StartError => ModuleFailed
  }

  /** One of `names` with the highest load number. */
  method Newest(loaded: map<Name, Entry>, names: set<Name>) returns (n: Name)
    requires names != {} && names <= loaded.Keys
    ensures n in names && forall m :: m in names ==> loaded[m].loadSeq <= loaded[n].loadSeq
  {
    n :| n in names;
    var rest := names - {n};
    while rest != {}
      invariant rest <= names && n in names
      invariant forall m :: m in names - rest ==> loaded[m].loadSeq <= loaded[n].loadSeq
      decreases rest
    {
      var m :| m in rest;
      if loaded[m].loadSeq > loaded[n].loadSeq {
        n := m;
      }
      rest := rest - {m};
    }
  }

  /** The names of `order` are those loaded but not in `rest`, each at least as new as all of `rest`. */
  ghost predicate Sorted(loaded: map<Name, Entry>, order: seq<Name>, rest: set<Name>)
  {
    && rest <= loaded.Keys && IsLifo(loaded - rest, order)
    && (forall n, m :: n in loaded && n !in rest && m in rest ==> loaded[n].loadSeq >= loaded[m].loadSeq)
  }

  lemma SortedMore(loaded: map<Name, Entry>, order: seq<Name>, rest: set<Name>, n: Name)
    requires Sorted(loaded, order, rest) && n in rest
    requires forall m :: m in rest ==> loaded[m].loadSeq <= loaded[n].loadSeq
    ensures Sorted(loaded, order + [n], rest - {n})
  {
    var order', more := order + [n], loaded - (rest - {n});
    forall m ensures m in order' <==> m in more { assert m in more <==> m == n || m in loaded - rest; }
    forall i, j | 0 <= i < j < |order'|
      ensures order'[i] != order'[j] && order'[i] in more && order'[j] in more
      ensures more[order'[i]].loadSeq >= more[order'[j]].loadSeq
    {
      assert order'[i] == order[i] && order[i] in order && order[i] in loaded - rest;
      assert j < |order| ==> order'[j] == order[j] && order[j] in loaded - rest;
    }
  }

  /** The loaded names by descending load number. */
  method NewestFirst(loaded: map<Name, Entry>) returns (order: seq<Name>)
    ensures IsLifo(loaded, order)
  {
    order := [];
    var names := loaded.Keys;
    while names != {}
      invariant Sorted(loaded, order, names)
      decreases names
    {
      hide IsLifo;
      var n := Newest(loaded, names);
      SortedMore(loaded, order, names, n);
      order := order + [n];
      names := names - {n};
    }
    assert loaded - {} == loaded;
  }

  /** One truthful row per name in `names`, and no others. */
  ghost predicate RowsFor(s: State, rows: seq<Row>, names: set<Name>)
  {
    && (forall i :: 0 <= i < |rows| ==> rows[i].name in names && rows[i] == RowOf(s, rows[i].name))
    && (forall i, j :: 0 <= i < j < |rows| ==> rows[i].name != rows[j].name)
    && (forall n :: n in names ==> RowOf(s, n) in rows)
  }

  function RowOf(s: State, n: Name): Row
  {
    Row(n, Listed(s, n), n !in s.cfg.registry)
  }

  lemma RowAdded(s: State, rows: seq<Row>, names: set<Name>, n: Name)
    requires RowsFor(s, rows, names) && n !in names
    ensures RowsFor(s, rows + [RowOf(s, n)], names + {n})
  {
  }

  /** The names whose load goes well. */
  function Succeeding(names: set<Name>, outcomes: map<Name, Outcome>): set<Name>
  {
    set n | n in names && n in outcomes && outcomes[n].Success?
  }

  /** The names whose load fails, with the errors; a name that is loaded already does not fail. */
  function FailuresOf(names: set<Name>, before: set<Name>, outcomes: map<Name, Outcome>): map<Name, Error>
  {
    map n | n in names && n in outcomes && n !in before && !outcomes[n].Success? :: ErrorOf(outcomes[n])
  }

  /** What others may do while a boot does not hold the lock: calls, turns of tasks, time. Only other
      boots and shutdown are left out. */
  predicate IsOthers(l: Label)
  {
    !l.ReadEnabled? && !l.AdoptEnabled? && !l.CancelLife? && !l.StopEverything?
  }

  /** The steps of a boot that has read the file, with those of others among them: it adopts the names,
      then loads each of them, `n` at step `at[n]`. */
  ghost predicate BootRun(run: seq<Label>, boot: nat, names: set<Name>, outcomes: map<Name, Outcome>,
                          saves: set<Name>, at: map<Name, nat>)
  {
    && 0 < |run| && run[0] == Label.AdoptEnabled(boot) && (forall i :: 0 < i < |run| ==> IsOthers(run[i]))
    && at.Keys == names
    && (forall n :: n in names ==>
         n in outcomes && 0 < at[n] < |run| && run[at[n]] == Label.Load(n, outcomes[n], n in saves))
  }

  /** The name is loaded before step `k`. */
  ghost predicate LoadedAt(s0: State, run: seq<Label>, k: nat, n: Name)
  {
    k <= |run| && Legal(s0, run[..k]) && n in After(s0, run[..k]).loaded
  }

  /** The errors of exactly those of `names` whose load failed; one that is loaded by then does not. */
  ghost predicate Collected(s0: State, run: seq<Label>, names: set<Name>, outcomes: map<Name, Outcome>,
                            at: map<Name, nat>, failures: map<Name, Error>)
  {
    && names <= at.Keys && names <= outcomes.Keys
    && (forall n :: n in failures <==> n in names && !outcomes[n].Success? && !LoadedAt(s0, run, at[n], n))
    && (forall n :: n in failures ==> failures[n] == ErrorOf(outcomes[n]))
  }

  /** How far a boot has come since `s0` once it has loaded `names`. */
  ghost predicate Booted(s0: State, s: State, run: seq<Label>, boot: nat, names: set<Name>,
                         outcomes: map<Name, Outcome>, saves: set<Name>, at: map<Name, nat>,
                         failures: map<Name, Error>)
  {
    && Legal(s0, run) && s == After(s0, run)
    && BootRun(run, boot, names, outcomes, saves, at) && Collected(s0, run, names, outcomes, at, failures)
  }

  lemma BootStart(s: State, boot: nat, outcomes: map<Name, Outcome>, saves: set<Name>)
    requires boot < |s.boots|
    ensures Booted(s, Apply(s, Label.AdoptEnabled(boot)), [] + [Label.AdoptEnabled(boot)], boot,
                   {}, outcomes, saves, map[], map[])
  {
    Extend(s, [], Label.AdoptEnabled(boot));
  }

  /** Someone else takes a step. */
  lemma BootOther(s0: State, s: State, run: seq<Label>, boot: nat, names: set<Name>, outcomes: map<Name, Outcome>,
                  saves: set<Name>, at: map<Name, nat>, failures: map<Name, Error>, l: Label)
    requires Booted(s0, s, run, boot, names, outcomes, saves, at, failures) && Possibly(s, l) && IsOthers(l)
    ensures Booted(s0, Apply(s, l), run + [l], boot, names, outcomes, saves, at, failures)
  {
    hide Apply, Possibly, Legal, After, LoadedAt;
    Extend(s0, run, l);
    forall n | n in names ensures LoadedAt(s0, run + [l], at[n], n) <==> LoadedAt(s0, run, at[n], n) {
      EarlierLoaded(s0, run, l, at[n], n);
    }
  }

  /** One more name of the file is loaded. */
  lemma BootMore(s0: State, s: State, run: seq<Label>, boot: nat, names: set<Name>, outcomes: map<Name, Outcome>,
                 saves: set<Name>, at: map<Name, nat>, failures: map<Name, Error>, n: Name)
    requires Booted(s0, s, run, boot, names, outcomes, saves, at, failures) && n !in names
    requires n in outcomes && Possible(s.cfg, n, outcomes[n])
    ensures var l := Label.Load(n, outcomes[n], n in saves);
      Booted(s0, Apply(s, l), run + [l], boot, names + {n}, outcomes, saves, at[n := |run|],
             if outcomes[n].Success? || n in s.loaded then failures else failures[n := ErrorOf(outcomes[n])])
  {
    hide Apply, Legal, After, LoadedAt, Collected;
    var l := Label.Load(n, outcomes[n], n in saves);
    Extend(s0, run, l);
    CollectedMore(s0, s, run, names, outcomes, at, failures, l, n);
  }

  lemma CollectedMore(s0: State, s: State, run: seq<Label>, names: set<Name>, outcomes: map<Name, Outcome>,
                      at: map<Name, nat>, failures: map<Name, Error>, l: Label, n: Name)
    requires Legal(s0, run) && s == After(s0, run) && Collected(s0, run, names, outcomes, at, failures)
    requires n !in names && n in outcomes && forall m :: m in names && m in at ==> at[m] <= |run|
    ensures Collected(s0, run + [l], names + {n}, outcomes, at[n := |run|],
                      if outcomes[n].Success? || n in s.loaded then failures else failures[n := ErrorOf(outcomes[n])])
  {
    hide Legal, After, LoadedAt;
    NowLoaded(s0, s, run, l, n);
    forall m | m in names ensures LoadedAt(s0, run + [l], at[m], m) <==> LoadedAt(s0, run, at[m], m) {
      EarlierLoaded(s0, run, l, at[m], m);
    }
  }

  lemma NowLoaded(s0: State, s: State, run: seq<Label>, l: Label, n: Name)
    requires Legal(s0, run) && s == After(s0, run)
    ensures LoadedAt(s0, run + [l], |run|, n) <==> n in s.loaded
  {
    assert (run + [l])[..|run|] == run;
  }

  lemma EarlierLoaded(s0: State, run: seq<Label>, l: Label, k: nat, n: Name)
    requires k <= |run|
    ensures LoadedAt(s0, run + [l], k, n) <==> LoadedAt(s0, run, k, n)
  {
    assert (run + [l])[..k] == run[..k];
  }

  /** No one else took a step since the adoption. */
  ghost predicate Uninterrupted(run: seq<Label>, at: map<Name, nat>)
  {
    forall i :: 0 < i < |run| ==> run[i].Load? && run[i].name in at && at[run[i].name] == i
  }

  /** What is loaded before step `k` of such a boot. */
  function AloneLoaded(before: set<Name>, outcomes: map<Name, Outcome>, at: map<Name, nat>, k: nat): set<Name>
  {
    before + set n | n in at && at[n] < k && n in outcomes && outcomes[n].Success?
  }

  lemma {:induction false} AloneKeys(s0: State, run: seq<Label>, boot: nat, names: set<Name>,
      outcomes: map<Name, Outcome>, saves: set<Name>, at: map<Name, nat>, k: nat)
    requires Legal(s0, run) && BootRun(run, boot, names, outcomes, saves, at) && Uninterrupted(run, at)
    requires boot < |s0.boots| && names <= s0.boots[boot] && 0 < k <= |run|
    ensures Legal(s0, run[..k])
    ensures var s := After(s0, run[..k]);
      s.persisted == s0.boots[boot] && s.loaded.Keys == AloneLoaded(s0.loaded.Keys, outcomes, at, k)
    decreases k
  {
    hide Legal, After, Apply, Possibly;
    LegalPrefix(s0, run, k);
    if k == 1 {
      assert run[..1] == [] + [run[0]];
      AdoptedKeys(s0, boot);
    } else {
      AloneKeys(s0, run, boot, names, outcomes, saves, at, k - 1);
      var l := run[k - 1];
      assert run[..k] == run[..k - 1] + [l];
      LastStep(s0, run[..k - 1], l);
      LoadStep(After(s0, run[..k - 1]), l.name, l.outcome, l.saved);
      AloneMore(s0.loaded.Keys, outcomes, at, k - 1, l.name);
    }
  }

  lemma AdoptedKeys(s: State, boot: nat)
    requires Legal(s, [] + [Label.AdoptEnabled(boot)]) && boot < |s.boots|
    ensures var s' := After(s, [] + [Label.AdoptEnabled(boot)]);
      s'.persisted == s.boots[boot] && s'.loaded == s.loaded
  {
    EmptyRun(s);
    Extend(s, [], Label.AdoptEnabled(boot));
  }

  lemma LastStep(s0: State, run: seq<Label>, l: Label)
    requires Legal(s0, run + [l])
    ensures Legal(s0, run) && Possibly(After(s0, run), l) && After(s0, run + [l]) == Apply(After(s0, run), l)
    ensures l.Load? ==> Possible(After(s0, run).cfg, l.name, l.outcome)
  {
    hide Apply;
    assert (run + [l])[..|run|] == run;
  }

  lemma AloneMore(before: set<Name>, outcomes: map<Name, Outcome>, at: map<Name, nat>, k: nat, n: Name)
    requires n in outcomes && forall m :: m in at && at[m] == k <==> m == n
    ensures AloneLoaded(before, outcomes, at, k + 1) ==
      AloneLoaded(before, outcomes, at, k) + if outcomes[n].Success? then {n} else {}
  {
    assert n in at && at[n] == k;
  }

  /** An uninterrupted boot leaves the names it adopted as the enabled-set, adds exactly those whose load
      succeeds to the loaded ones, and returns exactly the others that were not loaded before. */
  lemma UninterruptedBoot(s0: State, s: State, run: seq<Label>, boot: nat, names: set<Name>,
      outcomes: map<Name, Outcome>, saves: set<Name>, at: map<Name, nat>, failures: map<Name, Error>)
    requires Booted(s0, s, run, boot, names, outcomes, saves, at, failures) && Uninterrupted(run, at)
    requires boot < |s0.boots| && names <= s0.boots[boot]
    ensures s.persisted == s0.boots[boot]
    ensures s.loaded.Keys == s0.loaded.Keys + Succeeding(names, outcomes)
    ensures failures == FailuresOf(names, s0.loaded.Keys, outcomes)
  {
    hide Apply, Legal, After, Possibly;
    assert run[..|run|] == run;
    AloneKeys(s0, run, boot, names, outcomes, saves, at, |run|);
    forall n | n in names ensures LoadedAt(s0, run, at[n], n) <==> n in s0.loaded {
      AloneKeys(s0, run, boot, names, outcomes, saves, at, at[n]);
    }
  }

  /** A boot of a fresh supervisor, during which nothing is unloaded and all loads are of its names and
      succeed, is a run that `RestartBringsBack` speaks of. */
  lemma BootRestores(s0: State, run: seq<Label>, names: set<Name>, outcomes: map<Name, Outcome>, saves: set<Name>,
                     at: map<Name, nat>)
    requires Legal(s0, [] + [Label.ReadEnabled]) && Legal(After(s0, [] + [Label.ReadEnabled]), run)
    requires BootRun(run, 0, names, outcomes, saves, at)
    requires forall i :: 0 < i < |run| ==>
      !run[i].Unload? && (run[i].Load? ==> run[i].name in names && run[i].outcome.Success?)
    ensures var whole := [] + [Label.ReadEnabled] + run;
      && Legal(s0, whole) && After(s0, whole) == After(After(s0, [] + [Label.ReadEnabled]), run)
      && Restores(whole, 1, names) && forall n :: n in names ==> Requested(whole, 1, n)
  {
    hide Legal, After, Apply, Possibly;
    Concat(s0, [] + [Label.ReadEnabled], run);
    var whole := [] + [Label.ReadEnabled] + run;
    assert forall i :: 0 < i < |whole| ==> whole[i] == run[i - 1];
    forall n | n in names ensures Requested(whole, 1, n) {
      assert whole[at[n] + 1].Load? && whole[at[n] + 1].name == n;
    }
  }

  /** What may happen while a boot does not hold the lock: a step whose label says all, or one that draws
      a random delay. */
  datatype Happening =
    | Step(step: Label)
    | Probes(task: nat, level: Health, unit: real)
    | Reports(task: nat, unit: real)

  predicate Sensible(h: Happening)
  {
    match h
    case Step(l) => IsOthers(l) && !l.Probe? && !l.ReportFailed?
    case Probes(_, _, unit) => 0.0 <= unit < 1.0
    case Reports(_, unit) => 0.0 <= unit < 1.0
  }

  predicate AllSensible(hs: seq<Happening>)
  {
    forall i :: 0 <= i < |hs| ==> Sensible(hs[i])
  }

  lemma LoadStep(s: State, n: Name, o: Outcome, saved: bool)
    requires Possible(s.cfg, n, o) && n in s.persisted
    ensures var s' := Apply(s, Label.Load(n, o, saved));
      && s'.loaded.Keys == (if o.Success? then s.loaded.Keys + {n} else s.loaded.Keys)
      && s'.persisted == s.persisted
  {
    hide DoLoad, DoUnload, DoProbe, DoFire, DoReportFailed, StopAll;
    LoadNames(s, n, o, saved);
  }

  lemma LoadIs(s: State, n: Name, o: Outcome, saved: bool)
    requires Possible(s.cfg, n, o)
    ensures Apply(s, Label.Load(n, o, saved)) == DoLoad(s, n, o, saved)
    ensures n in s.loaded ==> DoLoad(s, n, o, saved) == s
    ensures n !in s.loaded && o.Success? ==> DoLoad(s, n, o, saved) == LoadSucceeds(s, n, saved)
    ensures n !in s.loaded && (o.InitError? || o.StartError?) ==> DoLoad(s, n, o, saved) == LoadFails(s, n)
    ensures n !in s.loaded && o.DispenseError? ==> DoLoad(s, n, o, saved) == BuildUndispensed(s, n)
    ensures n !in s.loaded && (o.NotFound? || o.LoadError?) ==> DoLoad(s, n, o, saved) == s
  {
    hide LoadFails, LoadSucceeds;
  }

  lemma FireIs(s: State, id: nat, o: Outcome)
    requires Possibly(s, Fire(id, o))
    ensures id in s.tasks && s.tasks[id].Restart? && Possible(s.cfg, s.tasks[id].name, o)
    ensures Apply(s, Fire(id, o)) == DoFire(s, id, o)
    ensures var n := s.tasks[id].name;
      if n !in s.loaded then DoFire(s, id, o) == s.(tasks := s.tasks - {id})
      else
        var e := s.loaded[n]; var s' := DoFire(s, id, o);
        && s' == Replace(Halt(Cancel(s, e.token), e.instance), id, n, e, o)
        && s'.cancelled == s.cancelled + {e.token} && s'.persisted == s.persisted
        && if o.Success? then
            && s'.loaded == s.loaded[n :=
                 Entry(|s.instances|, Running, e.restartAttempt, s.now, e.loadSeq, s.nextToken)]
            && s'.tasks == (s.tasks - {id})[s.nextTask := Poll(n, |s.instances|, s.nextToken, false)]
            && s'.events == s.events + [Announce(n, Initializing), Announce(n, Running)]
          else
            && s'.loaded == s.loaded && s'.tasks == s.tasks[id := Report(n, o.InitError? || o.StartError?)]
            && s'.events == s.events + if o.InitError? || o.StartError? then [Announce(n, Initializing)] else []
  {
    hide Replace, Halt;
    if s.tasks[id].name in s.loaded {
      if o.Success? { RestartEffect(s, id); } else { FailedRestartEffect(s, id, o); }
    }
  }

  lemma ShutdownStep(s: State, order: seq<Name>)
    requires Inv(s) && IsLifo(s.loaded, order)
    ensures var s1 := s.(lifeCancelled := true);
      && Inv(s1) && StopAll(s1, order) == Apply(Apply(s, CancelLife), StopEverything)
      && StopAll(s1, order).loaded == map[]
  {
    var s1 := s.(lifeCancelled := true);
    FrameKeeps(s, s1);
    LifoUnique(s.loaded, Lifo(s.loaded), order);
    StopAllRemoves(s1, order);
  }

  class Supervisor {
    const cfg: Config
    var loaded: map<Name, Entry>
    var persisted: set<Name>
    var disk: Disk
    var boots: seq<set<Name>>
    var loadSeq: nat
    var lifeCancelled: bool
    var cancelled: set<nat>
    var nextToken: nat
    var tasks: map<nat, Task>
    var nextTask: nat
    var instances: seq<Instance>
    var events: seq<Event>
    var now: nat

    ghost function View(): State
      reads this
    {
      State(cfg, loaded, persisted, disk, boots, loadSeq, lifeCancelled, cancelled, nextToken,
            tasks, nextTask, instances, events, now)
    }

    ghost predicate Valid()
      reads this
    {
      Inv(View()) && cfg.maxRestarts >= 1
    }

    /** A fresh supervisor loads nothing. */
    constructor (registry: set<Name>, external: bool, maxRestarts: nat, window: nat, disk: Disk)
      ensures Valid()
      ensures View() == Init(Config(registry, external, EffectiveMaxRestarts(maxRestarts), window), disk)
      ensures cfg.maxRestarts == if maxRestarts == 0 then 5 else maxRestarts
      ensures loaded == map[] && persisted == {} && tasks == map[] && instances == [] && events == []
    {
      cfg := Config(registry, external, if maxRestarts == 0 then Backoff.MAX_RESTARTS else maxRestarts, window);
      loaded, persisted, this.disk, boots := map[], {}, disk, [];
      loadSeq, lifeCancelled, cancelled, nextToken := 0, false, {}, 0;
      tasks, nextTask, instances, events, now := map[], 0, [], [], 0;
    }

    // ---- shared pieces ----

    method PublishState(n: Name, state: ModuleState)
      modifies this`events
      ensures View() == Publish(old(View()), n, state)
    {
      events := events + [StateChanged(n, state, false)];
    }

    method RaiseError(n: Name)
      modifies this`events
      ensures View() == PublishError(old(View()), n)
    {
      events := events + [ErrorRaised(n)];
    }

    method CancelToken(token: nat)
      modifies this`cancelled
      ensures View() == Cancel(old(View()), token)
    {
      cancelled := cancelled + {token};
    }

    method StopInstance(i: nat)
      modifies this`instances
      ensures View() == Halt(old(View()), i)
      ensures i < |old(instances)| ==>
        var x := old(instances)[i];
        instances == old(instances)[i :=
          x.(stops := x.stops + 1, slot := false, teardowns := x.teardowns + if x.slot then 1 else 0)]
    {
      if i < |instances| {
        var x := instances[i];
        x := x.(stops := x.stops + 1);
        if x.slot {
          x := x.(slot := false, teardowns := x.teardowns + 1);
        }
        instances := instances[i := x];
      }
    }

    /** Resolves a fresh instance: the registry first, then the external loader. */
    method Instantiate(n: Name, o: Outcome) returns (r: Result<nat>)
      requires Possible(cfg, n, o)
      modifies this`instances
      ensures r.Ok? <==> !o.NotFound? && !o.LoadError? && !o.DispenseError?
      ensures r.Ok? ==> r.value == old(|instances|) && View() == Build(old(View()), n)
      ensures r.Err? ==> r.error == ErrorOf(o) && r.error == if o.NotFound? then UnknownModule else ExternalLoad
      ensures r.Err? ==> View() == if o.DispenseError? then BuildUndispensed(old(View()), n) else old(View())
      ensures instances == old(instances) +
        if r.Ok? then [Instance(n, n !in cfg.registry, true, n !in cfg.registry, 0, 0)]
        else if o.DispenseError? then [Instance(n, true, false, false, 0, 1)]
        else []
    {
      if n in cfg.registry {
        r := Ok(|instances|);
        instances := instances + [Instance(n, false, true, false, 0, 0)];
      } else if !cfg.external {
        r := Err(UnknownModule);
      } else {
        match o {
          case NotFound =>
            r := Err(UnknownModule);
          case LoadError =>
            r := Err(ExternalLoad);
          case DispenseError =>
            // The process came up, so the loader shuts it down again before it gives up.
            instances := instances + [Instance(n, true, false, false, 0, 1)];
            r := Err(ExternalLoad);
          case InitError =>
            r := Ok(|instances|);
            instances := instances + [Instance(n, true, true, true, 0, 0)];
          case StartError =>
            r := Ok(|instances|);
            instances := instances + [Instance(n, true, true, true, 0, 0)];
          case Success =>
            r := Ok(|instances|);
            instances := instances + [Instance(n, true, true, true, 0, 0)];
        }
      }
    }

    /** Announces `Running`, spawns the health loop and stores the entry. */
    method StoreRunning(n: Name, instance: nat, attempt: nat, seqNo: nat)
      modifies this`events, this`tasks, this`nextTask, this`nextToken, this`loaded
      ensures View() == Install(old(View()), n, instance, attempt, seqNo)
    {
      PublishState(n, Running);
      var token := nextToken;
      nextToken := nextToken + 1;
      tasks := tasks[nextTask := Poll(n, instance, token, false)];
      nextTask := nextTask + 1;
      loaded := loaded[n := Entry(instance, Running, attempt, now, seqNo, token)];
    }

    // ---- operator calls ----

    method Load(n: Name, o: Outcome, saved: bool) returns (r: Result<ModuleState>)
      requires Valid() && Possible(cfg, n, o)
      modifies this
      ensures Valid() && View() == Apply(old(View()), Label.Load(n, o, saved))
      ensures r.Ok? <==> n in old(loaded) || o.Success?
      ensures r.Ok? ==> n in loaded && r.value == loaded[n].state
      ensures r.Err? ==> loaded == old(loaded) && r.error == ErrorOf(o)
      ensures r.Err? ==>
        && (r.error.UnknownModule? <==> o.NotFound?)
        && (r.error.ExternalLoad? <==> o.LoadError? || o.DispenseError?)
        && (r.error.ModuleFailed? <==> o.InitError? || o.StartError?)
      ensures n in old(loaded) || o.NotFound? || o.LoadError? ==> View() == old(View())
      ensures n !in old(loaded) && o.Success? ==>
        && loaded == old(loaded)[n := Entry(old(|instances|), Running, 0, now, old(loadSeq), old(nextToken))]
        && tasks == old(tasks)[old(nextTask) := Poll(n, old(|instances|), old(nextToken), false)]
        && events == old(events) + [Announce(n, Initializing), Announce(n, Running)]
        && persisted == old(persisted) + {n} && disk == (if saved then Enabled(persisted) else old(disk))
        && loadSeq == old(loadSeq) + 1 && cancelled == old(cancelled) && now == old(now)
      ensures n !in old(loaded) && (o.InitError? || o.StartError?) ==>
        && events == old(events) + [Announce(n, Initializing), ErrorRaised(n), Announce(n, Disabled)]
        && |instances| == old(|instances|) + 1 && instances[old(|instances|)].stops == 1
        && tasks == old(tasks) && persisted == old(persisted) && disk == old(disk)
    {
      hide Inv, Apply, DoLoad, Discard, Enlist;
      LoadIs(View(), n, o, saved);
      if n !in loaded && o.Success? { StartEffect(View(), n, saved); }
      if n !in loaded && !o.Success? { FailedLoadEffect(View(), n, o, saved); }
      LoadKeeps(View(), n, o, saved);
      if n in loaded {
        return Ok(loaded[n].state);
      }
      var built := Instantiate(n, o);
      if built.Err? {
        return Err(built.error);
      }
      PublishState(n, Initializing);
      if !o.Success? {
        DiscardInstance(n, built.value);
        return Err(ModuleFailed);
      }
      EnlistInstance(n, built.value, saved);
      return Ok(Running);
    }

    method DiscardInstance(n: Name, instance: nat)
      modifies this`instances, this`events
      ensures View() == Discard(old(View()), n, instance)
    {
      StopInstance(instance);
      RaiseError(n);
      PublishState(n, Disabled);
    }

    method EnlistInstance(n: Name, instance: nat, saved: bool)
      modifies this
      ensures View() == Enlist(old(View()), n, instance, saved) && n in loaded && loaded[n].state == Running
    {
      var seqNo := loadSeq;
      loadSeq := loadSeq + 1;
      StoreRunning(n, instance, 0, seqNo);
      persisted := persisted + {n};
      if saved {
        disk := Enabled(persisted);
      }
    }

    method StopLocked(n: Name)
      requires Valid()
      modifies this`cancelled, this`events, this`instances, this`loaded
      ensures Valid() && View() == SupervisorModel.StopLocked(old(View()), n)
      ensures n !in old(loaded) ==> View() == old(View())
      ensures n in old(loaded) ==>
        && loaded == old(loaded) - {n} && cancelled == old(cancelled) + {old(loaded[n].token)}
        && events == old(events) + [Announce(n, Stopping), Announce(n, Stopped)]
        && instances == old(Halt(View(), loaded[n].instance).instances)
    {
      hide Inv;
      StopKeeps(View(), n);
      if n in loaded {
        var e := loaded[n];
        CancelToken(e.token);
        PublishState(n, Stopping);
        StopInstance(e.instance);
        PublishState(n, Stopped);
        loaded := loaded - {n};
      }
    }

    method Unload(n: Name, saved: bool)
      requires Valid()
      modifies this
      ensures Valid() && View() == Apply(old(View()), Label.Unload(n, saved))
      ensures n !in old(loaded) ==> View() == old(View())
      ensures n in old(loaded) ==>
        && loaded == old(loaded) - {n} && cancelled == old(cancelled) + {old(loaded[n].token)}
        && events == old(events) + [Announce(n, Stopping), Announce(n, Stopped)]
        && persisted == old(persisted) - {n} && disk == (if saved then Enabled(persisted) else old(disk))
    {
      hide Inv, SupervisorModel.StopLocked;
      UnloadKeeps(View(), n, saved);
      if n in loaded {
        StopLocked(n);
        persisted := persisted - {n};
        if saved {
          disk := Enabled(persisted);
        }
      }
    }

    /** Boot: reads the enabled-set back, adopts it, and loads every name in it. A failure is collected
        and does not stop the rest; `saves` are the names after whose load the save succeeds. The lock is
        not held between the read and the adoption, where `racing` happens, nor before the load of a
        name, where `between` says what happens. */
    method StartEnabled(outcomes: map<Name, Outcome>, saves: set<Name>, racing: seq<Happening>,
                        between: map<Name, seq<Happening>>)
      returns (failures: map<Name, Error>, ghost read: seq<Label>, ghost run: seq<Label>, ghost at: map<Name, nat>)
      requires Valid() && AllSensible(racing) && forall n :: n in between ==> AllSensible(between[n])
      requires forall n :: n in DiskSet(disk) ==> n in outcomes && Possible(cfg, n, outcomes[n])
      modifies this
      ensures Valid() && 0 < |read| && read[0].ReadEnabled? && (forall i :: 0 < i < |read| ==> IsOthers(read[i]))
      ensures Legal(old(View()), read)
      ensures var mid, boot := After(old(View()), read), old(|boots|);
        && boot < |mid.boots| && mid.boots[boot] == old(DiskSet(disk))
        && Booted(mid, View(), run, boot, mid.boots[boot], outcomes, saves, at, failures)
      ensures racing == [] ==> read == [] + [Label.ReadEnabled]
      ensures between == map[] ==> Uninterrupted(run, at)
    {
      hide Inv, Apply, Legal, After, Possibly, Booted, IsOthers;
      ghost var s0 := View();
      var boot := |boots|;
      var names := ReadEnabled();
      read := Race(racing, s0, [] + [Label.ReadEnabled]);
      ghost var mid := View();
      BootStart(mid, boot, outcomes, saves);
      AdoptEnabled(boot);
      failures, run, at := LoadAll(names, outcomes, saves, between, mid, boot);
    }

    /** Reads the file, outside the lock. An unreadable one counts as empty. */
    method ReadEnabled() returns (names: set<Name>)
      requires Valid()
      modifies this`boots
      ensures Valid() && names == DiskSet(disk) && boots == old(boots) + [names]
      ensures Legal(old(View()), [] + [Label.ReadEnabled]) && View() == After(old(View()), [] + [Label.ReadEnabled])
    {
      hide Inv, Legal, After, DoLoad, DoUnload, DoProbe, DoFire, DoReportFailed, StopAll;
      EmptyRun(View());
      Extend(View(), [], Label.ReadEnabled);
      StepKeeps(View(), Label.ReadEnabled);
      names := match disk
        case Unreadable => {}
        case Enabled(names) => names;
      boots := boots + [names];
    }

    /** Makes what was read the enabled-set, under the lock. */
    method AdoptEnabled(boot: nat)
      requires Valid() && boot < |boots|
      modifies this`persisted, this`boots
      ensures Valid() && View() == Apply(old(View()), Label.AdoptEnabled(boot))
      ensures persisted == old(boots)[boot]
    {
      hide Inv, DoLoad, DoUnload, DoProbe, DoFire, DoReportFailed, StopAll;
      StepKeeps(View(), Label.AdoptEnabled(boot));
      persisted := boots[boot];
      boots := boots[..boot] + boots[boot + 1..];
    }

    /** Something happens, if it can: what comes of it is one step of the machine, or none. */
    method Happen(h: Happening) returns (ghost steps: seq<Label>)
      requires Valid() && Sensible(h)
      modifies this
      ensures Valid() && boots == old(boots)
      ensures steps == [] ==> View() == old(View())
      ensures steps != [] ==>
        && |steps| == 1 && IsOthers(steps[0]) && Possibly(old(View()), steps[0])
        && View() == Apply(old(View()), steps[0])
      ensures h.Step? && Possibly(old(View()), h.step) ==> steps == [h.step]
    {
      hide Inv, Apply;
      steps := [];
      match h {
        case Step(l) =>
          var done := Turn(l);
          if done { steps := [l]; }
        case Probes(id, level, unit) =>
          if id in tasks && tasks[id].Poll? && tasks[id].probing {
            var delay := PollHealthOnce(id, level, unit);
            steps := [Label.Probe(id, level, delay)];
          }
        case Reports(id, unit) =>
          if id in tasks && tasks[id].Report? {
            var delay := ReportFailedRestart(id, unit);
            steps := [Label.ReportFailed(id, delay)];
          }
      }
      if steps != [] { EnabledChanges(old(View()), steps[0]); }
    }

    /** A call, a turn of a task that draws no delay, or the passing of time; refused if it cannot be. */
    method Turn(l: Label) returns (done: bool)
      requires Valid() && Sensible(Step(l))
      modifies this
      ensures Valid() && (done <==> Possibly(old(View()), l))
      ensures View() == if done then Apply(old(View()), l) else old(View())
    {
      hide Inv, DoLoad, DoUnload, DoProbe, DoFire, DoReportFailed, StopAll;
      done := true;
      match l {
        case Load(n, o, saved) =>
          done := Possible(cfg, n, o);
          if done { var _ := Load(n, o, saved); }
        case Unload(n, saved) =>
          Unload(n, saved);
        case Tick(elapsed) =>
          StepKeeps(View(), l);
          now := now + elapsed;
        case Wake(id) =>
          done := id in tasks && tasks[id].Poll? && !tasks[id].probing;
          if done {
            StepKeeps(View(), l);
            tasks := tasks[id := tasks[id].(probing := true)];
          }
        case ExitPoll(id) =>
          done := id in tasks && tasks[id].Poll? && !tasks[id].probing && tasks[id].token in cancelled;
          if done { EndTurn(l, id); }
        case Fire(id, o) =>
          done := id in tasks && tasks[id].Restart? && tasks[id].due <= now && Possible(cfg, tasks[id].name, o);
          if done { PerformScheduledRestart(id, o); }
        case Abandon(id) =>
          done := id in tasks && tasks[id].Restart? && lifeCancelled;
          if done { EndTurn(l, id); }
      }
    }

    /** A task ends. */
    method EndTurn(l: Label, id: nat)
      requires Valid() && (l == Label.ExitPoll(id) || l == Label.Abandon(id)) && Possibly(View(), l)
      modifies this`tasks
      ensures Valid() && View() == Apply(old(View()), l)
    {
      EndKeeps(View(), id);
      hide Inv, DoLoad, DoUnload, DoProbe, DoFire, DoReportFailed, StopAll;
      tasks := tasks - {id};
    }

    /** What happens between the read and the adoption. */
    method Race(racing: seq<Happening>, ghost s0: State, ghost before: seq<Label>) returns (ghost run: seq<Label>)
      requires Valid() && AllSensible(racing) && Legal(s0, before) && View() == After(s0, before)
      requires 0 < |before| && forall i :: 0 < i < |before| ==> IsOthers(before[i])
      modifies this
      ensures Valid() && boots == old(boots) && Legal(s0, run) && View() == After(s0, run)
      ensures before <= run && forall i :: 0 < i < |run| ==> IsOthers(run[i])
      ensures racing == [] ==> run == before
    {
      hide Inv, Apply, Legal, After, Possibly, IsOthers, Sensible;
      run := before;
      for k := 0 to |racing|
        invariant Valid() && boots == old(boots) && Legal(s0, run) && View() == After(s0, run)
        invariant before <= run && forall i :: 0 < i < |run| ==> IsOthers(run[i])
        invariant k == 0 ==> run == before
      {
        ghost var steps := Happen(racing[k]);
        if steps != [] {
          Extend(s0, run, steps[0]);
          run := run + [steps[0]];
        }
      }
    }

    /** What happens before a boot's load of one name. */
    method Interrupt(hs: seq<Happening>, ghost s0: State, ghost run: seq<Label>, ghost boot: nat,
                     ghost names: set<Name>, outcomes: map<Name, Outcome>, ghost saves: set<Name>,
                     ghost at: map<Name, nat>, failures: map<Name, Error>)
      returns (ghost run': seq<Label>)
      requires Valid() && AllSensible(hs) && Booted(s0, View(), run, boot, names, outcomes, saves, at, failures)
      modifies this
      ensures Valid() && Booted(s0, View(), run', boot, names, outcomes, saves, at, failures)
      ensures hs == [] ==> run' == run
    {
      hide Inv, Apply, Possibly, Booted, Sensible, IsOthers;
      run' := run;
      for k := 0 to |hs|
        invariant Valid() && Booted(s0, View(), run', boot, names, outcomes, saves, at, failures)
        invariant k == 0 ==> run' == run
      {
        ghost var s := View();
        ghost var steps := Happen(hs[k]);
        if steps != [] {
          BootOther(s0, s, run', boot, names, outcomes, saves, at, failures, steps[0]);
          run' := run' + [steps[0]];
        }
      }
    }

    /** The loads of a boot that has adopted the names and loaded nothing yet. */
    method LoadAll(enabled: set<Name>, outcomes: map<Name, Outcome>, saves: set<Name>,
                   between: map<Name, seq<Happening>>, ghost s0: State, ghost boot: nat)
      returns (failures: map<Name, Error>, ghost run: seq<Label>, ghost at: map<Name, nat>)
      requires Valid() && Booted(s0, View(), [] + [Label.AdoptEnabled(boot)], boot, {}, outcomes, saves, map[], map[])
      requires forall n :: n in between ==> AllSensible(between[n])
      requires forall n :: n in enabled ==> n in outcomes && Possible(cfg, n, outcomes[n])
      modifies this
      ensures Valid() && Booted(s0, View(), run, boot, enabled, outcomes, saves, at, failures)
      ensures between == map[] ==> Uninterrupted(run, at)
    {
      hide Inv, Apply, Booted, AllSensible;
      failures, run, at := map[], [] + [Label.AdoptEnabled(boot)], map[];
      var names := enabled;
      assert enabled - names == {};
      while names != {}
        invariant Valid() && names <= enabled
        invariant Booted(s0, View(), run, boot, enabled - names, outcomes, saves, at, failures)
        invariant between == map[] ==> Uninterrupted(run, at) && at.Keys == enabled - names
        decreases names
      {
        var n :| n in names;
        if n in between {
          run := Interrupt(between[n], s0, run, boot, enabled - names, outcomes, saves, at, failures);
        }
        BootMore(s0, View(), run, boot, enabled - names, outcomes, saves, at, failures, n);
        assert enabled - (names - {n}) == enabled - names + {n};
        failures := LoadPersisted(n, outcomes[n], n in saves, failures);
        at := at[n := |run|];
        run := run + [Label.Load(n, outcomes[n], n in saves)];
        names := names - {n};
      }
      assert enabled - names == enabled;
    }

    method LoadPersisted(n: Name, o: Outcome, saved: bool, failures: map<Name, Error>) returns (more: map<Name, Error>)
      requires Valid() && Possible(cfg, n, o)
      modifies this
      ensures Valid() && View() == Apply(old(View()), Label.Load(n, o, saved))
      ensures more == if o.Success? || n in old(loaded) then failures else failures[n := ErrorOf(o)]
    {
      hide Inv, Apply;
      var r := Load(n, o, saved);
      more := failures;
      if r.Err? {
        more := failures[n := r.error];
      }
    }

    /** Cancels the lifetime token, then stops every loaded module, newest first. */
    method Shutdown()
      requires Valid()
      modifies this
      ensures Valid() && loaded == map[]
      ensures View() == Apply(Apply(old(View()), CancelLife), StopEverything)
      ensures lifeCancelled && persisted == old(persisted) && disk == old(disk)
    {
      hide Inv, Apply;
      ghost var s0 := View();
      lifeCancelled := true;
      ghost var s := View();
      var order := NewestFirst(loaded);
      ShutdownStep(s0, order);
      for k := 0 to |order|
        invariant Valid() && StopAll(View(), order[k..]) == StopAll(s, order)
        invariant lifeCancelled && persisted == old(persisted) && disk == old(disk)
      {
        StopLocked(order[k]);
        assert order[k..][1..] == order[k + 1..];
      }
    }

    /** Every registered module, loaded or not, then every loaded external one. */
    method List() returns (rows: seq<Row>)
      ensures RowsFor(View(), rows, cfg.registry + loaded.Keys)
      ensures forall i :: 0 <= i < |rows| ==>
        && (rows[i].external <==> rows[i].name !in cfg.registry)
        && rows[i].state == if rows[i].name in loaded then loaded[rows[i].name].state else Disabled
    {
      rows := [];
      var rest := cfg.registry;
      assert cfg.registry - rest == {};
      while rest != {}
        invariant rest <= cfg.registry && RowsFor(View(), rows, cfg.registry - rest)
        decreases rest
      {
        hide RowsFor;
        var n :| n in rest;
        RowAdded(View(), rows, cfg.registry - rest, n);
        assert cfg.registry - rest + {n} == cfg.registry - (rest - {n});
        rows := rows + [Row(n, if n in loaded then loaded[n].state else Disabled, false)];
        rest := rest - {n};
      }
      rest := loaded.Keys - cfg.registry;
      assert cfg.registry + loaded.Keys - rest == cfg.registry;
      while rest != {}
        invariant rest <= loaded.Keys - cfg.registry && RowsFor(View(), rows, cfg.registry + loaded.Keys - rest)
        decreases rest
      {
        hide RowsFor;
        var n :| n in rest;
        RowAdded(View(), rows, cfg.registry + loaded.Keys - rest, n);
        assert cfg.registry + loaded.Keys - rest + {n} == cfg.registry + loaded.Keys - (rest - {n});
        rows := rows + [Row(n, loaded[n].state, true)];
        rest := rest - {n};
      }
    }

    // ---- background turns ----

    /** Records a failure: schedules a restart, or parks the module once the budget is used up. */
    method ReportFailure(n: Name, unit: real) returns (delay: nat)
      requires Valid() && 0.0 <= unit < 1.0
      modifies this`cancelled, this`loaded, this`events, this`tasks, this`nextTask
      ensures Valid() && Drawn(old(View()), n, delay) && View() == DoReport(old(View()), n, delay)
      ensures n !in old(loaded) ==> View() == old(View())
      ensures n in old(loaded) ==>
        var e := old(loaded)[n];
        var carried := if now - e.startedAt >= cfg.window then 0 else e.restartAttempt;
        && cancelled == old(cancelled) + {e.token}
        && if carried + 1 >= cfg.maxRestarts then
            && loaded == old(loaded)[n := e.(state := Failed, restartAttempt := carried + 1)]
            && events == old(events) + [Announce(n, Failed), ErrorRaised(n)] && tasks == old(tasks)
          else
            && loaded == old(loaded)[n := e.(state := Degraded, restartAttempt := carried + 1)]
            && events == old(events) + [StateChanged(n, Degraded, true)]
            && delay == Backoff.DelayFor(carried, Some(unit * 0.1))
            && tasks == old(tasks)[old(nextTask) := Restart(n, now + delay)]
    {
      hide Inv, Backoff.RandomDelay, Backoff.Base, Backoff.DelayFor;
      delay := 0;
      ghost var s := View();
      if n in loaded {
        var e := loaded[n];
        CancelToken(e.token);
        if now - e.startedAt >= cfg.window {
          e := e.(restartAttempt := 0);
        }
        e := e.(restartAttempt := e.restartAttempt + 1);
        if e.restartAttempt >= cfg.maxRestarts {
          ParkEntry(n, e.(state := Failed));
        } else {
          delay := Backoff.DelayForRandom(e.restartAttempt - 1, unit);
          ScheduleRestart(n, e.(state := Degraded), now + delay);
        }
      }
      ReportKeeps(s, n, delay);
    }

    method ParkEntry(n: Name, e: Entry)
      modifies this`loaded, this`events
      ensures View() == PublishError(Publish(SetEntry(old(View()), n, e), n, Failed), n)
    {
      loaded := loaded[n := e];
      PublishState(n, Failed);
      RaiseError(n);
    }

    method ScheduleRestart(n: Name, e: Entry, due: nat)
      modifies this`loaded, this`events, this`tasks, this`nextTask
      ensures View() == Spawn(
        SetEntry(old(View()), n, e).(events := old(events) + [StateChanged(n, Degraded, true)]), Restart(n, due))
    {
      loaded := loaded[n := e];
      events := events + [StateChanged(n, Degraded, true)];
      tasks := tasks[nextTask := Restart(n, due)];
      nextTask := nextTask + 1;
    }

    method MarkDegraded(n: Name)
      modifies this`loaded, this`events
      ensures View() == SupervisorModel.MarkDegraded(old(View()), n)
      ensures n !in old(loaded) || old(loaded[n].state) == Degraded ==> View() == old(View())
      ensures n in old(loaded) && old(loaded[n].state) != Degraded ==>
        && loaded == old(loaded)[n := old(loaded[n]).(state := Degraded)]
        && events == old(events) + [Announce(n, Degraded)]
    {
      if n in loaded && loaded[n].state != Degraded {
        loaded := loaded[n := loaded[n].(state := Degraded)];
        PublishState(n, Degraded);
      }
    }

    method RestoreRunningIfDegraded(n: Name)
      modifies this`loaded, this`events
      ensures View() == RestoreRunning(old(View()), n)
      ensures n !in old(loaded) || old(loaded[n].state) != Degraded ==> View() == old(View())
      ensures n in old(loaded) && old(loaded[n].state) == Degraded ==>
        && loaded == old(loaded)[n := old(loaded[n]).(state := Running)]
        && events == old(events) + [Announce(n, Running)]
    {
      if n in loaded && loaded[n].state == Degraded {
        loaded := loaded[n := loaded[n].(state := Running)];
        PublishState(n, Running);
      }
    }

    /** One probe of the health loop `id`, and the loop's return to its select. */
    method PollHealthOnce(id: nat, level: Health, unit: real) returns (delay: nat)
      requires Valid() && 0.0 <= unit < 1.0 && id in tasks && tasks[id].Poll? && tasks[id].probing
      modifies this
      ensures Possibly(old(View()), Probe(id, level, delay))
      ensures Valid() && View() == Apply(old(View()), Probe(id, level, delay))
      ensures id in tasks <==> old(tasks[id].token) !in cancelled
      ensures id in tasks ==> tasks[id] == old(tasks[id]).(probing := false)
    {
      hide Inv, ActOnHealth;
      ghost var s := View();
      var t := tasks[id];
      delay := Observe(t.name, level, unit);
      ActTasks(s, t.name, level, delay);
      if t.token in cancelled {
        tasks := tasks - {id};
      } else {
        tasks := tasks[id := t.(probing := false)];
      }
      ProbeKeeps(s, id, level, delay);
    }

    /** The transition that a health report calls for. */
    method Observe(n: Name, level: Health, unit: real) returns (delay: nat)
      requires Valid() && 0.0 <= unit < 1.0
      modifies this`cancelled, this`loaded, this`events, this`tasks, this`nextTask
      ensures View() == ActOnHealth(old(View()), n, level, delay)
      ensures level.Unhealthy? ==> Drawn(old(View()), n, delay)
    {
      hide Inv, Drawn, DoReport, SupervisorModel.MarkDegraded, RestoreRunning;
      delay := 0;
      match level {
        case Unhealthy => delay := ReportFailure(n, unit);
        case Impaired => MarkDegraded(n);
        case Healthy => RestoreRunningIfDegraded(n);
      }
    }

    /** The backoff of restart `id` has elapsed. A failed restart leaves its report pending. */
    method PerformScheduledRestart(id: nat, o: Outcome)
      requires Valid() && Possibly(View(), Fire(id, o))
      modifies this
      ensures Valid() && View() == Apply(old(View()), Fire(id, o))
      ensures old(tasks[id].name !in loaded) ==> View() == old(View()).(tasks := old(tasks) - {id})
      ensures old(tasks[id].name in loaded) ==>
        var n := old(tasks[id].name);
        var e := old(loaded)[n];
        && cancelled == old(cancelled) + {e.token} && persisted == old(persisted)
        && if o.Success? then
            && loaded == old(loaded)[n :=
                 Entry(old(|instances|), Running, e.restartAttempt, now, e.loadSeq, old(nextToken))]
            && tasks == (old(tasks) - {id})[old(nextTask) := Poll(n, old(|instances|), old(nextToken), false)]
            && events == old(events) + [Announce(n, Initializing), Announce(n, Running)]
          else
            && loaded == old(loaded)
            && tasks == old(tasks)[id := Report(n, o.InitError? || o.StartError?)]
            && events == old(events) + if o.InitError? || o.StartError? then [Announce(n, Initializing)] else []
    {
      FireIs(View(), id, o);
      hide Inv, Replace, Apply, Possibly, DoFire;
      FireKeeps(View(), id, o);
      var n := tasks[id].name;
      if n !in loaded {
        tasks := tasks - {id};
        return;
      }
      var e := loaded[n];
      CancelToken(e.token);
      StopInstance(e.instance);
      ReplaceInstance(id, n, e, o);
    }

    /** Builds and starts the new instance of a restart. */
    method ReplaceInstance(id: nat, n: Name, e: Entry, o: Outcome)
      requires Possible(cfg, n, o)
      modifies this
      ensures View() == Replace(old(View()), id, n, e, o)
    {
      var built := Instantiate(n, o);
      if built.Err? {
        tasks := tasks[id := Report(n, false)];
        return;
      }
      PublishState(n, Initializing);
      if !o.Success? {
        StopInstance(built.value);
        tasks := tasks[id := Report(n, true)];
        return;
      }
      tasks := tasks - {id};
      StoreRunning(n, built.value, e.restartAttempt, e.loadSeq);
    }

    /** The report of a restart that failed, after it released the lock. */
    method ReportFailedRestart(id: nat, unit: real) returns (delay: nat)
      requires Valid() && 0.0 <= unit < 1.0 && id in tasks && tasks[id].Report?
      modifies this
      ensures Possibly(old(View()), ReportFailed(id, delay))
      ensures Valid() && View() == Apply(old(View()), ReportFailed(id, delay))
      ensures id !in tasks && |events| > |old(events)|
      ensures events[..|old(events)| + 1] == old(events) + [ErrorRaised(old(tasks[id].name))]
      ensures View() == DoReport(
        old(View()).(events := old(events) + [ErrorRaised(old(tasks[id].name))], tasks := old(tasks) - {id}),
        old(tasks[id].name), delay)
    {
      hide Inv, DoReport, Backoff.DelayFor;
      ghost var s := View();
      InvBelow(s, id);
      var n := tasks[id].name;
      RaiseError(n);
      tasks := tasks - {id};
      FrameKeeps(s, PublishError(s, n));
      EndKeeps(PublishError(s, n), id);
      delay := ReportFailure(n, unit);
    }
  }
}
