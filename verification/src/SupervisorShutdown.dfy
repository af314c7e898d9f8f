/** Shutdown stops the loaded modules in exact reverse order of their loading. */
module SupervisorShutdown {
  import opened SupervisorModel
  import opened SupervisorInvariants
  import opened SupervisorTasks

  // ---- names and load numbers over one step ----

  /** The same names are loaded under the same load numbers, and the enabled-set is as it was. */
  ghost predicate SameNames(s: State, s': State)
  {
    && s'.loaded.Keys == s.loaded.Keys
    && (forall n :: n in s.loaded ==> s'.loaded[n].loadSeq == s.loaded[n].loadSeq)
    && s'.persisted == s.persisted && s'.disk == s.disk && s'.boots == s.boots
  }

  lemma ReportNames(s: State, n: Name, delay: nat)
    ensures SameNames(s, DoReport(s, n, delay))
  {
  }

  lemma ProbeNames(s: State, id: nat, level: Health, delay: nat)
    requires id in s.tasks && s.tasks[id].Poll?
    ensures SameNames(s, DoProbe(s, id, level, delay))
  {
    hide DoReport;
    ReportNames(s, s.tasks[id].name, delay);
  }

  lemma FireNames(s: State, id: nat, o: Outcome)
    requires id in s.tasks && s.tasks[id].Restart?
    ensures SameNames(s, DoFire(s, id, o))
  {
    var n := s.tasks[id].name;
    if n in s.loaded {
      hide Replace;
      var e := s.loaded[n];
      ReplaceNames(Halt(Cancel(s, e.token), e.instance), id, n, e, o);
    }
  }

  lemma ReplaceNames(s: State, id: nat, n: Name, e: Entry, o: Outcome)
    requires n in s.loaded && s.loaded[n].loadSeq == e.loadSeq
    ensures SameNames(s, Replace(s, id, n, e, o))
  {
  }

  lemma ReportFailedNames(s: State, id: nat, delay: nat)
    requires id in s.tasks && s.tasks[id].Report?
    ensures SameNames(s, DoReportFailed(s, id, delay))
  {
    hide DoReport;
    ReportNames(EndTask(PublishError(s, s.tasks[id].name), id), s.tasks[id].name, delay);
  }

  lemma LoadNames(s: State, n: Name, o: Outcome, saved: bool)
    ensures var s' := DoLoad(s, n, o, saved);
      if o.Success? && n !in s.loaded then
        && s'.loaded.Keys == s.loaded.Keys + {n} && s'.loaded[n].loadSeq == s.loadSeq
        && (forall m :: m in s.loaded ==> s'.loaded[m] == s.loaded[m])
        && s'.persisted == s.persisted + {n}
        && s'.disk == (if saved then Enabled(s'.persisted) else s.disk) && s'.boots == s.boots
      else SameNames(s, s')
  {
    hide LoadFails, LoadSucceeds, BuildUndispensed;
    FailedLoadNames(s, n);
    StartedNames(s, n, saved);
  }

  lemma FailedLoadNames(s: State, n: Name)
    ensures SameNames(s, LoadFails(s, n)) && SameNames(s, BuildUndispensed(s, n))
  {
  }

  lemma StartedNames(s: State, n: Name, saved: bool)
    ensures var s' := LoadSucceeds(s, n, saved);
      && s'.loaded.Keys == s.loaded.Keys + {n} && s'.loaded[n].loadSeq == s.loadSeq
      && (forall m :: m in s.loaded && m != n ==> s'.loaded[m] == s.loaded[m])
      && s'.persisted == s.persisted + {n}
      && s'.disk == (if saved then Enabled(s'.persisted) else s.disk) && s'.boots == s.boots
  {
  }

  /** Steps other than loads, unloads, boot and shutdown keep the names, and the enabled-set. */
  lemma TurnNames(s: State, l: Label)
    requires Possibly(s, l) && !l.Load? && !l.Unload? && !l.ReadEnabled? && !l.AdoptEnabled? && !l.StopEverything?
    ensures SameNames(s, Apply(s, l))
  {
    hide DoLoad, DoUnload, DoProbe, DoFire, DoReportFailed, StopAll;
    match l
    case Probe(id, level, delay) => ProbeNames(s, id, level, delay);
    case Fire(id, o) => FireNames(s, id, o);
    case ReportFailed(id, delay) => ReportFailedNames(s, id, delay);
    case CancelLife =>
    case Tick(_) =>
    case Wake(_) =>
    case ExitPoll(_) =>
    case Abandon(_) =>
  }

  /** Loads that start a module add its name, unloads remove it; nothing else but shutdown changes
      which names are loaded, and a name that stays loaded keeps its load number. */
  lemma StepNames(s: State, l: Label)
    requires Possibly(s, l) && !l.StopEverything?
    ensures Apply(s, l).loaded.Keys ==
      if l.Load? && Starts(s, l, l.name) then s.loaded.Keys + {l.name}
      else if l.Unload? then s.loaded.Keys - {l.name}
      else s.loaded.Keys
    ensures forall n :: n in Apply(s, l).loaded ==>
      Apply(s, l).loaded[n].loadSeq == if n in s.loaded then s.loaded[n].loadSeq else s.loadSeq
  {
    hide DoLoad, DoProbe, DoFire, DoReportFailed, StopAll;
    if l.Load? {
      LoadNames(s, l.name, l.outcome, l.saved);
    } else if !l.Unload? && !l.ReadEnabled? && !l.AdoptEnabled? {
      TurnNames(s, l);
    }
  }

  /** A name that is not loaded can only come back by being loaded. */
  lemma StaysOut(s: State, l: Label, n: Name)
    requires Possibly(s, l) && n !in s.loaded && !(l.Load? && l.name == n)
    ensures n !in Apply(s, l).loaded
  {
    hide DoLoad, DoUnload, DoProbe, DoFire, DoReportFailed, StopAll;
    if l.StopEverything? {
      StopAllRemoves(s, Lifo(s.loaded));
    } else {
      StepNames(s, l);
    }
  }

  lemma {:induction false} StopAllRemoves(s: State, order: seq<Name>)
    ensures forall n :: n in StopAll(s, order).loaded <==> n in s.loaded && n !in order
    decreases |order|
  {
    if order != [] {
      StopAllRemoves(StopLocked(s, order[0]), order[1..]);
      assert forall n :: n in order <==> n == order[0] || n in order[1..];
    }
  }

  // ---- the order of loading ----

  function Without(q: seq<Name>, n: Name): seq<Name>
  {
    if q == [] then [] else if q[0] == n then Without(q[1..], n) else [q[0]] + Without(q[1..], n)
  }

  /** The currently loaded names in the order their loads succeeded, told from the run alone. */
  ghost function LoadOrder(s0: State, run: seq<Label>): seq<Name>
    requires Legal(s0, run)
    decreases |run|
  {
    if run == [] then []
    else
      var k := |run| - 1;
      NextOrder(After(s0, run[..k]), run[k], LoadOrder(s0, run[..k]))
  }

  function NextOrder(s: State, l: Label, q: seq<Name>): seq<Name>
  {
    if l.Load? && Starts(s, l, l.name) then q + [l.name]
    else if l.Unload? then Without(q, l.name)
    else if l.StopEverything? then []
    else q
  }

  ghost predicate Ascends(loaded: map<Name, Entry>, q: seq<Name>)
  {
    && (forall i :: 0 <= i < |q| ==> q[i] in loaded)
    && (forall i, j :: 0 <= i < j < |q| ==> loaded[q[i]].loadSeq < loaded[q[j]].loadSeq)
  }

  /** `q` lists the loaded names with ascending load numbers. */
  ghost predicate Lists(loaded: map<Name, Entry>, q: seq<Name>)
  {
    (forall n :: n in q <==> n in loaded) && Ascends(loaded, q)
  }

  lemma {:induction false} WithoutMembers(q: seq<Name>, n: Name)
    ensures forall m :: m in Without(q, n) <==> m in q && m != n
    decreases |q|
  {
    if q != [] {
      WithoutMembers(q[1..], n);
    }
  }

  lemma {:induction false} WithoutAscends(loaded: map<Name, Entry>, q: seq<Name>, n: Name)
    requires Ascends(loaded, q)
    ensures Ascends(loaded, Without(q, n))
    decreases |q|
  {
    if q != [] {
      var tail := q[1..];
      assert forall i :: 0 <= i < |tail| ==> tail[i] == q[i + 1];
      WithoutAscends(loaded, tail, n);
      WithoutMembers(tail, n);
      var r := Without(tail, n);
      forall j | 0 <= j < |r| ensures loaded[q[0]].loadSeq < loaded[r[j]].loadSeq {
        assert r[j] in r;
        var i :| 0 <= i < |tail| && tail[i] == r[j];
      }
      HeadAscends(loaded, q[0], r);
    }
  }

  lemma HeadAscends(loaded: map<Name, Entry>, n: Name, q: seq<Name>)
    requires n in loaded && Ascends(loaded, q)
    requires forall j :: 0 <= j < |q| ==> loaded[n].loadSeq < loaded[q[j]].loadSeq
    ensures Ascends(loaded, [n] + q)
  {
    var all := [n] + q;
    assert forall i :: 0 < i < |all| ==> all[i] == q[i - 1];
  }

  lemma StepLists(s: State, l: Label, q: seq<Name>)
    requires Inv(s) && Possibly(s, l) && Lists(s.loaded, q)
    ensures Lists(Apply(s, l).loaded, NextOrder(s, l, q))
  {
    hide Apply, Inv, Possibly, Ascends;
    SeqsBelow(s);
    if l.StopEverything? {
      ShutdownLists(s);
    } else {
      StepNames(s, l);
      if l.Load? && Starts(s, l, l.name) {
        ListsAdded(s.loaded, Apply(s, l).loaded, q, l.name);
      } else if l.Unload? {
        ListsRemoved(s.loaded, Apply(s, l).loaded, q, l.name);
      } else {
        ListsSame(s.loaded, Apply(s, l).loaded, q);
      }
    }
  }

  lemma SeqsBelow(s: State)
    requires Inv(s)
    ensures forall n :: n in s.loaded ==> s.loaded[n].loadSeq < s.loadSeq
  {
    forall n | n in s.loaded ensures s.loaded[n].loadSeq < s.loadSeq { assert SoundEntry(s, n, s.loaded[n]); }
  }

  lemma ShutdownLists(s: State)
    requires Possibly(s, StopEverything)
    ensures Lists(Apply(s, StopEverything).loaded, [])
  {
    hide Apply;
    ShutdownEmpties(s);
  }

  lemma ListsSame(a: map<Name, Entry>, b: map<Name, Entry>, q: seq<Name>)
    requires Lists(a, q) && b.Keys == a.Keys && forall m :: m in a ==> b[m].loadSeq == a[m].loadSeq
    ensures Lists(b, q)
  {
  }

  lemma ListsAdded(a: map<Name, Entry>, b: map<Name, Entry>, q: seq<Name>, n: Name)
    requires Lists(a, q) && n !in a && b.Keys == a.Keys + {n}
    requires forall m :: m in a ==> b[m].loadSeq == a[m].loadSeq && a[m].loadSeq < b[n].loadSeq
    ensures Lists(b, q + [n])
  {
  }

  lemma ListsRemoved(a: map<Name, Entry>, b: map<Name, Entry>, q: seq<Name>, n: Name)
    requires Lists(a, q) && b.Keys == a.Keys - {n} && forall m :: m in b ==> b[m].loadSeq == a[m].loadSeq
    ensures Lists(b, Without(q, n))
  {
    WithoutAscends(a, q, n);
    WithoutMembers(q, n);
    var r := Without(q, n);
    forall i | 0 <= i < |r| ensures r[i] in b { assert r[i] in r; }
  }

  lemma ShutdownEmpties(s: State)
    requires s.lifeCancelled
    ensures Apply(s, StopEverything).loaded == map[]
  {
    StopAllRemoves(s, Lifo(s.loaded));
  }

  lemma {:induction false} RunLists(cfg: Config, disk: Disk, run: seq<Label>)
    requires Legal(Init(cfg, disk), run)
    ensures Lists(After(Init(cfg, disk), run).loaded, LoadOrder(Init(cfg, disk), run))
    decreases |run|
  {
    hide Apply;
    if run != [] {
      var k := |run| - 1;
      RunLists(cfg, disk, run[..k]);
      RunInv(cfg, disk, run[..k]);
      StepLists(After(Init(cfg, disk), run[..k]), run[k], LoadOrder(Init(cfg, disk), run[..k]));
    }
  }

  // ---- the order of stopping ----

  function Reversed(q: seq<Name>): (r: seq<Name>)
    ensures |r| == |q| && forall i :: 0 <= i < |q| ==> r[i] == q[|q| - 1 - i]
  {
    if q == [] then [] else Reversed(q[1..]) + [q[0]]
  }

  /** With distinct load numbers there is only one order `shutdown` can sort into. */
  lemma {:induction false} LifoUnique(loaded: map<Name, Entry>, a: seq<Name>, b: seq<Name>)
    requires IsLifo(loaded, a) && IsLifo(loaded, b)
    requires forall n, m :: n in loaded && m in loaded && n != m ==> loaded[n].loadSeq != loaded[m].loadSeq
    ensures a == b
    decreases |a|
  {
    if a == [] {
      HeadIsMember(b);
    } else {
      SameHead(loaded, a, b);
      var rest := loaded - {a[0]};
      TailIsLifo(loaded, a);
      LifoUnique(rest, a[1..], b[1..]);
      assert a == [a[0]] + a[1..] && b == [b[0]] + b[1..];
    }
  }

  lemma HeadIsMember(q: seq<Name>)
    ensures q != [] ==> q[0] in q
  {
  }

  lemma SameHead(loaded: map<Name, Entry>, a: seq<Name>, b: seq<Name>)
    requires IsLifo(loaded, a) && IsLifo(loaded, b) && a != []
    requires forall n, m :: n in loaded && m in loaded && n != m ==> loaded[n].loadSeq != loaded[m].loadSeq
    ensures b != [] && a[0] == b[0]
  {
    assert a[0] in loaded && a[0] in b;
    assert b[0] in loaded && b[0] in a;
    HeadIsNewest(loaded, a, b[0]);
    HeadIsNewest(loaded, b, a[0]);
  }

  lemma HeadIsNewest(loaded: map<Name, Entry>, a: seq<Name>, n: Name)
    requires IsLifo(loaded, a) && n in a
    ensures a[0] in loaded && n in loaded && loaded[n].loadSeq <= loaded[a[0]].loadSeq
  {
    var i :| 0 <= i < |a| && a[i] == n;
    assert a[0] in a;
  }

  lemma TailIsLifo(loaded: map<Name, Entry>, a: seq<Name>)
    requires IsLifo(loaded, a) && a != []
    ensures IsLifo(loaded - {a[0]}, a[1..])
  {
  }

  lemma ReverseIsLifo(s: State, q: seq<Name>)
    requires Lists(s.loaded, q)
    ensures IsLifo(s.loaded, Reversed(q))
  {
    var r := Reversed(q);
    forall n ensures n in r <==> n in s.loaded {
      if n in q {
        var i :| 0 <= i < |q| && q[i] == n;
        assert r[|q| - 1 - i] == n;
      }
    }
  }

  /** What stopping these modules in turn publishes. */
  function StopEvents(order: seq<Name>): seq<Event>
  {
    if order == [] then []
    else [StateChanged(order[0], Stopping, false), StateChanged(order[0], Stopped, false)] + StopEvents(order[1..])
  }

  lemma {:induction false} StopAllEvents(s: State, order: seq<Name>)
    requires (forall n :: n in order ==> n in s.loaded)
    requires forall i, j :: 0 <= i < j < |order| ==> order[i] != order[j]
    ensures StopAll(s, order).events == s.events + StopEvents(order)
    decreases |order|
  {
    if order != [] {
      var s1 := StopLocked(s, order[0]);
      var own := [StateChanged(order[0], Stopping, false), StateChanged(order[0], Stopped, false)];
      assert s1.events == s.events + own && s1.loaded == s.loaded - {order[0]};
      hide StopLocked;
      assert order[0] !in order[1..];
      StopAllEvents(s1, order[1..]);
      assert s.events + own + StopEvents(order[1..]) == s.events + (own + StopEvents(order[1..]));
    }
  }

  /** The instance is the one its name is loaded with. */
  predicate Stored(s: State, i: nat)
    requires i < |s.instances|
  {
    s.instances[i].name in s.loaded && s.loaded[s.instances[i].name].instance == i
  }

  /** Stopping several modules stops the instance of each once, and no other instance. */
  lemma {:induction false} StopAllHalts(s: State, order: seq<Name>, i: nat)
    requires Entries(s) && i < |s.instances|
    requires forall j, k :: 0 <= j < k < |order| ==> order[j] != order[k]
    ensures |StopAll(s, order).instances| == |s.instances|
    ensures StopAll(s, order).instances[i] ==
      if s.instances[i].name in order && Stored(s, i) then Halted(s.instances[i]) else s.instances[i]
    decreases |order|
  {
    if order != [] {
      var s1 := StopLocked(s, order[0]);
      StopEntries(s, order[0], i);
      hide StopLocked, Entries;
      assert order[0] !in order[1..] && forall n :: n in order <==> n == order[0] || n in order[1..];
      StopAllHalts(s1, order[1..], i);
    }
  }

  lemma StopEntries(s: State, n: Name, i: nat)
    requires Entries(s) && i < |s.instances|
    ensures var s1 := StopLocked(s, n);
      && Entries(s1) && |s1.instances| == |s.instances| && s1.instances[i].name == s.instances[i].name
      && s1.instances[i] ==
           (if s.instances[i].name == n && Stored(s, i) then Halted(s.instances[i]) else s.instances[i])
      && (s.instances[i].name != n ==> (Stored(s1, i) <==> Stored(s, i)))
      && (s.instances[i].name == n ==> !Stored(s1, i))
  {
    StopEntriesKept(s, n);
    hide Entries;
    if n in s.loaded { HolderOf(s, n); }
  }

  lemma HolderOf(s: State, n: Name)
    requires Entries(s) && n in s.loaded
    ensures s.loaded[n].instance < |s.instances| && s.instances[s.loaded[n].instance].name == n
  {
    assert SoundEntry(s, n, s.loaded[n]);
  }

  lemma StopEntriesKept(s: State, n: Name)
    requires Entries(s)
    ensures Entries(StopLocked(s, n))
  {
    var s1 := StopLocked(s, n);
    if n in s.loaded { HolderOf(s, n); }
    forall m | m in s1.loaded ensures SoundEntry(s1, m, s1.loaded[m]) { assert SoundEntry(s, m, s.loaded[m]); }
  }

  /** In every run, shutdown stops every loaded module, each instance once, and in exact reverse
      order of successful load; afterwards nothing is loaded. */
  lemma ShutdownIsLifo(cfg: Config, disk: Disk, run: seq<Label>)
    requires Legal(Init(cfg, disk), run) && After(Init(cfg, disk), run).lifeCancelled
    ensures var s := After(Init(cfg, disk), run); var s' := Apply(s, StopEverything);
      && s'.loaded == map[]
      && s'.events == s.events + StopEvents(Reversed(LoadOrder(Init(cfg, disk), run)))
      && |s'.instances| == |s.instances|
      && (forall i :: 0 <= i < |s.instances| ==>
            s'.instances[i] == if Stored(s, i) then Halted(s.instances[i]) else s.instances[i])
  {
    hide Apply, Inv, Entries, IsLifo, Lists, StopAll;
    var s := After(Init(cfg, disk), run);
    var order := Reversed(LoadOrder(Init(cfg, disk), run));
    RunInv(cfg, disk, run);
    RunLists(cfg, disk, run);
    OnlyOrder(s, LoadOrder(Init(cfg, disk), run));
    ShutdownEmpties(s);
    LifoEvents(s, order);
    AllHalted(s, order);
  }

  lemma OnlyOrder(s: State, q: seq<Name>)
    requires Inv(s) && Lists(s.loaded, q) && s.lifeCancelled
    ensures Entries(s) && IsLifo(s.loaded, Reversed(q))
    ensures Apply(s, StopEverything) == StopAll(s, Reversed(q))
  {
    ReverseIsLifo(s, q);
    LifoUnique(s.loaded, Lifo(s.loaded), Reversed(q));
  }

  lemma LifoEvents(s: State, order: seq<Name>)
    requires IsLifo(s.loaded, order)
    ensures StopAll(s, order).events == s.events + StopEvents(order)
  {
    StopAllEvents(s, order);
  }

  lemma AllHalted(s: State, order: seq<Name>)
    requires Entries(s) && IsLifo(s.loaded, order)
    ensures var s' := StopAll(s, order);
      && |s'.instances| == |s.instances|
      && (forall i :: 0 <= i < |s.instances| ==>
            s'.instances[i] == if Stored(s, i) then Halted(s.instances[i]) else s.instances[i])
  {
    hide StopAll, Entries;
    StopAllLength(s, order);
    forall i | 0 <= i < |s.instances|
      ensures StopAll(s, order).instances[i] == if Stored(s, i) then Halted(s.instances[i]) else s.instances[i]
    {
      StopAllHalts(s, order, i);
    }
  }

  lemma {:induction false} StopAllLength(s: State, order: seq<Name>)
    ensures |StopAll(s, order).instances| == |s.instances|
    decreases |order|
  {
    if order != [] { StopAllLength(StopLocked(s, order[0]), order[1..]); }
  }

  /** After shutdown no pending probe, report or restart puts anything back: the map stays empty in
      every continuation that does not load a module. */
  lemma {:induction false} NothingComesBack(s: State, run: seq<Label>)
    requires Inv(s) && s.loaded == map[] && Legal(s, run)
    requires forall i :: 0 <= i < |run| ==> !run[i].Load?
    ensures After(s, run).loaded == map[]
    decreases |run|
  {
    hide Apply;
    if run != [] {
      var k := |run| - 1;
      NothingComesBack(s, run[..k]);
      forall n ensures n !in After(s, run).loaded { StaysOut(After(s, run[..k]), run[k], n); }
    }
  }
}
