/** The persisted enabled-set, and what a restarted daemon loads from it. */
module SupervisorEnabled {
  import opened SupervisorModel
  import opened SupervisorTasks
  import opened SupervisorShutdown

  /** The enabled-set grows only by a load that starts a module and shrinks only by the unload of a
      loaded one; otherwise only a boot that adopts what it has read replaces it. */
  lemma EnabledChanges(s: State, l: Label)
    requires Possibly(s, l)
    ensures Apply(s, l).persisted ==
      if l.Load? && Starts(s, l, l.name) then s.persisted + {l.name}
      else if l.Unload? && l.name in s.loaded then s.persisted - {l.name}
      else if l.AdoptEnabled? then s.boots[l.boot]
      else s.persisted
    ensures Apply(s, l).disk ==
      if ((l.Load? && Starts(s, l, l.name)) || (l.Unload? && l.name in s.loaded)) && l.saved
      then Enabled(Apply(s, l).persisted) else s.disk
    ensures !l.ReadEnabled? && !l.AdoptEnabled? ==> Apply(s, l).boots == s.boots
  {
    hide DoLoad, DoProbe, DoFire, DoReportFailed, StopAll;
    if l.StopEverything? {
      StopAllPersists(s, Lifo(s.loaded));
    } else if l.Load? {
      LoadNames(s, l.name, l.outcome, l.saved);
    } else if !l.Unload? && !l.ReadEnabled? && !l.AdoptEnabled? {
      TurnNames(s, l);
    }
  }

  lemma {:induction false} StopAllPersists(s: State, order: seq<Name>)
    ensures var s' := StopAll(s, order); s'.persisted == s.persisted && s'.disk == s.disk && s'.boots == s.boots
    decreases |order|
  {
    if order != [] { StopAllPersists(StopLocked(s, order[0]), order[1..]); }
  }

  ghost predicate Covered(s: State)
  {
    s.loaded.Keys <= s.persisted
  }

  /** What a boot adopts, read before it took the lock, covers what is loaded by now. */
  ghost predicate SafeBoot(s: State, l: Label)
  {
    l.AdoptEnabled? && l.boot < |s.boots| ==> s.loaded.Keys <= s.boots[l.boot]
  }

  /** That is exactly the condition under which a step keeps every loaded name enabled. */
  lemma CoveredIffSafeBoot(s: State, l: Label)
    requires Covered(s) && Possibly(s, l)
    ensures Covered(Apply(s, l)) <==> SafeBoot(s, l)
  {
    hide DoLoad, DoUnload, DoProbe, DoFire, DoReportFailed, StopAll;
    EnabledChanges(s, l);
    if l.StopEverything? {
      StopAllRemoves(s, Lifo(s.loaded));
    } else {
      StepNames(s, l);
    }
  }

  ghost predicate SafeBoots(s0: State, run: seq<Label>)
    requires Legal(s0, run)
    decreases |run|
  {
    run == [] || (SafeBoots(s0, run[..|run| - 1]) && SafeBoot(After(s0, run[..|run| - 1]), run[|run| - 1]))
  }

  /** In every run whose boots are safe, loaded names are enabled. */
  lemma {:induction false} LoadedAreEnabled(cfg: Config, disk: Disk, run: seq<Label>)
    requires Legal(Init(cfg, disk), run) && SafeBoots(Init(cfg, disk), run)
    ensures Covered(After(Init(cfg, disk), run))
    decreases |run|
  {
    hide Apply;
    if run != [] {
      var k := |run| - 1;
      LoadedAreEnabled(cfg, disk, run[..k]);
      CoveredIffSafeBoot(After(Init(cfg, disk), run[..k]), run[k]);
    }
  }

  /** A load between a boot's read and its adoption is dropped from the enabled-set, although the file
      covers what is loaded at the one moment and at the other. */
  lemma RacingLoadDropped(s: State, n: Name)
    requires Possible(s.cfg, n, Success) && n !in s.loaded && n !in DiskSet(s.disk)
    requires Covered(s) && s.persisted == DiskSet(s.disk)
    ensures var read := Apply(s, ReadEnabled); var loaded := Apply(read, Load(n, Success, true));
      && loaded.loaded.Keys <= DiskSet(loaded.disk) && Possibly(loaded, AdoptEnabled(|s.boots|))
      && n in Apply(loaded, AdoptEnabled(|s.boots|)).loaded
      && n !in Apply(loaded, AdoptEnabled(|s.boots|)).persisted
  {
    var read := Apply(s, ReadEnabled);
    LoadNames(read, n, Success, true);
  }

  /** The other race: an unload between the read and the adoption is undone. The name is back in the
      enabled-set though the file no longer holds it, and the boot's own load starts it again. */
  lemma RacingUnloadUndone(s: State, n: Name)
    requires n in s.loaded && n in DiskSet(s.disk) && Possible(s.cfg, n, Success)
    ensures var gone := Apply(Apply(s, ReadEnabled), Unload(n, true));
      && n !in gone.loaded && n !in gone.persisted && n !in DiskSet(gone.disk)
      && Possibly(gone, AdoptEnabled(|s.boots|))
      && var adopted := Apply(gone, AdoptEnabled(|s.boots|));
        && n !in adopted.loaded && n in adopted.persisted
        && n in Apply(adopted, Load(n, Success, true)).loaded
  {
    hide DoLoad, DoProbe, DoFire, DoReportFailed, StopAll;
    var read := Apply(s, ReadEnabled);
    var gone := Apply(read, Unload(n, true));
    var adopted := Apply(gone, AdoptEnabled(|s.boots|));
    LoadNames(adopted, n, Success, true);
  }

  // ---- between the read and the adoption ----

  /** The steps a boot's read and its adoption may have between them: anything but another adoption. */
  ghost predicate Between(s: State, run: seq<Label>)
  {
    Legal(Apply(s, ReadEnabled), run) && forall i :: 0 <= i < |run| ==> !run[i].AdoptEnabled?
  }

  /** A load in between starts a name that the boot has not read. */
  ghost predicate Foreign(s: State, run: seq<Label>, i: nat)
    requires Between(s, run) && i < |run|
  {
    && run[i].Load? && run[i].name !in DiskSet(s.disk) && Legal(Apply(s, ReadEnabled), run[..i])
    && Starts(After(Apply(s, ReadEnabled), run[..i]), run[i], run[i].name)
  }

  /** What was read stays in hand, and without a foreign load it still covers what is loaded. */
  lemma {:induction false} ReadCovers(s: State, run: seq<Label>)
    requires Between(s, run) && s.loaded.Keys <= DiskSet(s.disk)
    ensures var s' := After(Apply(s, ReadEnabled), run);
      && |s.boots| < |s'.boots| && s'.boots[|s.boots|] == DiskSet(s.disk)
      && ((forall i :: 0 <= i < |run| ==> !Foreign(s, run, i)) ==> s'.loaded.Keys <= DiskSet(s.disk))
    decreases |run|
  {
    if run != [] {
      var k := |run| - 1;
      var before := After(Apply(s, ReadEnabled), run[..k]);
      hide DoLoad, DoUnload, DoProbe, DoFire, DoReportFailed, StopAll;
      ReadCovers(s, run[..k]);
      forall i | 0 <= i < k ensures Foreign(s, run[..k], i) <==> Foreign(s, run, i) {
        assert run[..k][..i] == run[..i];
      }
      assert Foreign(s, run, k) <==>
        run[k].Load? && run[k].name !in DiskSet(s.disk) && Starts(before, run[k], run[k].name);
      EnabledChanges(before, run[k]);
      if run[k].StopEverything? {
        StopAllRemoves(before, Lifo(before.loaded));
      } else {
        StepNames(before, run[k]);
      }
    }
  }

  /** With a foreign load, and neither an unload nor a shutdown, it does not. */
  lemma {:induction false} ForeignStays(s: State, run: seq<Label>, i: nat)
    requires Between(s, run) && i < |run| && Foreign(s, run, i)
    requires forall j :: 0 <= j < |run| ==> !run[j].Unload? && !run[j].StopEverything?
    ensures run[i].name in After(Apply(s, ReadEnabled), run).loaded
    decreases |run|
  {
    hide DoLoad, DoUnload, DoProbe, DoFire, DoReportFailed, StopAll;
    var k := |run| - 1;
    StepNames(After(Apply(s, ReadEnabled), run[..k]), run[k]);
    if i < k {
      assert run[..k][..i] == run[..i];
      ForeignStays(s, run[..k], i);
    }
  }

  /** From a read that covers what is loaded, the adoption keeps every loaded name enabled if no load in
      between starts a name the boot has not read; and only then, unless something is unloaded in
      between. */
  lemma AdoptionSafeIff(s: State, run: seq<Label>)
    requires Between(s, run) && s.loaded.Keys <= DiskSet(s.disk)
    ensures var s' := After(Apply(s, ReadEnabled), run); var adopt := AdoptEnabled(|s.boots|);
      && Possibly(s', adopt)
      && ((forall i :: 0 <= i < |run| ==> !Foreign(s, run, i)) ==> Covered(Apply(s', adopt)))
      && ((forall i :: 0 <= i < |run| ==> !run[i].Unload? && !run[i].StopEverything?) ==>
           (Covered(Apply(s', adopt)) <==> forall i :: 0 <= i < |run| ==> !Foreign(s, run, i)))
  {
    hide Foreign, Legal, After, DoLoad, DoUnload, DoProbe, DoFire, DoReportFailed, StopAll;
    var s' := After(Apply(s, ReadEnabled), run);
    ReadCovers(s, run);
    if forall j :: 0 <= j < |run| ==> !run[j].Unload? && !run[j].StopEverything? {
      forall i | 0 <= i < |run| && Foreign(s, run, i)
        ensures !Covered(Apply(s', AdoptEnabled(|s.boots|)))
      {
        ForeignStays(s, run, i);
        ForeignNotRead(s, run, i);
      }
    }
  }

  lemma ForeignNotRead(s: State, run: seq<Label>, i: nat)
    requires Between(s, run) && i < |run| && Foreign(s, run, i)
    ensures run[i].name !in DiskSet(s.disk)
  {
  }

  // ---- across a daemon restart ----

  /** A daemon boots before it serves: it reads the file first and adopts it at step `k`, with no
      load, unload or other boot in between, and never boots again. */
  ghost predicate BootsOnce(run: seq<Label>, k: nat)
  {
    && 0 < k < |run| && run[0].ReadEnabled? && run[k] == AdoptEnabled(0)
    && (forall i :: 0 < i < k ==> !run[i].Load? && !run[i].Unload?)
    && (forall i :: 0 < i < |run| && i != k ==> !run[i].ReadEnabled? && !run[i].AdoptEnabled?)
  }

  /** Until then nothing is loaded and the names read stay in hand. */
  lemma {:induction false} BeforeAdoption(cfg: Config, disk: Disk, run: seq<Label>)
    requires Legal(Init(cfg, disk), run) && run != [] && run[0].ReadEnabled?
    requires forall i :: 0 < i < |run| ==>
      !run[i].Load? && !run[i].Unload? && !run[i].ReadEnabled? && !run[i].AdoptEnabled?
    ensures var s := After(Init(cfg, disk), run);
      s.loaded == map[] && s.disk == disk && s.boots == [DiskSet(disk)]
    decreases |run|
  {
    var k := |run| - 1;
    var s := After(Init(cfg, disk), run[..k]);
    if k == 0 {
      assert s == Init(cfg, disk);
    } else {
      hide Apply;
      BeforeAdoption(cfg, disk, run[..k]);
      EnabledChanges(s, run[k]);
      forall n ensures n !in After(Init(cfg, disk), run).loaded { StaysOut(s, run[k], n); }
    }
  }

  /** A daemon's life: it boots once, and every save after that succeeds. */
  ghost predicate DaemonLife(run: seq<Label>, k: nat)
  {
    && BootsOnce(run, k)
    && (forall i :: k < i < |run| && run[i].Load? ==> run[i].saved)
    && (forall i :: k < i < |run| && run[i].Unload? ==> run[i].saved)
  }

  lemma {:induction false} FileIsCurrent(cfg: Config, disk: Disk, run: seq<Label>, k: nat)
    requires Legal(Init(cfg, disk), run) && DaemonLife(run, k)
    ensures DiskSet(After(Init(cfg, disk), run).disk) == After(Init(cfg, disk), run).persisted
    ensures Covered(After(Init(cfg, disk), run))
    decreases |run|
  {
    hide Apply;
    var m := |run| - 1;
    var s := After(Init(cfg, disk), run[..m]);
    EnabledChanges(s, run[m]);
    if k < m {
      FileIsCurrent(cfg, disk, run[..m], k);
      CoveredIffSafeBoot(s, run[m]);
    } else {
      BeforeAdoption(cfg, disk, run[..m]);
      StepNames(s, run[m]);
    }
  }

  /** The fresh daemon loads some of `names`, all loads succeed, and nothing is unloaded; its
      background tasks may take any turns in between. */
  ghost predicate Restores(run: seq<Label>, k: nat, names: set<Name>)
  {
    && BootsOnce(run, k)
    && (forall i :: k < i < |run| ==> !run[i].Unload? && !run[i].StopEverything?)
    && (forall i :: k < i < |run| && run[i].Load? ==> run[i].name in names && run[i].outcome.Success?)
  }

  ghost predicate Requested(run: seq<Label>, k: nat, n: Name)
  {
    exists i :: k < i < |run| && run[i].Load? && run[i].name == n
  }

  lemma {:induction false} RestoredNames(cfg: Config, disk: Disk, run: seq<Label>, k: nat, names: set<Name>)
    requires Legal(Init(cfg, disk), run) && Restores(run, k, names)
    ensures forall n :: n in After(Init(cfg, disk), run).loaded <==> Requested(run, k, n)
    decreases |run|
  {
    hide Apply;
    var m := |run| - 1;
    var s := After(Init(cfg, disk), run[..m]);
    StepNames(s, run[m]);
    if k < m {
      RestoredNames(cfg, disk, run[..m], k, names);
      forall n { RequestedMore(run, k, n); }
    } else {
      BeforeAdoption(cfg, disk, run[..m]);
    }
  }

  lemma RequestedMore(run: seq<Label>, k: nat, n: Name)
    requires k < |run| - 1
    ensures var m := |run| - 1;
      Requested(run, k, n) <==> Requested(run[..m], k, n) || (run[m].Load? && run[m].name == n)
  {
    var m := |run| - 1;
    if Requested(run[..m], k, n) {
      var i :| k < i < m && run[..m][i].Load? && run[..m][i].name == n;
      assert run[i].Load? && run[i].name == n;
    }
    if Requested(run, k, n) {
      var i :| k < i < |run| && run[i].Load? && run[i].name == n;
      assert i < m ==> run[..m][i] == run[i];
    }
  }

  /** After any life of a daemon and its shutdown, a fresh daemon that loads all it reads back ends up
      with exactly the enabled-set of the old one, which includes everything loaded at shutdown. */
  lemma RestartBringsBack(cfg: Config, disk: Disk, life: seq<Label>, k: nat, cfg': Config, boot: seq<Label>, j: nat)
    requires Legal(Init(cfg, disk), life) && DaemonLife(life, k) && After(Init(cfg, disk), life).lifeCancelled
    requires var down := Apply(After(Init(cfg, disk), life), StopEverything);
      && Legal(Init(cfg', down.disk), boot) && Restores(boot, j, DiskSet(down.disk))
      && forall n :: n in DiskSet(down.disk) ==> Requested(boot, j, n)
    ensures var old' := After(Init(cfg, disk), life);
      var fresh' := After(Init(cfg', Apply(old', StopEverything).disk), boot);
      && fresh'.loaded.Keys == old'.persisted
      && old'.loaded.Keys <= fresh'.loaded.Keys
  {
    hide Apply;
    var s := After(Init(cfg, disk), life);
    FileIsCurrent(cfg, disk, life, k);
    EnabledChanges(s, StopEverything);
    var down := Apply(s, StopEverything);
    RestoredNames(cfg', down.disk, boot, j, DiskSet(down.disk));
    assert forall n :: Requested(boot, j, n) ==> n in DiskSet(down.disk);
  }
}
