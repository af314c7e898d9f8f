/** A module whose restarts keep failing: exactly when it is parked, and after how much backoff.

    A failed restart leaves the old entry in place, with the old start time. So every failure in a
    row is measured against the same start, and once the stability window has passed since then each
    report clears the budget again. Such a module is retried for ever instead of being parked. */
module SupervisorParking {
  import opened SupervisorModel
  import opened SupervisorInvariants
  import opened SupervisorSituations
  import opened SupervisorTimes
  import opened SupervisorBudget
  import Backoff

  /** `n` is never unloaded and none of its restarts succeeds. */
  ghost predicate StaysDown(s0: State, run: seq<Label>, n: Name)
    requires Legal(s0, run)
    decreases |run|
  {
    run == [] ||
    (var k := |run| - 1;
     && StaysDown(s0, run[..k], n)
     && !(run[k].Unload? && run[k].name == n)
     && !RestartsOk(After(s0, run[..k]), run[k], n))
  }

  /** When the failures of `n` were reported. */
  ghost function FailTimes(s0: State, run: seq<Label>, n: Name): seq<nat>
    requires Legal(s0, run)
    decreases |run|
  {
    if run == [] then []
    else
      var k := |run| - 1;
      var s := After(s0, run[..k]);
      FailTimes(s0, run[..k], n) + if FailureOf(s, run[k], n) then [s.now] else []
  }

  /** The backoff delays of the restarts that were scheduled for `n`. */
  ghost function Delays(s0: State, run: seq<Label>, n: Name): seq<nat>
    requires Legal(s0, run)
    decreases |run|
  {
    if run == [] then []
    else
      var k := |run| - 1;
      var s := After(s0, run[..k]);
      Delays(s0, run[..k], n)
      + if FailureOf(s, run[k], n) && Carried(s, s.loaded[n]) + 1 < s.cfg.maxRestarts then [run[k].delay] else []
  }

  // ---- the failures alone decide ----

  datatype Tally = Tally(attempt: nat, parked: bool)

  /** Counting failures against one start time. */
  function Count(cfg: Config, initial: nat, started: nat, times: seq<nat>): Tally
  {
    if times == [] then Tally(initial, false)
    else
      var t := Count(cfg, initial, started, times[..|times| - 1]);
      if t.parked then t
      else
        var carried := if times[|times| - 1] - started >= cfg.window then 0 else t.attempt;
        Tally(carried + 1, carried + 1 >= cfg.maxRestarts)
  }

  ghost predicate Ascending(times: seq<nat>)
  {
    forall i, j :: 0 <= i <= j < |times| ==> times[i] <= times[j]
  }

  lemma {:induction false} CountInWindow(cfg: Config, initial: nat, started: nat, times: seq<nat>)
    requires initial + |times| < cfg.maxRestarts
    requires forall i :: 0 <= i < |times| ==> times[i] - started < cfg.window
    ensures Count(cfg, initial, started, times) == Tally(initial + |times|, false)
    decreases |times|
  {
    if times != [] { CountInWindow(cfg, initial, started, times[..|times| - 1]); }
  }

  /** Past the window the count never gets beyond one. */
  lemma {:induction false} CountExpired(cfg: Config, initial: nat, started: nat, times: seq<nat>, k: nat)
    requires cfg.maxRestarts >= 2 && k < |times| && Ascending(times) && times[k] - started >= cfg.window
    requires !Count(cfg, initial, started, times[..k]).parked
    ensures Count(cfg, initial, started, times) == Tally(1, false)
    decreases |times|
  {
    var m := |times| - 1;
    if k < m {
      assert times[..m][..k] == times[..k];
      CountExpired(cfg, initial, started, times[..m], k);
    }
  }

  lemma {:induction false} ParkedSticks(cfg: Config, initial: nat, started: nat, times: seq<nat>, k: nat)
    requires k <= |times| && Count(cfg, initial, started, times[..k]).parked
    ensures Count(cfg, initial, started, times).parked
    decreases |times|
  {
    if k < |times| {
      var m := |times| - 1;
      assert times[..m][..k] == times[..k];
      ParkedSticks(cfg, initial, started, times[..m], k);
    } else {
      assert times[..k] == times;
    }
  }

  /** The failures park the module if and only if there are enough of them to use up the budget and,
      unless the first failure does that alone, the one that does still falls inside the window. */
  ghost predicate Exhausts(cfg: Config, initial: nat, started: nat, times: seq<nat>)
    requires initial < cfg.maxRestarts
  {
    var last := cfg.maxRestarts - initial - 1;
    last < |times| && (cfg.maxRestarts == 1 || times[last] - started < cfg.window)
  }

  lemma {:induction false} ParkedIffExhausted(cfg: Config, initial: nat, started: nat, times: seq<nat>)
    requires initial < cfg.maxRestarts && Ascending(times)
    ensures Count(cfg, initial, started, times).parked <==> Exhausts(cfg, initial, started, times)
  {
    var last := cfg.maxRestarts - initial - 1;
    if last >= |times| {
      NotEnough(cfg, initial, started, times);
    } else {
      assert times[..last + 1][..last] == times[..last];
      if cfg.maxRestarts == 1 {
        ParkedSticks(cfg, initial, started, times, last + 1);
      } else if times[last] - started < cfg.window {
        CountInWindow(cfg, initial, started, times[..last]);
        ParkedSticks(cfg, initial, started, times, last + 1);
      } else {
        NotEnough(cfg, initial, started, times[..last]);
        CountExpired(cfg, initial, started, times, last);
      }
    }
  }

  lemma {:induction false} NotEnough(cfg: Config, initial: nat, started: nat, times: seq<nat>)
    requires initial + |times| < cfg.maxRestarts
    ensures var t := Count(cfg, initial, started, times); !t.parked && t.attempt <= initial + |times|
    decreases |times|
  {
    if times != [] { NotEnough(cfg, initial, started, times[..|times| - 1]); }
  }

  // ---- and the supervisor counts like that ----

  ghost predicate Failing(s0: State, run: seq<Label>, n: Name)
  {
    && Inv(s0) && Situated(s0) && s0.cfg.maxRestarts >= 1
    && Legal(s0, run) && QuietRun(s0, run) && !After(s0, run).lifeCancelled
    && n in s0.loaded && s0.loaded[n].state != Failed && StaysDown(s0, run, n)
  }

  /** A module in one of the three situations that is not failed has some of its budget left. */
  lemma BudgetLeft(s: State, n: Name)
    requires Situated(s) && n in s.loaded && s.loaded[n].state != Failed
    ensures s.loaded[n].restartAttempt < s.cfg.maxRestarts
  {
    assert InHand(s, n);
  }

  lemma FailingPrefix(s0: State, run: seq<Label>, n: Name)
    requires Failing(s0, run, n) && run != []
    ensures Failing(s0, run[..|run| - 1], n)
    ensures var s := After(s0, run[..|run| - 1]); var l := run[|run| - 1];
      && Inv(s) && Situated(s) && s.cfg == s0.cfg && !l.StopEverything?
      && !(l.Unload? && l.name == n) && !RestartsOk(s, l, n)
  {
    hide Apply, Inv, Situated, Possibly, RestartsOk;
    var k := |run| - 1;
    var s := After(s0, run[..k]);
    LifeOnlyCancelled(s, run[k]);
    RunKeeps(s0, run[..k]);
    RunSituated(s0, run[..k]);
    StepSituated(s, run[k]);
  }

  /** The entry of `n` in `s` agrees with counting these failures since `s0`. */
  ghost predicate Counted(s0: State, s: State, n: Name, times: seq<nat>)
  {
    && n in s0.loaded && n in s.loaded && s.loaded[n].startedAt == s0.loaded[n].startedAt && s.cfg == s0.cfg
    && Ascending(times) && (forall i :: 0 <= i < |times| ==> times[i] <= s.now)
    && Count(s0.cfg, s0.loaded[n].restartAttempt, s0.loaded[n].startedAt, times)
         == Tally(s.loaded[n].restartAttempt, s.loaded[n].state == Failed)
  }

  lemma CountedFailure(s0: State, s: State, s': State, n: Name, times: seq<nat>)
    requires Counted(s0, s, n, times) && s.loaded[n].state != Failed
    requires s'.now >= s.now && s'.cfg == s.cfg && n in s'.loaded && s'.loaded[n].startedAt == s.loaded[n].startedAt
    requires s'.loaded[n].restartAttempt == Carried(s, s.loaded[n]) + 1
    requires s'.loaded[n].state == Failed <==> Carried(s, s.loaded[n]) + 1 >= s.cfg.maxRestarts
    ensures Counted(s0, s', n, times + [s.now])
  {
    assert (times + [s.now])[..|times|] == times;
  }

  lemma CountedOther(s0: State, s: State, s': State, n: Name, times: seq<nat>)
    requires Counted(s0, s, n, times)
    requires s'.now >= s.now && s'.cfg == s.cfg && n in s'.loaded && s'.loaded[n].startedAt == s.loaded[n].startedAt
    requires s'.loaded[n].restartAttempt == s.loaded[n].restartAttempt
    requires s'.loaded[n].state == Failed <==> s.loaded[n].state == Failed
    ensures Counted(s0, s', n, times)
  {
  }

  lemma CountedNone(s: State, n: Name)
    requires n in s.loaded && s.loaded[n].state != Failed
    ensures Counted(s, s, n, [])
  {
  }

  /** The entry's budget, and whether it is failed, are what counting the failures says. */
  lemma {:induction false} CountsFailures(s0: State, run: seq<Label>, n: Name)
    requires Failing(s0, run, n)
    ensures Counted(s0, After(s0, run), n, FailTimes(s0, run, n))
    decreases |run|
  {
    hide Apply, Inv, Situated, Possibly, QuietRun, StaysDown, RestartsOk, Schedules, Carried, Counted;
    if run == [] {
      CountedNone(s0, n);
    } else {
      var k := |run| - 1;
      FailingPrefix(s0, run, n);
      CountsFailures(s0, run[..k], n);
      var s, times := After(s0, run[..k]), FailTimes(s0, run[..k], n);
      CountedLoaded(s0, s, n, times);
      StepEntry(s, run[k], n);
      if FailureOf(s, run[k], n) {
        CountedFailure(s0, s, After(s0, run), n, times);
      } else {
        CountedOther(s0, s, After(s0, run), n, times);
        assert FailTimes(s0, run, n) == times;
      }
    }
  }

  lemma CountedLoaded(s0: State, s: State, n: Name, times: seq<nat>)
    requires Counted(s0, s, n, times)
    ensures n in s.loaded
  {
  }

  /** A module whose restarts all fail ends up parked if and only if the failure that uses up its
      budget is reported within the stability window of its last successful start. */
  lemma ParkedExactlyWhen(s0: State, run: seq<Label>, n: Name)
    requires Failing(s0, run, n)
    ensures n in After(s0, run).loaded && s0.loaded[n].restartAttempt < s0.cfg.maxRestarts
    ensures After(s0, run).loaded[n].state == Failed
      <==> Exhausts(s0.cfg, s0.loaded[n].restartAttempt, s0.loaded[n].startedAt, FailTimes(s0, run, n))
  {
    BudgetLeft(s0, n);
    CountsFailures(s0, run, n);
    ParkedIffExhausted(s0.cfg, s0.loaded[n].restartAttempt, s0.loaded[n].startedAt, FailTimes(s0, run, n));
  }

  /** In particular a module that failed only after the window had passed is never parked, however
      often its restart fails; its count stays at one. */
  lemma NeverParkedAfterWindow(s0: State, run: seq<Label>, n: Name)
    requires Failing(s0, run, n) && s0.cfg.maxRestarts >= 2
    requires var times := FailTimes(s0, run, n);
      times != [] && times[0] - s0.loaded[n].startedAt >= s0.cfg.window
    ensures n in After(s0, run).loaded
    ensures After(s0, run).loaded[n].state != Failed && After(s0, run).loaded[n].restartAttempt == 1
  {
    CountsFailures(s0, run, n);
    var times := FailTimes(s0, run, n);
    CountExpired(s0.cfg, s0.loaded[n].restartAttempt, s0.loaded[n].startedAt, times, 0);
  }

  // ---- how much backoff that takes ----

  lemma {:induction false} BaseGrows(a: nat, b: nat)
    requires a <= b
    ensures Backoff.Base(a) <= Backoff.Base(b)
    decreases b
  {
    if a < b { BaseGrows(a, b - 1); }
  }

  /** Starting from a fresh budget, the waits up to the k-th restart are at most 5% above the first k
      steps of the schedule, and a restart was scheduled for every failure but the parking one. */
  lemma {:induction false} BackoffBounded(s0: State, run: seq<Label>, n: Name)
    requires Failing(s0, run, n) && s0.loaded[n].restartAttempt == 0
    ensures n in After(s0, run).loaded
    ensures 100 * Backoff.Total(Delays(s0, run, n)) <= 105 * Backoff.TotalBase(|Delays(s0, run, n)|)
    ensures |FailTimes(s0, run, n)| == |Delays(s0, run, n)| + if After(s0, run).loaded[n].state == Failed then 1 else 0
    ensures After(s0, run).loaded[n].restartAttempt <= |FailTimes(s0, run, n)|
    decreases |run|
  {
    hide Apply, Inv, Situated, Possibly, QuietRun, RestartsOk, Schedules, StaysDown, Backoff.Total, Backoff.TotalBase;
    if run == [] {
      assert Backoff.TotalBase(0) == 0 && Backoff.Total([]) == 0 by { Backoff.NoDelays(); }
    } else {
      var k := |run| - 1;
      FailingPrefix(s0, run, n);
      BackoffBounded(s0, run[..k], n);
      var s := After(s0, run[..k]);
      StepEntry(s, run[k], n);
      if FailureOf(s, run[k], n) {
        var before := Delays(s0, run[..k], n);
        BackoffStep(s, run[k], n, before);
        var grows := Carried(s, s.loaded[n]) + 1 < s.cfg.maxRestarts;
        assert Delays(s0, run, n) == if grows then before + [run[k].delay] else before;
      } else {
        assert FailTimes(s0, run, n) == FailTimes(s0, run[..k], n);
        assert Delays(s0, run, n) == Delays(s0, run[..k], n);
      }
    }
  }

  lemma BackoffStep(s: State, l: Label, n: Name, delays: seq<nat>)
    requires Possibly(s, l) && FailureOf(s, l, n) && s.loaded[n].restartAttempt <= |delays|
    requires 100 * Backoff.Total(delays) <= 105 * Backoff.TotalBase(|delays|)
    ensures Carried(s, s.loaded[n]) + 1 < s.cfg.maxRestarts ==>
      100 * Backoff.Total(delays + [l.delay]) <= 105 * Backoff.TotalBase(|delays| + 1)
  {
    hide Backoff.RandomDelay, Backoff.Base, Backoff.Total, Backoff.TotalBase;
    if Carried(s, s.loaded[n]) + 1 < s.cfg.maxRestarts {
      Backoff.RandomDelayBounds(Carried(s, s.loaded[n]), l.delay);
      BaseGrows(Carried(s, s.loaded[n]), |delays|);
      TotalGrows(delays, l.delay);
    }
  }

  lemma TotalGrows(delays: seq<nat>, delay: nat)
    requires 100 * Backoff.Total(delays) <= 105 * Backoff.TotalBase(|delays|)
    requires 100 * delay <= 105 * Backoff.Base(|delays|)
    ensures 100 * Backoff.Total(delays + [delay]) <= 105 * Backoff.TotalBase(|delays| + 1)
  {
    hide Backoff.Base;
    assert (delays + [delay])[..|delays|] == delays;
  }

  /** Parking takes exactly as many failures as the budget has left. */
  lemma {:induction false} ParkedFailures(s0: State, run: seq<Label>, n: Name)
    requires Failing(s0, run, n)
    ensures n in After(s0, run).loaded
    ensures After(s0, run).loaded[n].state == Failed ==>
      |FailTimes(s0, run, n)| == s0.cfg.maxRestarts - s0.loaded[n].restartAttempt
    decreases |run|
  {
    hide Apply, Inv, Situated, Possibly, QuietRun, RestartsOk, Count;
    BudgetLeft(s0, n);
    CountsFailures(s0, run, n);
    if run != [] {
      var k := |run| - 1;
      FailingPrefix(s0, run, n);
      ParkedFailures(s0, run[..k], n);
      CountsFailures(s0, run[..k], n);
      StepEntry(After(s0, run[..k]), run[k], n);
      var times := FailTimes(s0, run, n);
      if FailureOf(After(s0, run[..k]), run[k], n) {
        assert times[..|times| - 1] == FailTimes(s0, run[..k], n);
        LastExhausts(s0.cfg, s0.loaded[n].restartAttempt, s0.loaded[n].startedAt, times);
      } else {
        assert times == FailTimes(s0, run[..k], n);
      }
    }
  }

  /** The failure that parks is the one that uses up the budget. */
  lemma LastExhausts(cfg: Config, initial: nat, started: nat, times: seq<nat>)
    requires initial < cfg.maxRestarts && Ascending(times) && times != []
    ensures Count(cfg, initial, started, times).parked && !Count(cfg, initial, started, times[..|times| - 1]).parked
      ==> |times| == cfg.maxRestarts - initial
  {
    hide Count;
    ParkedIffExhausted(cfg, initial, started, times);
    ParkedIffExhausted(cfg, initial, started, times[..|times| - 1]);
  }

  /** As long as the budget was not cleared, the delays are those of attempts 0, 1, 2 and so on. */
  lemma {:induction false} Escalates(s0: State, run: seq<Label>, n: Name)
    requires Failing(s0, run, n) && s0.loaded[n].restartAttempt == 0
    ensures n in After(s0, run).loaded
    ensures After(s0, run).loaded[n].restartAttempt == |FailTimes(s0, run, n)| ==>
      Backoff.Escalating(Delays(s0, run, n))
    decreases |run|
  {
    hide Apply, Inv, Situated, Possibly, QuietRun, RestartsOk, Backoff.RandomDelay;
    if run != [] {
      var k := |run| - 1;
      var s := After(s0, run[..k]);
      FailingPrefix(s0, run, n);
      Escalates(s0, run[..k], n);
      BackoffBounded(s0, run[..k], n);
      StepEntry(s, run[k], n);
      if FailureOf(s, run[k], n) {
        DrawnDelay(s, run[k], n);
      } else {
        assert FailTimes(s0, run, n) == FailTimes(s0, run[..k], n);
        assert Delays(s0, run, n) == Delays(s0, run[..k], n);
      }
    }
  }

  lemma DrawnDelay(s: State, l: Label, n: Name)
    requires Possibly(s, l) && FailureOf(s, l, n)
    ensures Carried(s, s.loaded[n]) + 1 < s.cfg.maxRestarts ==> Backoff.RandomDelay(Carried(s, s.loaded[n]), l.delay)
  {
    hide Backoff.RandomDelay;
  }

  /** A module that is parked after failing from a fresh budget had one restart fewer than the budget,
      with escalating delays; in all it waited at most 1.05 times the schedule of that many attempts,
      and at most 1.575 s under the default budget. */
  lemma ParkedBackoff(s0: State, run: seq<Label>, n: Name)
    requires Failing(s0, run, n) && s0.loaded[n].restartAttempt == 0
    requires n in After(s0, run).loaded && After(s0, run).loaded[n].state == Failed
    ensures var delays := Delays(s0, run, n);
      && |delays| == s0.cfg.maxRestarts - 1 && Backoff.Escalating(delays)
      && 100 * Backoff.Total(delays) <= 105 * Backoff.TotalBase(s0.cfg.maxRestarts - 1)
      && (s0.cfg.maxRestarts == Backoff.MAX_RESTARTS ==> Backoff.Total(delays) <= 1_575_000_000)
  {
    hide Apply, Inv, Situated, Possibly, QuietRun, RestartsOk, Count, Delays, FailTimes, StaysDown, Legal, After;
    hide Backoff.Escalating, Backoff.Total, Backoff.TotalBase;
    ParkedFailures(s0, run, n);
    BackoffBounded(s0, run, n);
    CountsFailures(s0, run, n);
    ParkedCounts(s0.cfg, 0, s0.loaded[n].startedAt, FailTimes(s0, run, n));
    Escalates(s0, run, n);
    Backoff.TotalBound(Delays(s0, run, n));
    if s0.cfg.maxRestarts == Backoff.MAX_RESTARTS { Backoff.DefaultTotal(Delays(s0, run, n)); }
  }

  /** A parked count has reached the budget. */
  lemma {:induction false} ParkedCounts(cfg: Config, initial: nat, started: nat, times: seq<nat>)
    requires Count(cfg, initial, started, times).parked
    ensures Count(cfg, initial, started, times).attempt >= cfg.maxRestarts
    decreases |times|
  {
    if times != [] && Count(cfg, initial, started, times[..|times| - 1]).parked {
      ParkedCounts(cfg, initial, started, times[..|times| - 1]);
    }
  }

  /** If the time since the last successful start that is not spent in backoff, plus 1.05 times the
      schedule's first `maxRestarts - 1` waits, stays under the window, then the budget cannot be
      cleared in between and the module is parked by its `maxRestarts`-th failure. */
  lemma ParksInTime(s0: State, run: seq<Label>, n: Name)
    requires Failing(s0, run, n) && s0.loaded[n].restartAttempt == 0
    requires |FailTimes(s0, run, n)| == s0.cfg.maxRestarts
    requires FailureOf(After(s0, run[..|run| - 1]), run[|run| - 1], n)
    requires var elapsed := After(s0, run[..|run| - 1]).now - s0.loaded[n].startedAt;
      var waited := Backoff.Total(Delays(s0, run[..|run| - 1], n));
      100 * (elapsed - waited) + 105 * Backoff.TotalBase(s0.cfg.maxRestarts - 1) < 100 * s0.cfg.window
    ensures n in After(s0, run).loaded && After(s0, run).loaded[n].state == Failed
  {
    hide Apply, Inv, Situated, Possibly, QuietRun, RestartsOk;
    var k := |run| - 1;
    FailingPrefix(s0, run, n);
    BackoffBounded(s0, run[..k], n);
    ParkedExactlyWhen(s0, run, n);
  }
}
