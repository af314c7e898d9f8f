/** Exponential restart backoff: the delay formula, its jitter bounds and the total wait of a
    run of failing restarts. Times are nanoseconds; the f64 arithmetic is modelled over `real`. */
module Backoff {
  import opened Options

  const INITIAL: nat := 100_000_000
  const MAX: nat := 30_000_000_000
  const MAX_RESTARTS: nat := 5
  const U64_MAX: nat := 0xFFFF_FFFF_FFFF_FFFF

  function Pow2(n: nat): (p: nat)
    ensures p >= 1
  {
    if n == 0 then 1 else 2 * Pow2(n - 1)
  }

  /** Rust's saturating `as u64` cast of a float: truncation toward zero, clamped at both ends. */
  function CastU64(x: real): (n: nat)
    ensures x <= 0.0 ==> n == 0
    ensures 0.0 <= x <= U64_MAX as real ==> x - 1.0 < n as real <= x
    ensures x >= U64_MAX as real ==> n == 0xFFFF_FFFF_FFFF_FFFF
  {
    if x <= 0.0 then 0 else if x >= U64_MAX as real then U64_MAX else x.Floor
  }

  /** The delay before restart `attempt`; `jitter` is the pre-scaled fraction in [0.0, 0.1). */
  function DelayFor(attempt: nat, jitter: Option<real>): nat
  {
    match jitter
    case None => CastU64(Capped(attempt))
    case Some(frac) => CastU64(Scaled(Capped(attempt), frac))
  }

  function Capped(attempt: nat): real
  {
    var raw := INITIAL as real * Pow2(attempt) as real;
    if raw > MAX as real then MAX as real else raw
  }

  function Scaled(delay: real, frac: real): real
  {
    delay * (1.0 + frac - 0.05)
  }

  /** The reference schedule, in whole nanoseconds: 100 ms doubling, never above 30 s. */
  function Base(attempt: nat): nat
  {
    var raw := INITIAL * Pow2(attempt);
    if raw < MAX then raw else MAX
  }

  /** The cap is what every attempt from the tenth on gets, and no earlier one. */
  lemma {:induction false} BaseBounds(attempt: nat)
    ensures 100_000_000 <= Base(attempt) <= 30_000_000_000
    ensures attempt < 9 <==> Base(attempt) < 30_000_000_000
    ensures Base(0) == 100_000_000
    ensures Base(attempt + 1) == if 2 * Base(attempt) < 30_000_000_000 then 2 * Base(attempt) else 30_000_000_000
  {
    if attempt >= 9 {
      Pow2AtLeast(attempt);
    } else {
      assert Pow2(8) == 256 by { assert Pow2(4) == 16; }
      Pow2AtMost(attempt, 8);
    }
  }

  lemma {:induction false} Pow2AtLeast(n: nat)
    requires n >= 9
    ensures Pow2(n) >= 512
  {
    if n == 9 {
    } else {
      Pow2AtLeast(n - 1);
    }
  }

  lemma {:induction false} Pow2AtMost(n: nat, m: nat)
    requires n <= m
    ensures Pow2(n) <= Pow2(m)
    decreases m
  {
    if n < m {
      Pow2AtMost(n, m - 1);
    }
  }

  /** Without jitter the delay is the schedule exactly. */
  lemma UnjitteredDelay(attempt: nat)
    ensures DelayFor(attempt, None) == Base(attempt)
  {
  }

  lemma ScaleBounds(b: real, f: real, x: real)
    requires b >= 0.0 && 0.95 <= f <= 1.05 && x == b * f
    ensures 0.95 * b <= x <= 1.05 * b
  {
  }

  /** Jitter is applied after the cap and moves the delay by at most 5% either way, so a capped
      delay may exceed `MAX`, but never by more than that. */
  lemma JitterBounds(attempt: nat, frac: real)
    requires 0.0 <= frac <= 0.1
    ensures var d := DelayFor(attempt, Some(frac));
      && 95 * Base(attempt) <= 100 * d + 100
      && 100 * d <= 105 * Base(attempt)
      && d > 0
      && d as real <= Base(attempt) as real * (0.95 + frac) < d as real + 1.0
  {
    CastBounds(Base(attempt), frac);
  }

  lemma CastBounds(b: nat, frac: real)
    requires INITIAL <= b <= MAX && 0.0 <= frac <= 0.1
    ensures var d := CastU64(Scaled(b as real, frac));
      95 * b <= 100 * d + 100 && 100 * d <= 105 * b && d > 0
  {
    var r, x := b as real, Scaled(b as real, frac);
    ScaleBounds(r, 1.0 + frac - 0.05, x);
    WholeBounds(b, CastU64(x), x);
  }

  lemma WholeBounds(b: nat, d: nat, x: real)
    requires 0.95 * b as real <= x <= 1.05 * b as real
    requires x - 1.0 < d as real <= x
    ensures 95 * b <= 100 * d + 100 && 100 * d <= 105 * b
  {
  }

  /** A delay the production entry point may return: its jitter is a unit random scaled by 0.1. */
  ghost predicate RandomDelay(attempt: nat, delay: nat)
  {
    exists frac: real :: 0.0 <= frac < 0.1 && delay == DelayFor(attempt, Some(frac))
  }

  /** The production entry point, given the unit random it draws. */
  method DelayForRandom(attempt: nat, unit: real) returns (delay: nat)
    requires 0.0 <= unit < 1.0
    ensures RandomDelay(attempt, delay) && delay == DelayFor(attempt, Some(unit * 0.1))
    ensures 95 * Base(attempt) <= 100 * delay + 100 && 100 * delay <= 105 * Base(attempt)
  {
    var frac := unit * 0.1;
    delay := DelayFor(attempt, Some(frac));
    RandomDelayBounds(attempt, delay);
  }

  lemma RandomDelayBounds(attempt: nat, delay: nat)
    requires RandomDelay(attempt, delay)
    ensures 95 * Base(attempt) <= 100 * delay + 100
    ensures 100 * delay <= 105 * Base(attempt)
    ensures delay > 0
  {
    var frac :| 0.0 <= frac < 0.1 && delay == DelayFor(attempt, Some(frac));
    JitterBounds(attempt, frac);
  }

  /** Total wait over restarts 0, 1, .. with the delays that were drawn for them. */
  function Total(delays: seq<nat>): nat
  {
    if delays == [] then 0 else Total(delays[..|delays| - 1]) + delays[|delays| - 1]
  }

  function TotalBase(n: nat): nat
  {
    if n == 0 then 0 else TotalBase(n - 1) + Base(n - 1)
  }

  lemma NoDelays()
    ensures Total([]) == 0 && TotalBase(0) == 0
  {
  }

  ghost predicate Escalating(delays: seq<nat>)
  {
    forall i :: 0 <= i < |delays| ==> RandomDelay(i, delays[i])
  }

  lemma {:induction false} TotalBound(delays: seq<nat>)
    requires Escalating(delays)
    ensures 100 * Total(delays) <= 105 * TotalBase(|delays|)
  {
    if delays != [] {
      var k := |delays| - 1;
      TotalBound(delays[..k]);
      RandomDelayBounds(k, delays[k]);
    }
  }

  /** With the default budget of five, four restarts are scheduled before the module is parked,
      and they wait at most 1.575 s in all. */
  lemma DefaultTotal(delays: seq<nat>)
    requires |delays| == MAX_RESTARTS - 1 && Escalating(delays)
    ensures Total(delays) <= 1_575_000_000
  {
    TotalBound(delays);
    assert TotalBase(4) == Base(0) + Base(1) + Base(2) + Base(3);
  }
}
