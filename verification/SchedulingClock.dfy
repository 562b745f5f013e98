/**
 * The scheduler's minute grid and the due time after a run
 * (platform/src/scheduling.ts, src/shared/hosted-contract.ts). Times are epoch
 * milliseconds. Everything the platform stores is an integer; a tenant's
 * `nextDueAt` is any finite number customer code can send, hence a real.
 */
module SchedulingClock {
  import opened Common

  const MINUTE_MS: int := 60_000
  const MAX_GAP_MS: int := 12 * 60 * 1000
  const QUEUE_LEASE_MS: int := 3 * 60_000
  const RUN_LEASE_MARGIN_MS: int := 10_000
  const DUE_SLACK_MS: int := 5_000
  const CLAIM_TIME_BUDGET_MS: int := 25_000

  datatype Outcome = Ran | LeaseBusy | Failed

  /** What the platform reads of a tenant's answer; `nextDueAt` is None when absent or not a finite number. */
  datatype Summary = Summary(outcome: Outcome, startedAt: int, nextDueAt: Option<real>)

  function CallTimeoutMs(interval: int): int { if interval <= 60_000 then 40_000 else 90_000 }

  function CurrentTick(at: int): int { (at + DUE_SLACK_MS) / MINUTE_MS * MINUTE_MS }

  function Ceil(x: real): int { -((-x).Floor) }

  function TickFor(at: real): int { Ceil(at / 60_000.0) * MINUTE_MS }

  function MinReal(a: real, b: real): real { if a <= b then a else b }

  function NextScheduledCall(summary: Option<Summary>, now: int): real {
    if summary.None? || summary.value.outcome != Ran then now as real
    else
      var latest := (summary.value.startedAt + MAX_GAP_MS) as real;
      if summary.value.nextDueAt.Some? then MinReal(summary.value.nextDueAt.value, latest) else latest
  }

  function Pow2(n: nat): nat { if n == 0 then 1 else 2 * Pow2(n - 1) }

  function Backoff(streak: int): int { MINUTE_MS * Pow2(Min(10, Max(0, streak - 1))) }

  function HeldStart(tick: int, now: int, startedAt: int): int {
    Min(now, Max(CurrentTick(tick), startedAt))
  }

  function NextDueAfterRun(tick: int, now: int, summary: Option<Summary>, streak: int): int {
    var nextTick := CurrentTick(tick) + MINUTE_MS;
    if summary.None? || summary.value.outcome == Failed then
      Max(nextTick, CurrentTick(tick) + Min(MAX_GAP_MS, Backoff(streak)))
    else
      var held := summary.value.(startedAt := HeldStart(tick, now, summary.value.startedAt));
      var at := NextScheduledCall(Some(held), now);
      Max(nextTick, TickFor(MinReal(at, (now + MAX_GAP_MS) as real)))
  }

  /** A minute tick: where the platform's cron fires. */
  predicate IsTick(t: int) { t % MINUTE_MS == 0 }

  lemma CeilIsLeast(x: real, n: int)
    ensures n as real >= x <==> n >= Ceil(x)
  {
    var f := (-x).Floor;
    assert f as real <= -x < f as real + 1.0;
    if n as real >= x {
      assert (-n) as real <= -x;
      assert -n <= f;
    }
  }

  /** A run's lease outlasts its call by its margin: 50 s for a tenant checked every minute, 100 s for any other. */
  lemma RunLeaseIs(interval: int)
    ensures CallTimeoutMs(interval) + RUN_LEASE_MARGIN_MS == if interval <= 60_000 then 50_000 else 100_000
    ensures interval <= 60_000 ==> CallTimeoutMs(interval) + RUN_LEASE_MARGIN_MS < MINUTE_MS - DUE_SLACK_MS
  {
  }

  lemma TicksAreMultiples(t: int)
    ensures IsTick(t * MINUTE_MS)
  {
  }

  /**
   * `tickFor` answers the first minute tick at or after `at`: a tick is at or
   * after `at` exactly when it is at or after it.
   */
  lemma TickForIsFirst(at: real, t: int)
    requires IsTick(t)
    ensures IsTick(TickFor(at))
    ensures t >= TickFor(at) <==> t as real >= at
  {
    var n := t / MINUTE_MS;
    assert t == n * MINUTE_MS;
    TicksAreMultiples(Ceil(at / 60_000.0));
    CeilIsLeast(at / 60_000.0, n);
    assert n as real >= at / 60_000.0 <==> t as real >= at by {
      assert t as real == n as real * 60_000.0;
    }
  }

  /** The tick the cron stands for is a tick, at most the slack ahead of the clock, and less than a minute behind it. */
  lemma CurrentTickBounds(at: int)
    ensures IsTick(CurrentTick(at))
    ensures at + DUE_SLACK_MS - MINUTE_MS < CurrentTick(at) <= at + DUE_SLACK_MS
  {
    TicksAreMultiples((at + DUE_SLACK_MS) / MINUTE_MS);
  }

  lemma TickIsCurrent(t: int)
    requires IsTick(t)
    ensures CurrentTick(t) == t
  {
  }

  lemma PowerBounds(n: nat)
    ensures Pow2(n) >= 1
    ensures n >= 4 ==> Pow2(n) >= 16
  {
  }

  /**
   * Not before what a run that answered "ran" or "lease_busy" asks for: its
   * `nextDueAt` or 12 minutes past its start, whichever is earlier, and for one
   * that found the lease taken, now.
   */
  predicate NotBeforeAsked(t: int, tick: int, now: int, s: Summary) {
    if s.outcome == LeaseBusy then t >= now
    else
      || (s.nextDueAt.Some? && t as real >= s.nextDueAt.value)
      || t >= 720_000 + (if s.startedAt >= now || CurrentTick(tick) >= now then now
                         else if s.startedAt <= CurrentTick(tick) then CurrentTick(tick)
                         else s.startedAt)
  }

  /**
   * After an answered, not failed run the due time is exactly the first tick
   * after the run's own tick that is not before the time asked for.
   */
  lemma DueIsFirstTickNotBefore(tick: int, now: int, s: Summary, streak: int, t: int)
    requires s.outcome != Failed
    requires IsTick(t)
    ensures t >= NextDueAfterRun(tick, now, Some(s), streak)
       <==> t >= CurrentTick(tick) + MINUTE_MS && NotBeforeAsked(t, tick, now, s)
  {
    var held := s.(startedAt := HeldStart(tick, now, s.startedAt));
    var at := NextScheduledCall(Some(held), now);
    TickForIsFirst(MinReal(at, (now + MAX_GAP_MS) as real), t);
  }

  /**
   * Whatever a tenant answers, or doesn't: the next due time is a minute tick
   * after the run's tick, and less than 12 minutes plus one rounding away.
   */
  lemma DueIsBounded(tick: int, now: int, summary: Option<Summary>, streak: int)
    requires tick <= now + DUE_SLACK_MS
    ensures var due := NextDueAfterRun(tick, now, summary, streak);
            IsTick(due) && due >= CurrentTick(tick) + MINUTE_MS && due > tick && due < now + MAX_GAP_MS + MINUTE_MS
  {
    CurrentTickBounds(tick);
    var due := NextDueAfterRun(tick, now, summary, streak);
    if summary.None? || summary.value.outcome == Failed {
      assert IsTick(MAX_GAP_MS);
      TicksAreMultiples(Pow2(Min(10, Max(0, streak - 1))));
      PowerBounds(Min(10, Max(0, streak - 1)));
    } else {
      var far := CurrentTick(now + MAX_GAP_MS - DUE_SLACK_MS) + MINUTE_MS;
      CurrentTickBounds(now + MAX_GAP_MS - DUE_SLACK_MS);
      assert far >= now + MAX_GAP_MS;
      DueIsFirstTickNotBefore(tick, now, summary.value, streak, far);
      var held := summary.value.(startedAt := HeldStart(tick, now, summary.value.startedAt));
      TickForIsFirst(MinReal(NextScheduledCall(Some(held), now), (now + MAX_GAP_MS) as real), far);
      assert due <= far;
    }
  }

  /** A tenant that keeps failing is called after 1, 2, 4, 8, then every 12 minutes, whatever its answers said. */
  lemma FailureBacksOff(tick: int, now: int, summary: Option<Summary>, streak: int)
    requires summary.None? || summary.value.outcome == Failed
    ensures NextDueAfterRun(tick, now, summary, streak) - CurrentTick(tick) ==
            (if streak <= 1 then 1 else if streak == 2 then 2 else if streak == 3 then 4
             else if streak == 4 then 8 else 12) * MINUTE_MS
  {
    assert Pow2(0) == 1 && Pow2(1) == 2 && Pow2(2) == 4 && Pow2(3) == 8;
    if streak >= 5 {
      PowerBounds(Min(10, streak - 1));
    }
  }
}
