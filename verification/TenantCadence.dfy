/**
 * The tenant's side of the cadence (src/worker/scheduler.ts, the
 * classification loop of runScheduled; src/worker/lib/cadence.ts): each
 * monitor a run leaves alone records when it next has work, the run reports
 * the earliest, and the platform calls on the first tick at or after it.
 * Times are epoch milliseconds. What other modules answer about a monitor
 * (in a maintenance window, on its schedule, when its window reopens) is given.
 */
module TenantCadence {
  import opened Common
  import opened SchedulingClock

  const SLICE_SECONDS: int := 720
  const SLICE_MS: int := 720_000
  const PLATFORM_TICK_MS: int := 60_000
  const CRON_TICK_MS: int := 720_000

  datatype Cadence = CronCadence | PlatformCadence

  datatype StateKind = Unknown | Up | Down | WarmingUp | Maintenance | ScheduledOff

  datatype MonitorState = MonitorState(kind: StateKind, nextCheckAt: Option<int>, lastBeatAt: Option<int>,
      lastCheckedAt: Option<int>, missedBeat: bool)

  datatype Monitor = Monitor(
    id: int, heartbeat: bool, enabled: bool, paused: bool, intervalSeconds: nat, graceSeconds: nat, createdAt: int,
    inMaintenance: bool, onSchedule: bool, offUntil: int, state: Option<MonitorState>)

  /** One run: its clock, and the moment its checks are measured from. */
  datatype RunClock = RunClock(cadence: Cadence, now: int, base: int)

  function TickMs(c: Cadence): int { if c.CronCadence? then CRON_TICK_MS else PLATFORM_TICK_MS }

  function DueSlackMs(intervalSeconds: int, c: Cadence): int { Min(TickMs(c) / 2, intervalSeconds * 500) }

  /** The tick the call was made for, when that is no more than one tick old; otherwise, and on the cron, now. */
  function RunBaseTime(now: int, scheduledTime: int, c: Cadence): int {
    var late := now - scheduledTime;
    if c.PlatformCadence? && 0 <= late <= TickMs(c) then scheduledTime else now
  }

  datatype Action = Skip | EnterMaintenance | TurnOff | WarmUp | MarkMissed | Check

  datatype Verdict = Verdict(action: Action, wake: Option<int>)

  function Deadline(m: Monitor): int
    requires m.state.Some?
  {
    (if m.state.value.lastBeatAt.Some? then m.state.value.lastBeatAt.value else m.createdAt)
        + (m.intervalSeconds + m.graceSeconds) * 1000
  }

  /** When an overdue heartbeat is next marked missed: a slice after its last mark, or now. */
  function NextMark(m: Monitor, run: RunClock): int
    requires m.state.Some?
  {
    var st := m.state.value;
    if run.cadence.PlatformCadence? && st.kind == Down && st.missedBeat && st.lastCheckedAt.Some?
    then st.lastCheckedAt.value + SLICE_MS else run.base
  }

  function HeartbeatVerdict(m: Monitor, run: RunClock): Verdict
  {
    if m.state.None? || m.state.value.kind == ScheduledOff || m.state.value.kind == Unknown
    then Verdict(WarmUp, Some(run.now + (m.intervalSeconds + m.graceSeconds) * 1000))
    else if run.now > Deadline(m) then
      var slack := DueSlackMs(SLICE_SECONDS, run.cadence);
      if NextMark(m, run) - slack > run.base then Verdict(Skip, Some(NextMark(m, run) - slack))
      else Verdict(MarkMissed, Some(run.base + SLICE_MS - slack))
    else Verdict(Skip, Some(Deadline(m) + 1))
  }

  function NextCheck(m: Monitor): int {
    if m.state.Some? && m.state.value.nextCheckAt.Some? then m.state.value.nextCheckAt.value else 0
  }

  function PolledVerdict(m: Monitor, run: RunClock): Verdict {
    var slack := DueSlackMs(m.intervalSeconds, run.cadence);
    if NextCheck(m) > run.base + slack then Verdict(Skip, Some(NextCheck(m) - slack)) else Verdict(Check, None)
  }

  function Classify(m: Monitor, run: RunClock): Verdict {
    if !m.enabled || m.paused then Verdict(Skip, None)
    else if m.inMaintenance then
      Verdict(if m.state.Some? && m.state.value.kind == Maintenance then Skip else EnterMaintenance,
              Some(run.now + Min(m.intervalSeconds, SLICE_SECONDS) * 1000))
    else if !m.onSchedule then
      if m.state.Some? && m.state.value.kind == ScheduledOff && NextCheck(m) > run.now
      then Verdict(Skip, Some(NextCheck(m))) else Verdict(TurnOff, Some(m.offUntil))
    else if m.heartbeat then HeartbeatVerdict(m, run)
    else PolledVerdict(m, run)
  }

  // ----- what each monitor gets ----------------------------------------------

  /** Half a tick, but never more than half the monitor's interval. */
  function Slack(intervalSeconds: int, c: Cadence): int {
    var half := if c.PlatformCadence? then 30_000 else 360_000;
    if intervalSeconds * 500 < half then intervalSeconds * 500 else half
  }

  predicate Disabled(m: Monitor) { !m.enabled || m.paused }

  predicate InWindow(m: Monitor) { !Disabled(m) && m.inMaintenance }

  predicate Off(m: Monitor) { !Disabled(m) && !m.inMaintenance && !m.onSchedule }

  predicate Heartbeat(m: Monitor) { !Disabled(m) && !m.inMaintenance && m.onSchedule && m.heartbeat }

  predicate Polled(m: Monitor) { !Disabled(m) && !m.inMaintenance && m.onSchedule && !m.heartbeat }

  predicate InState(m: Monitor, kind: StateKind) { m.state.Some? && m.state.value.kind == kind }

  /** When its next check is recorded for; the epoch when it isn't. */
  function RecordedCheck(m: Monitor): int {
    match m.state
    case Some(MonitorState(_, Some(at), _, _, _)) => at
    case _ => 0
  }

  /** No beat is expected of it yet: it is new, or back on its schedule. */
  predicate Cold(m: Monitor) { m.state.None? || InState(m, ScheduledOff) || InState(m, Unknown) }

  /** How long it has been silent: since its last beat, or since it was made when it had none. */
  function SilentMs(m: Monitor, now: int): int {
    match m.state
    case Some(MonitorState(_, _, Some(beat), _, _)) => now - beat
    case _ => now - m.createdAt
  }

  /** How much longer it may be silent: its interval and its grace period, less its silence. */
  function LeftMs(m: Monitor, now: int): int { m.intervalSeconds * 1000 + m.graceSeconds * 1000 - SilentMs(m, now) }

  predicate Overdue(m: Monitor, now: int) { !Cold(m) && LeftMs(m, now) < 0 }

  /** On the platform: it is marked missed already, a slice ago at most but for the slack. */
  predicate MarkedLately(m: Monitor, run: RunClock) {
    && run.cadence.PlatformCadence? && InState(m, Down) && m.state.value.missedBeat
    && m.state.value.lastCheckedAt.Some? && run.base < m.state.value.lastCheckedAt.value + 690_000
  }

  predicate CheckDue(m: Monitor, run: RunClock) {
    RecordedCheck(m) <= run.base + Slack(m.intervalSeconds, run.cadence)
  }

  /** Off, and recorded as off until a later time. */
  predicate OffUntilLater(m: Monitor, now: int) { InState(m, ScheduledOff) && RecordedCheck(m) > now }

  predicate EntersMaintenance(m: Monitor) { InWindow(m) && !InState(m, Maintenance) }

  predicate TurnsOff(m: Monitor, now: int) { Off(m) && !OffUntilLater(m, now) }

  predicate IsMissed(m: Monitor, run: RunClock) { Heartbeat(m) && Overdue(m, run.now) && !MarkedLately(m, run) }

  /** When a monitor next has work, as far as this run can tell; a check made now plans its own. */
  function NextWork(m: Monitor, run: RunClock): Option<int> {
    if Disabled(m) || (Polled(m) && CheckDue(m, run)) then None
    else if InWindow(m) then
      Some(run.now + if m.intervalSeconds < 720 then m.intervalSeconds * 1000 else 720_000)
    else if Off(m) then Some(if OffUntilLater(m, run.now) then RecordedCheck(m) else m.offUntil)
    else if Polled(m) then Some(RecordedCheck(m) - Slack(m.intervalSeconds, run.cadence))
    else if Cold(m) then Some(run.now + m.intervalSeconds * 1000 + m.graceSeconds * 1000)
    else if !Overdue(m, run.now) then Some(run.now + LeftMs(m, run.now) + 1)
    else if MarkedLately(m, run) then Some(m.state.value.lastCheckedAt.value + 690_000)
    else Some(run.base + if run.cadence.PlatformCadence? then 690_000 else 360_000)
  }

  /** What a monitor gets, by the condition it is in. */
  predicate Gets(m: Monitor, run: RunClock, v: Verdict) {
    && v.wake == NextWork(m, run)
    && (v.action == EnterMaintenance <==> EntersMaintenance(m))
    && (v.action == TurnOff <==> TurnsOff(m, run.now))
    && (v.action == WarmUp <==> Heartbeat(m) && Cold(m))
    && (v.action == MarkMissed <==> IsMissed(m, run))
    && (v.action == Check <==> Polled(m) && CheckDue(m, run))
  }

  lemma EachGetsItsOwn(m: Monitor, run: RunClock)
    ensures Gets(m, run, Classify(m, run))
  {
  }

  lemma {:induction false} WithActionAre(ms: seq<Monitor>, run: RunClock, action: Action)
    ensures forall m :: m in WithAction(ms, run, action) <==> m in ms && Classify(m, run).action == action
  {
    if ms != [] {
      WithActionAre(ms[..|ms| - 1], run, action);
      assert ms == ms[..|ms| - 1] + [ms[|ms| - 1]];
    }
  }

  lemma {:induction false} ActionsAddUp(ms: seq<Monitor>, run: RunClock)
    ensures |ms| == |WithAction(ms, run, Skip)| + |WithAction(ms, run, EnterMaintenance)|
                    + |WithAction(ms, run, TurnOff)| + |WithAction(ms, run, WarmUp)|
                    + |WithAction(ms, run, MarkMissed)| + |WithAction(ms, run, Check)|
  {
    if ms != [] { ActionsAddUp(ms[..|ms| - 1], run); }
  }

  lemma {:induction false} WakesAre(ms: seq<Monitor>, run: RunClock)
    ensures forall w :: w in WakesOf(ms, run) <==> exists m :: m in ms && NextWork(m, run) == Some(w)
  {
    if ms != [] {
      var init, last := ms[..|ms| - 1], ms[|ms| - 1];
      assert ms == init + [last];
      WakesAre(init, run);
      EachGetsItsOwn(last, run);
      forall w ensures w in WakesOf(ms, run) <==> exists m :: m in ms && NextWork(m, run) == Some(w) {
        if m :| m in ms && NextWork(m, run) == Some(w) { assert m in init || m == last; }
      }
    }
  }

  // ----- the loop ---------------------------------------------------------

  function WakesOf(ms: seq<Monitor>, run: RunClock): seq<int> {
    if ms == [] then []
    else
      var v := Classify(ms[|ms| - 1], run);
      WakesOf(ms[..|ms| - 1], run) + (if v.wake.Some? then [v.wake.value] else [])
  }

  function WithAction(ms: seq<Monitor>, run: RunClock, action: Action): seq<Monitor> {
    if ms == [] then []
    else
      var last := ms[|ms| - 1];
      WithAction(ms[..|ms| - 1], run, action) + (if Classify(last, run).action == action then [last] else [])
  }

  /** What a run sorts its monitors into. */
  datatype Sorted = Sorted(duePolled: seq<Monitor>, missed: seq<Monitor>, entering: seq<Monitor>,
      turningOff: seq<Monitor>, warming: seq<Monitor>, skipped: nat)

  /** Each list holds exactly the monitors in its condition, and every monitor is in one, or skipped. */
  ghost predicate SortedRight(monitors: seq<Monitor>, run: RunClock, r: Sorted) {
    && (forall m :: m in r.duePolled <==> m in monitors && Polled(m) && CheckDue(m, run))
    && (forall m :: m in r.missed <==> m in monitors && IsMissed(m, run))
    && (forall m :: m in r.entering <==> m in monitors && EntersMaintenance(m))
    && (forall m :: m in r.turningOff <==> m in monitors && TurnsOff(m, run.now))
    && (forall m :: m in r.warming <==> m in monitors && Heartbeat(m) && Cold(m))
    && r.skipped + |r.duePolled| + |r.missed| + |r.entering| + |r.turningOff| + |r.warming| == |monitors|
  }

  /** The lists as each monitor's verdict fills them, in order. */
  predicate Follows(monitors: seq<Monitor>, run: RunClock, r: Sorted) {
    && r.duePolled == WithAction(monitors, run, Check) && r.missed == WithAction(monitors, run, MarkMissed)
    && r.entering == WithAction(monitors, run, EnterMaintenance) && r.turningOff == WithAction(monitors, run, TurnOff)
    && r.warming == WithAction(monitors, run, WarmUp) && r.skipped == |WithAction(monitors, run, Skip)|
  }

  lemma FollowsIsRight(monitors: seq<Monitor>, run: RunClock, r: Sorted)
    requires Follows(monitors, run, r)
    ensures SortedRight(monitors, run, r)
  {
    WithActionAre(monitors, run, Check);
    WithActionAre(monitors, run, MarkMissed);
    WithActionAre(monitors, run, EnterMaintenance);
    WithActionAre(monitors, run, TurnOff);
    WithActionAre(monitors, run, WarmUp);
    forall m ensures Gets(m, run, Classify(m, run)) { EachGetsItsOwn(m, run); }
    ActionsAddUp(monitors, run);
  }

  /** One turn of the loop: the monitor's wake, if it has one, and the list it goes to. */
  method ClassifyOne(m: Monitor, run: RunClock, sorted: Sorted) returns (wake: Option<int>, r: Sorted)
    ensures wake == Classify(m, run).wake
    ensures r == match Classify(m, run).action
                 case Check => sorted.(duePolled := sorted.duePolled + [m])
                 case MarkMissed => sorted.(missed := sorted.missed + [m])
                 case EnterMaintenance => sorted.(entering := sorted.entering + [m])
                 case TurnOff => sorted.(turningOff := sorted.turningOff + [m])
                 case WarmUp => sorted.(warming := sorted.warming + [m])
                 case Skip => sorted.(skipped := sorted.skipped + 1)
  {
    var now, base := run.now, run.base;
    var skip := sorted.(skipped := sorted.skipped + 1);
    if !m.enabled || m.paused { return None, skip; }
    if m.inMaintenance {
      wake := Some(now + Min(m.intervalSeconds, SLICE_SECONDS) * 1000);
      if m.state.Some? && m.state.value.kind == Maintenance { return wake, skip; }
      return wake, sorted.(entering := sorted.entering + [m]);
    }
    if !m.onSchedule {
      if m.state.Some? && m.state.value.kind == ScheduledOff && NextCheck(m) > now { return Some(NextCheck(m)), skip; }
      return Some(m.offUntil), sorted.(turningOff := sorted.turningOff + [m]);
    }
    if m.heartbeat {
      if m.state.None? || m.state.value.kind == ScheduledOff || m.state.value.kind == Unknown {
        return Some(now + (m.intervalSeconds + m.graceSeconds) * 1000), sorted.(warming := sorted.warming + [m]);
      }
      if now <= Deadline(m) { return Some(Deadline(m) + 1), skip; }
      var slack := DueSlackMs(SLICE_SECONDS, run.cadence);
      var nextMark := NextMark(m, run);
      if nextMark - slack > base { return Some(nextMark - slack), skip; }
      return Some(base + SLICE_MS - slack), sorted.(missed := sorted.missed + [m]);
    }
    var slack := DueSlackMs(m.intervalSeconds, run.cadence);
    if NextCheck(m) > base + slack { return Some(NextCheck(m) - slack), skip; }
    return None, sorted.(duePolled := sorted.duePolled + [m]);
  }

  /**
   * The classification loop: every list it fills holds exactly the monitors in its
   * condition, the rest are counted as skipped, and what it records is when each
   * monitor next has work.
   */
  method ClassifyAll(monitors: seq<Monitor>, run: RunClock) returns (wakes: seq<int>, sorted: Sorted)
    ensures wakes == WakesOf(monitors, run) && Follows(monitors, run, sorted)
    ensures SortedRight(monitors, run, sorted)
    ensures forall w :: w in wakes <==> exists m :: m in monitors && NextWork(m, run) == Some(w)
  {
    wakes, sorted := [], Sorted([], [], [], [], [], 0);
    for i := 0 to |monitors|
      invariant wakes == WakesOf(monitors[..i], run) && Follows(monitors[..i], run, sorted)
    {
      assert monitors[..i + 1][..i] == monitors[..i];
      var wake;
      wake, sorted := ClassifyOne(monitors[i], run, sorted);
      if wake.Some? { wakes := wakes + [wake.value]; }
    }
    assert monitors[..|monitors|] == monitors;
    FollowsIsRight(monitors, run, sorted);
    WakesAre(monitors, run);
  }

  lemma {:induction false} EveryWakeIsRecorded(ms: seq<Monitor>, run: RunClock, m: Monitor)
    requires m in ms && Classify(m, run).wake.Some?
    ensures Classify(m, run).wake.value in WakesOf(ms, run)
  {
    var last := ms[|ms| - 1];
    if m != last {
      assert ms == ms[..|ms| - 1] + [last];
      EveryWakeIsRecorded(ms[..|ms| - 1], run, m);
    }
  }

  predicate IsLeast(least: int, from: int, wakes: seq<int>) {
    && least <= from && (least == from || least in wakes)
    && forall i | 0 <= i < |wakes| :: least <= wakes[i]
  }

  /** What the run reports: the earliest wake, and never later than 12 minutes after it started. */
  method NextDueAt(startedAt: int, wakes: seq<int>) returns (next: int)
    ensures IsLeast(next, startedAt + MAX_GAP_MS, wakes)
  {
    next := startedAt + MAX_GAP_MS;
    for i := 0 to |wakes|
      invariant IsLeast(next, startedAt + MAX_GAP_MS, wakes[..i])
    {
      assert wakes[..i + 1] == wakes[..i] + [wakes[i]];
      if wakes[i] < next { next := wakes[i]; }
    }
    assert wakes[..|wakes|] == wakes;
  }

  // ----- wakes are never overshot -------------------------------------------

  /** A monitor in service on this run: enabled, in no window, on its schedule. */
  predicate InService(m: Monitor) { m.enabled && !m.paused && !m.inMaintenance && m.onSchedule }

  predicate LeftAlone(m: Monitor, run: RunClock) { InService(m) && Classify(m, run).action == Skip }

  /** The same loop, on a later run that finds the monitor as it was left, acts on it. */
  predicate ActsOn(m: Monitor, run: RunClock) {
    Classify(m, run).action == Check || Classify(m, run).action == MarkMissed
  }

  /** A heartbeat left alone because its deadline had not passed. */
  predicate WaitsForDeadline(m: Monitor, run: RunClock) { m.heartbeat && m.state.Some? && run.now <= Deadline(m) }

  /** Polled, or marked missed before: a later run of the same install acts exactly from the recorded wake on. */
  lemma WakeIsExact(m: Monitor, run: RunClock, later: RunClock)
    requires LeftAlone(m, run) && !WaitsForDeadline(m, run)
    requires later.cadence == run.cadence && run.now <= later.now
    ensures Classify(m, run).wake.Some?
    ensures ActsOn(m, later) <==> later.base >= Classify(m, run).wake.value
  {
  }

  /** Marked missed by a run on the platform's cadence: it is marked again a slice after that at the earliest. */
  predicate MarkedMissed(m: Monitor, c: Cadence) {
    m.state.Some? && c.PlatformCadence? && m.state.value.kind == Down && m.state.value.missedBeat
        && m.state.value.lastCheckedAt.Some?
  }

  function MarkAgainFrom(m: Monitor, c: Cadence): int
    requires MarkedMissed(m, c)
  {
    m.state.value.lastCheckedAt.value + SLICE_MS - DueSlackMs(SLICE_SECONDS, c)
  }

  /**
   * A heartbeat whose deadline has not passed: a later run acts exactly when its
   * own clock has reached the recorded wake, whatever tick it was called for,
   * and, where it was marked missed before (its deadline was moved since), when
   * its tick is a slice after that mark.
   */
  lemma HeartbeatWakeIsExactOnTheClock(m: Monitor, run: RunClock, later: RunClock)
    requires LeftAlone(m, run) && WaitsForDeadline(m, run) && later.cadence == run.cadence
    ensures Classify(m, run).wake == Some(Deadline(m) + 1)
    ensures ActsOn(m, later) <==>
              later.now >= Classify(m, run).wake.value
                  && (MarkedMissed(m, run.cadence) ==> later.base >= MarkAgainFrom(m, run.cadence))
  {
  }

  /**
   * The later runs there can be: called by the scheduler for a minute tick, or
   * measuring from their own clock; `any` counts calls made for the moment they
   * are sent too, as a release makes to its canary.
   */
  ghost predicate RunLater(run: RunClock, later: RunClock, any: bool) {
    later.cadence == run.cadence
        && (later.base == later.now
            || exists t: int :: (any || IsTick(t)) && later.base == RunBaseTime(later.now, t, run.cadence))
  }

  /** The earliest moment a run whose clock has passed the deadline can have been called for. */
  function EarliestCall(m: Monitor, any: bool): int
    requires m.state.Some?
  {
    var from := Deadline(m) + 1 - PLATFORM_TICK_MS;
    if any then from else TickFor(from as real)
  }

  /** It is before the wake, and a call for it may still be under way then. */
  lemma EarliestCallIs(m: Monitor, any: bool)
    requires m.state.Some?
    ensures any || IsTick(EarliestCall(m, any))
    ensures EarliestCall(m, any) <= Deadline(m) + 1 <= EarliestCall(m, any) + PLATFORM_TICK_MS
    ensures forall t | any || IsTick(t) :: t >= EarliestCall(m, any) <==> t >= Deadline(m) + 1 - PLATFORM_TICK_MS
  {
    if !any {
      var from := Deadline(m) + 1 - PLATFORM_TICK_MS;
      forall t | IsTick(t) ensures t >= EarliestCall(m, any) <==> t >= from { TickForIsFirst(from as real, t); }
      TickForIsFirst(from as real, EarliestCall(m, any));
      assert IsTick(EarliestCall(m, any) - MINUTE_MS);
    }
  }

  /** No run whose clock has reached the wake measures from before that. */
  lemma BaseFromEarliestCall(m: Monitor, run: RunClock, later: RunClock, any: bool)
    requires m.state.Some? && RunLater(run, later, any) && later.now > Deadline(m)
    ensures later.base >= EarliestCall(m, any)
  {
    EarliestCallIs(m, any);
    if later.base != later.now {
      var t: int :| (any || IsTick(t)) && later.base == RunBaseTime(later.now, t, run.cadence);
      assert t >= Deadline(m) + 1 - PLATFORM_TICK_MS;
    }
  }

  /**
   * So its wake is exact on the clock of every later run if and only if no earlier
   * mark holds the next one back past the earliest moment such a run can be called
   * for: the first tick within a tick of the wake for the scheduler's calls.
   */
  lemma HeartbeatWakeIsExactIff(m: Monitor, run: RunClock, any: bool)
    requires LeftAlone(m, run) && WaitsForDeadline(m, run)
    ensures (forall later | RunLater(run, later, any) :: ActsOn(m, later) <==> later.now >= Classify(m, run).wake.value)
       <==> (MarkedMissed(m, run.cadence) ==> MarkAgainFrom(m, run.cadence) <= EarliestCall(m, any))
  {
    EarliestCallIs(m, any);
    var first := RunClock(run.cadence, Deadline(m) + 1, EarliestCall(m, any));
    if MarkedMissed(m, run.cadence) {
      assert first.base == RunBaseTime(first.now, EarliestCall(m, any), run.cadence);
      assert RunLater(run, first, any);
      HeartbeatWakeIsExactOnTheClock(m, run, first);
    }
    forall later | RunLater(run, later, any)
        && (MarkedMissed(m, run.cadence) ==> MarkAgainFrom(m, run.cadence) <= EarliestCall(m, any))
      ensures ActsOn(m, later) <==> later.now >= Classify(m, run).wake.value
    {
      HeartbeatWakeIsExactOnTheClock(m, run, later);
      if later.now > Deadline(m) { BaseFromEarliestCall(m, run, later, any); }
    }
  }

  /**
   * No wake is overshot: whenever a later run acts on a monitor this run left
   * alone, its clock has reached the recorded wake. Its tick has too, except
   * for a heartbeat whose deadline passed between the tick and the call.
   */
  lemma WakeNeverOvershot(m: Monitor, run: RunClock, later: RunClock)
    requires LeftAlone(m, run) && later.cadence == run.cadence
    requires run.now <= later.now && later.base <= later.now && ActsOn(m, later)
    ensures later.now >= Classify(m, run).wake.value
    ensures later.base >= Classify(m, run).wake.value
       <==> !(WaitsForDeadline(m, run) && later.base <= Deadline(m) < later.now)
  {
  }

  /**
   * That exception is real: a call for the tick of the deadline itself, delivered
   * late, marks what its wake puts a tick later.
   */
  lemma LateCallSeesDeadlineEarly()
    ensures var st := MonitorState(Up, None, Some(0), None, false);
            var m := Monitor(1, true, true, false, 60, 0, 0, false, true, 0, Some(st));
            var run := RunClock(PlatformCadence, 10_000, 0);
            var later := RunClock(PlatformCadence, 65_000, 60_000);
            && LeftAlone(m, run) && ActsOn(m, later) && later.base == RunBaseTime(65_000, 60_000, PlatformCadence)
            && later.base < Classify(m, run).wake.value && TickFor(Classify(m, run).wake.value as real) == 120_000
  {
    TickForIsFirst(60_001.0, 120_000);
    TickForIsFirst(60_001.0, 60_000);
    assert TickFor(60_001.0) % MINUTE_MS == 0;
  }

  // ----- through the contract to the platform's next tick ---------------------

  /** What the platform makes of a run that reports `next`. */
  function NextTickFor(tick: int, answeredAt: int, startedAt: int, next: int): int {
    NextDueAfterRun(tick, answeredAt, Some(Summary(Ran, startedAt, Some(next as real))), 0)
  }

  /**
   * End to end: the platform's next call for the tenant is no later than the
   * first tick after this run's that is not before any monitor's wake.
   */
  lemma NextCallNeverLate(ms: seq<Monitor>, run: RunClock, next: int, tick: int, answeredAt: int, m: Monitor)
    requires IsLeast(next, run.now + MAX_GAP_MS, WakesOf(ms, run))
    requires m in ms && Classify(m, run).wake.Some?
    ensures NextTickFor(tick, answeredAt, run.now, next)
         <= Max(CurrentTick(tick) + MINUTE_MS, TickFor(Classify(m, run).wake.value as real))
  {
    var wake := Classify(m, run).wake.value;
    EveryWakeIsRecorded(ms, run, m);
    CurrentTickBounds(tick);
    var t := Max(CurrentTick(tick) + MINUTE_MS, TickFor(wake as real));
    TickForIsFirst(wake as real, 0);
    assert IsTick(t);
    TickForIsFirst(wake as real, TickFor(wake as real));
    DueIsFirstTickNotBefore(tick, answeredAt, Summary(Ran, run.now, Some(next as real)), 0, t);
  }

  /**
   * And the call is not wasted: once the platform's tick has reached a wake
   * (and the call reaches the tenant no earlier than its tick), the run acts on
   * the monitor that recorded it, however late the queue delivered the call,
   * unless that is a heartbeat still within a slice of an earlier mark.
   */
  lemma CallAtWakeActs(m: Monitor, run: RunClock, tick: int, later: RunClock)
    requires LeftAlone(m, run) && later.cadence == run.cadence && run.now <= later.now
    requires tick <= later.now && later.base == RunBaseTime(later.now, tick, later.cadence)
    requires tick >= Classify(m, run).wake.value
    ensures ActsOn(m, later) <==>
              (WaitsForDeadline(m, run) && MarkedMissed(m, run.cadence) ==> later.base >= MarkAgainFrom(m, run.cadence))
  {
    if WaitsForDeadline(m, run) {
      HeartbeatWakeIsExactOnTheClock(m, run, later);
    } else {
      WakeIsExact(m, run, later);
    }
  }
}
