/**
 * One delivery of a scheduled run, as the consumer executes it
 * (platform/src/scheduling.ts, runOne and withRetries): the row's columns are
 * updated in place by guarded statements, and after the call only the
 * bookkeeping is retried, whatever each try's fate.
 */
module ScheduleRun {
  import opened Common
  import Clock = SchedulingClock
  import P = SchedulingProtocol
  import S = RunStats

  /** The tenant row's schedule columns; each method is one statement, and answers whether it changed a row. */
  class TenantRow {
    var nextAt: int
    var claim: Option<int>
    var running: Option<P.Token>
    var leaseUntil: Option<int>
    var schedulable: bool

    function Columns(): P.Row
      reads this
    {
      P.Row(nextAt, claim, running, leaseUntil, schedulable)
    }

    constructor (row: P.Row)
      ensures Columns() == row
    {
      nextAt, claim, running, leaseUntil, schedulable := row.nextAt, row.claim, row.running, row.leaseUntil,
          row.schedulable;
    }

    /**
     * A win: nobody else claims the tenant until the queue's lease of three minutes
     * is over, and then it is anyone's again; of all messages only this claim's may
     * start its run; the due time stays.
     */
    method Claim(run: int, at: int, previous: int) returns (changed: bool)
      modifies this
      ensures changed == P.ClaimMatches(old(Columns()), at, previous)
      ensures Columns() == if changed then P.Claimed(old(Columns()), run, at) else old(Columns())
      ensures changed ==> nextAt == old(nextAt) && forall later, due ::
              P.ClaimMatches(Columns(), later, due) <==> due == nextAt && later >= at + 180_000
      ensures changed ==> forall token :: P.StartMatches(Columns(), token) <==> token.run == run
    {
      changed := nextAt == previous && schedulable && (leaseUntil.None? || leaseUntil.value <= at);
      if changed {
        claim, running, leaseUntil := Some(run), None, Some(at + Clock.QUEUE_LEASE_MS);
      }
    }

    /**
     * The claim given back: no message starts a run, and the tenant, due as
     * before, is anyone's to claim. A newer claim stays.
     */
    method Unclaim(run: int)
      modifies this
      ensures Columns() == P.Unclaimed(old(Columns()), run)
      ensures old(claim) == Some(run) ==>
                && (forall token :: !P.StartMatches(Columns(), token))
                && (schedulable ==> forall at :: P.ClaimMatches(Columns(), at, old(nextAt)))
      ensures old(claim) != Some(run) ==> Columns() == old(Columns())
    {
      if claim == Some(run) {
        claim, leaseUntil := None, None;
      }
    }

    method Start(token: P.Token, startedAt: int, timeout: int) returns (changed: bool)
      modifies this
      ensures changed == P.StartMatches(old(Columns()), token)
      ensures Columns() == if changed then P.Started(old(Columns()), token, startedAt, timeout) else old(Columns())
      ensures changed ==> running == Some(token) && leaseUntil == Some(startedAt + timeout + 10_000)
                          && nextAt == old(nextAt) && claim == old(claim) && schedulable
    {
      changed := claim == Some(token.run) && running != Some(token) && schedulable;
      if changed {
        running, leaseUntil := Some(token), Some(startedAt + timeout + Clock.RUN_LEASE_MARGIN_MS);
      }
    }

    method Finish(token: P.Token, next: int)
      modifies this
      ensures Columns() == P.Finished(old(Columns()), token, next)
    {
      if claim == Some(token.run) && running == Some(token) {
        nextAt, claim, running, leaseUntil := next, None, None, None;
      }
    }
  }

  /**
   * One tenant's part of a cron's round: claimed if it is still as the round
   * found it, then sent, or given back when the queue refuses. Sent, it is this
   * tick's until its lease ends; refused, it is due again at once.
   */
  method EnqueueTenant(tenant: TenantRow, tick: int, at: int, previous: int, refused: bool) returns (sent: bool)
    modifies tenant
    ensures sent <==> P.ClaimMatches(old(tenant.Columns()), at, previous) && !refused
    ensures tenant.nextAt == old(tenant.nextAt) && tenant.schedulable == old(tenant.schedulable)
    ensures sent ==>
              && (forall token :: P.StartMatches(tenant.Columns(), token) <==> token.run == tick)
              && (forall later, due ::
                  P.ClaimMatches(tenant.Columns(), later, due) <==> due == tenant.nextAt && later >= at + 180_000)
    ensures P.ClaimMatches(old(tenant.Columns()), at, previous) && refused ==>
              && (forall token :: !P.StartMatches(tenant.Columns(), token))
              && (forall later :: P.ClaimMatches(tenant.Columns(), later, previous))
    ensures !P.ClaimMatches(old(tenant.Columns()), at, previous) ==> tenant.Columns() == old(tenant.Columns())
  {
    sent := tenant.Claim(tick, at, previous);
    if sent && refused {
      tenant.Unclaim(tick);
      sent := false;
    }
  }

  /**
   * Two crons that overlap, whichever ticks they are for, and both found the
   * tenant due: it is sent by one of them at most, the first unless the queue
   * refused it.
   */
  method OverlappingCrons(tenant: TenantRow, ticks: (int, int), at: (int, int), refused: (bool, bool))
    returns (first: bool, second: bool)
    requires at.1 < at.0 + Clock.QUEUE_LEASE_MS && P.Due(tenant.Columns(), at.0) && P.Due(tenant.Columns(), at.1)
    modifies tenant
    ensures first == !refused.0 && second == (refused.0 && !refused.1)
    ensures forall token ::
              P.StartMatches(tenant.Columns(), token)
              <==> (first && token.run == ticks.0) || (second && token.run == ticks.1)
    ensures tenant.nextAt == old(tenant.nextAt)
  {
    var previous := tenant.nextAt;
    first := EnqueueTenant(tenant, ticks.0, at.0, previous, refused.0);
    second := EnqueueTenant(tenant, ticks.1, at.1, previous, refused.1);
  }

  /** The platform's record of one call. */
  datatype Call =
    | Answered(summary: Clock.Summary, checked: nat, failures: nat, d1Queries: nat)
    | NoAnswer
    | TimedOut

  function OutcomeOf(call: Call): S.RunOutcome {
    match call
    case Answered(summary, _, _, _) =>
      (match summary.outcome
       case Ran => S.Ran
       case LeaseBusy => S.LeaseBusy
       case Failed => S.Failed)
    case NoAnswer => S.NoAnswer
    case TimedOut => S.TimedOut
  }

  function SummaryOf(call: Call): Option<Clock.Summary> {
    if call.Answered? then Some(call.summary) else None
  }

  function RecordOf(runId: int, startedAt: int, finishedAt: int, call: Call): S.Run {
    var ms: nat := Max(0, finishedAt - startedAt);
    if call.Answered? then S.Run(runId, startedAt, OutcomeOf(call), ms, call.checked, call.failures, call.d1Queries)
    else S.Run(runId, startedAt, OutcomeOf(call), ms, 0, 0, 0)
  }

  /** How far one try at the bookkeeping gets before the database fails, its answer lost or not. */
  datatype Fate = FailsFirst | RecordsThenFails | FinishesThenFails | Works

  const TRIES: nat := 4

  predicate Records(f: Fate) { f != FailsFirst }

  predicate Finishes(f: Fate) { f == FinishesThenFails || f == Works }

  /** How many tries have been made when the retry loop gives up or succeeds. */
  function TriesMade(fates: seq<Fate>, from: nat): (n: nat)
    requires |fates| >= TRIES && from < TRIES
    ensures from < n <= TRIES
    decreases TRIES - from
  {
    if fates[from] == Works || from + 1 == TRIES then from + 1 else TriesMade(fates, from + 1)
  }

  /** Among the first n tries, one recorded the run; one finished it. */
  predicate Recorded(fates: seq<Fate>, n: nat)
    requires n <= |fates|
  {
    exists k :: 0 <= k < n && Records(fates[k])
  }

  predicate Finished(fates: seq<Fate>, n: nat)
    requires n <= |fates|
  {
    exists k :: 0 <= k < n && Finishes(fates[k])
  }

  lemma NextTry(fates: seq<Fate>, n: nat)
    requires n < |fates|
    ensures Recorded(fates, n + 1) <==> Recorded(fates, n) || Records(fates[n])
    ensures Finished(fates, n + 1) <==> Finished(fates, n) || Finishes(fates[n])
  {
  }

  lemma RecordedAgain(books: S.Books, run: S.Run)
    ensures S.Recorded(S.Recorded(books, run), run) == S.Recorded(books, run)
  {
    S.RetriesChangeNothing(books, run, 2);
    assert S.RecordedTimes(books, run, 0) == books && S.RecordedTimes(books, run, 1) == S.Recorded(books, run);
  }

  /** One try: the run recorded, and the row finished with the due time that gives, as far as the database lets it. */
  method TryBookkeeping(tenant: TenantRow, stats: S.SchedulerStats, token: P.Token, run: S.Run, finishedAt: int,
                        call: Call, fate: Fate)
    modifies tenant, stats
    ensures stats.Contents() == if Records(fate) then S.Recorded(old(stats.Contents()), run) else old(stats.Contents())
    ensures tenant.Columns() == if Finishes(fate)
                                then P.Finished(old(tenant.Columns()), token,
                                                DueAfter(token.run, finishedAt, call,
                                                    S.Recorded(old(stats.Contents()), run)))
                                else old(tenant.Columns())
  {
    if fate != FailsFirst {
      var streak := stats.RecordRun(run);
      if fate != RecordsThenFails {
        tenant.Finish(token, Clock.NextDueAfterRun(token.run, finishedAt, SummaryOf(call), streak));
      }
    }
  }

  /**
   * The run's bookkeeping under withRetries. However its tries fail, the run is
   * recorded once if any try recorded it, and the row is finished once, with
   * the due time that one recording gives, if any try finished it.
   */
  method Bookkeep(tenant: TenantRow, stats: S.SchedulerStats, token: P.Token, run: S.Run, finishedAt: int,
                  call: Call, fates: seq<Fate>)
    requires |fates| >= TRIES
    modifies tenant, stats
    ensures stats.Contents() ==
            if Recorded(fates, TriesMade(fates, 0)) then S.Recorded(old(stats.Contents()), run)
                else old(stats.Contents())
    ensures tenant.Columns() ==
            if Finished(fates, TriesMade(fates, 0))
            then P.Finished(old(tenant.Columns()), token,
                DueAfter(token.run, finishedAt, call, S.Recorded(old(stats.Contents()), run)))
            else old(tenant.Columns())
  {
    var i := 0;
    ghost var books, row := stats.Contents(), tenant.Columns();
    ghost var once := S.Recorded(books, run);
    RecordedAgain(books, run);
    var working := true;
    while working
      invariant 0 <= i <= TRIES
      invariant working ==> i < TRIES && TriesMade(fates, i) == TriesMade(fates, 0)
      invariant !working ==> i == TriesMade(fates, 0)
      invariant stats.Contents() == if Recorded(fates, i) then once else books
      invariant tenant.Columns() == if Finished(fates, i)
                then P.Finished(row, token, DueAfter(token.run, finishedAt, call, once)) else row
      decreases working, TRIES - i
    {
      NextTry(fates, i);
      TryBookkeeping(tenant, stats, token, run, finishedAt, call, fates[i]);
      i := i + 1;
      working := fates[i - 1] != Works && i < TRIES;
    }
  }

  /** The due time a recorded run gives: the streak is the one the books hold after it. */
  function DueAfter(tick: int, finishedAt: int, call: Call, books: S.Books): int
    requires books.stats.Some?
  {
    Clock.NextDueAfterRun(tick, finishedAt, SummaryOf(call), books.stats.value.streak)
  }

  // ----- what a recorded delivery leaves ------------------------------------------

  predicate AnsweredRan(call: Call) { call.Answered? && call.summary.outcome.Ran? }

  predicate AnsweredBusy(call: Call) { call.Answered? && call.summary.outcome.LeaseBusy? }

  /** No answer in time, or one that isn't a summary, or a run that failed. */
  predicate Fails(call: Call) { call.Answered? ==> call.summary.outcome.Failed? }

  /** The platform's word for it: the tenant's own outcome, or what went wrong with the call. */
  predicate NamedBy(outcome: S.RunOutcome, call: Call) {
    && (outcome == S.Ran <==> AnsweredRan(call)) && (outcome == S.LeaseBusy <==> AnsweredBusy(call))
    && (outcome == S.Failed <==> call.Answered? && Fails(call))
    && (outcome == S.NoAnswer <==> call.NoAnswer?) && (outcome == S.TimedOut <==> call.TimedOut?)
  }

  /** The failures in a row on the books. */
  function StreakOn(books: S.Books): nat { if books.stats.Some? then books.stats.value.streak else 0 }

  function LastOkOn(books: S.Books): Option<int> { if books.stats.Some? then books.stats.value.lastOkAt else None }

  /** What the day of a run had counted before it: nothing, when the day is new. */
  function CountedBefore(books: S.Books, startedAt: int): S.Day {
    if books.stats.Some? && startedAt / 86_400_000 <= books.stats.value.day then books.stats.value.today
    else S.Day(0, 0, 0, 0, 0, 0, 0)
  }

  /** The run's day after it, counter by counter: each up by what the run did, and the longest run kept. */
  predicate CountsCall(before: S.Day, after: S.Day, startedAt: int, finishedAt: int, call: Call) {
    var ms := if finishedAt <= startedAt then 0 else finishedAt - startedAt;
    && after.runs == before.runs + 1 && after.errors == before.errors + (if Fails(call) then 1 else 0)
    && after.checked == before.checked + (if call.Answered? then call.checked else 0)
    && after.failures == before.failures + (if call.Answered? then call.failures else 0)
    && after.d1Queries == before.d1Queries + (if call.Answered? then call.d1Queries else 0)
    && after.totalMs == before.totalMs + ms
    && after.maxMs >= before.maxMs && after.maxMs >= ms && (after.maxMs == before.maxMs || after.maxMs == ms)
  }

  /**
   * A failed call adds one to the streak, one that ran ends it and is the last
   * clean one, one that found the lease taken leaves both; and its day counts it.
   * A run that is on the books already changes nothing in the row.
   */
  predicate Leaves(before: S.Books, after: S.Books, runId: int, startedAt: int, finishedAt: int, call: Call) {
    if before.stats.Some? && before.stats.value.lastRunId == runId then after.stats == before.stats
    else
      && after.stats.Some?
      && var s := after.stats.value;
      && s.lastRunId == runId && s.lastAt == startedAt && NamedBy(s.lastOutcome, call)
      && s.streak == (if AnsweredRan(call) then 0 else if Fails(call) then StreakOn(before) + 1 else StreakOn(before))
      && s.lastOkAt == (if AnsweredRan(call) then Some(startedAt) else LastOkOn(before))
      && CountsCall(CountedBefore(before, startedAt), s.today, startedAt, finishedAt, call)
  }

  lemma RecordNames(runId: int, startedAt: int, finishedAt: int, call: Call)
    ensures var run := RecordOf(runId, startedAt, finishedAt, call);
            && run.runId == runId && run.at == startedAt && NamedBy(run.outcome, call)
            && run.durationMs == (if finishedAt <= startedAt then 0 else finishedAt - startedAt)
            && run.checked == (if call.Answered? then call.checked else 0)
            && run.failures == (if call.Answered? then call.failures else 0)
            && run.d1Queries == (if call.Answered? then call.d1Queries else 0)
  {
  }

  lemma RecordingLeavesDay(books: S.Books, runId: int, startedAt: int, finishedAt: int, call: Call)
    requires books.stats.Some? ==> books.stats.value.lastRunId != runId
    ensures var after := S.Recorded(books, RecordOf(runId, startedAt, finishedAt, call));
            after.stats.Some? && CountsCall(CountedBefore(books, startedAt), after.stats.value.today,
                                            startedAt, finishedAt, call)
  {
    RecordNames(runId, startedAt, finishedAt, call);
  }

  lemma RecordingLeaves(books: S.Books, runId: int, startedAt: int, finishedAt: int, call: Call)
    ensures Leaves(books, S.Recorded(books, RecordOf(runId, startedAt, finishedAt, call)),
                   runId, startedAt, finishedAt, call)
  {
    RecordNames(runId, startedAt, finishedAt, call);
    if !(books.stats.Some? && books.stats.value.lastRunId == runId) {
      RecordingLeavesDay(books, runId, startedAt, finishedAt, call);
    }
  }

  /** How long a tenant waits that has failed so often in a row before: 1, 2, 4, 8 minutes, then 12. */
  function WaitMinutes(before: nat): int {
    if before == 0 then 1 else if before == 1 then 2 else if before == 2 then 4 else if before == 3 then 8 else 12
  }

  /** The failures in a row before this run; on the books already, it is one of them itself. */
  function FailedBefore(before: S.Books, tick: int): nat {
    if before.stats.Some? && before.stats.value.lastRunId == tick && StreakOn(before) > 0 then StreakOn(before) - 1
    else StreakOn(before)
  }

  /**
   * When a tenant is due again after a delivery of a tick's run: after a failure,
   * by the failures in a row the books held before it; otherwise on the first
   * later tick not before the time the run asked for.
   */
  ghost predicate DueAgain(next: int, before: S.Books, tick: int, finishedAt: int, call: Call) {
    if Fails(call) then next == Clock.CurrentTick(tick) + WaitMinutes(FailedBefore(before, tick)) * 60_000
    else forall t | Clock.IsTick(t) ::
        t >= next <==> t >= Clock.CurrentTick(tick) + 60_000 && Clock.NotBeforeAsked(t, tick, finishedAt, call.summary)
  }

  lemma FinishMakesDue(books: S.Books, tick: int, startedAt: int, finishedAt: int, call: Call)
    ensures DueAgain(DueAfter(tick, finishedAt, call, S.Recorded(books, RecordOf(tick, startedAt, finishedAt, call))),
                     books, tick, finishedAt, call)
  {
    var after := S.Recorded(books, RecordOf(tick, startedAt, finishedAt, call));
    RecordingLeaves(books, tick, startedAt, finishedAt, call);
    if Fails(call) {
      Clock.FailureBacksOff(tick, finishedAt, SummaryOf(call), after.stats.value.streak);
    } else {
      forall t | Clock.IsTick(t)
        ensures t >= DueAfter(tick, finishedAt, call, after)
           <==> t >= Clock.CurrentTick(tick) + 60_000 && Clock.NotBeforeAsked(t, tick, finishedAt, call.summary)
      {
        Clock.DueIsFirstTickNotBefore(tick, finishedAt, call.summary, after.stats.value.streak, t);
      }
    }
  }

  datatype Result = Skipped(reason: Reason) | RanWith(outcome: S.RunOutcome)

  datatype Reason = Stale | NotRunnable | Duplicate

  /**
   * One delivery with nothing between its steps: a stale, duplicate or
   * unrunnable one calls nobody and changes nothing; any other starts, calls
   * once, and leaves the tenant free with its next due time whenever one try
   * at the bookkeeping finishes.
   */
  method RunOne(tenant: TenantRow, stats: S.SchedulerStats, runId: int, attempts: nat, timeout: int,
                startedAt: int, finishedAt: int, call: Call, fates: seq<Fate>)
    returns (result: Result, calls: nat)
    requires |fates| >= TRIES
    modifies tenant, stats
    ensures var before := old(tenant.Columns());
            var token := P.Token(runId, Max(1, attempts));
            if before.claim != Some(runId) then result == Skipped(Stale) && calls == 0
            else if !before.schedulable then result == Skipped(NotRunnable) && calls == 0
            else if before.running == Some(token) then result == Skipped(Duplicate) && calls == 0
            else result.RanWith? && NamedBy(result.outcome, call) && calls == 1
    ensures result.Skipped? ==> tenant.Columns() == old(tenant.Columns()) && stats.Contents() == old(stats.Contents())
    ensures result.RanWith? ==>
              var once := S.Recorded(old(stats.Contents()), RecordOf(runId, startedAt, finishedAt, call));
              var made := TriesMade(fates, 0);
              && stats.Contents() == (if Recorded(fates, made) then once else old(stats.Contents()))
              && tenant.Columns() == if Finished(fates, made)
                  then P.Row(DueAfter(runId, finishedAt, call, once), None, None, None, true)
                                     else P.Started(old(tenant.Columns()), P.Token(runId, Max(1, attempts)),
                                         startedAt, timeout)
    ensures result.RanWith? && Recorded(fates, TriesMade(fates, 0)) ==>
              Leaves(old(stats.Contents()), stats.Contents(), runId, startedAt, finishedAt, call)
    ensures result.RanWith? && Finished(fates, TriesMade(fates, 0)) ==>
              DueAgain(tenant.nextAt, old(stats.Contents()), runId, finishedAt, call)
  {
    calls := 0;
    if tenant.claim != Some(runId) { return Skipped(Stale), calls; }
    if !tenant.schedulable { return Skipped(NotRunnable), calls; }
    var token := P.Token(runId, Max(1, attempts));
    var started := tenant.Start(token, startedAt, timeout);
    if !started { return Skipped(Duplicate), calls; }
    calls := calls + 1;
    RecordingLeaves(stats.Contents(), runId, startedAt, finishedAt, call);
    FinishMakesDue(stats.Contents(), runId, startedAt, finishedAt, call);
    Bookkeep(tenant, stats, token, RecordOf(runId, startedAt, finishedAt, call), finishedAt, call, fates);
    result := RanWith(OutcomeOf(call));
  }
}
