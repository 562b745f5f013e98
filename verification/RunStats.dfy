/**
 * The numbers kept for each scheduled run (platform/src/scheduling.ts,
 * recordRun): scheduler_stats, one row per tenant rewritten by each run, and
 * scheduler_days, one row per UTC day a tenant moved past. Recording is
 * retried after a database failure, so the two statements must be idempotent.
 */
module RunStats {
  import opened Common

  const DAY_MS: int := 86_400_000

  datatype RunOutcome = Ran | LeaseBusy | Failed | NoAnswer | TimedOut

  /** One call as it is recorded. `runId` is the claim's run id, which names its tick. */
  datatype Run = Run(runId: int, at: int, outcome: RunOutcome, durationMs: nat, checked: nat, failures: nat,
      d1Queries: nat)

  /** A day's counters; `maxMs` is a maximum, the others are sums. */
  datatype Day = Day(runs: nat, errors: nat, checked: nat, failures: nat, d1Queries: nat, totalMs: nat, maxMs: nat)

  datatype Stats = Stats(lastRunId: int, lastAt: int, lastOutcome: RunOutcome, lastOkAt: Option<int>, streak: nat,
      day: int, today: Day)

  /** One row of scheduler_days; (tenant, day) is its primary key. */
  datatype DayRow = DayRow(day: int, counts: Day)

  /** Both tables, for one tenant. */
  datatype Books = Books(stats: Option<Stats>, days: seq<DayRow>)

  const NoDay: Day := Day(0, 0, 0, 0, 0, 0, 0)

  const EmptyBooks: Books := Books(None, [])

  predicate CountsAsFailure(o: RunOutcome) { o != Ran && o != LeaseBusy }

  function DayOf(at: int): int { at / DAY_MS }

  /** What one run adds to its day. */
  function Alone(run: Run): Day {
    var errors := if CountsAsFailure(run.outcome) then 1 else 0;
    Day(1, errors, run.checked, run.failures, run.d1Queries, run.durationMs, run.durationMs)
  }

  function Plus(a: Day, b: Day): Day {
    Day(a.runs + b.runs, a.errors + b.errors, a.checked + b.checked, a.failures + b.failures,
        a.d1Queries + b.d1Queries, a.totalMs + b.totalMs, if a.maxMs >= b.maxMs then a.maxMs else b.maxMs)
  }

  // ----- the two statements, as the database runs them --------------------

  predicate HasDay(days: seq<DayRow>, day: int) { exists i :: 0 <= i < |days| && days[i].day == day }

  function Rolled(b: Books, day: int): Books {
    if b.stats.Some? && b.stats.value.day < day && !HasDay(b.days, b.stats.value.day)
    then b.(days := b.days + [DayRow(b.stats.value.day, b.stats.value.today)]) else b
  }

  function NextStreak(outcome: RunOutcome, streak: nat): nat {
    if outcome == Ran then 0 else if outcome == LeaseBusy then streak else streak + 1
  }

  function Recorded(before: Books, run: Run): Books {
    var day := DayOf(run.at);
    var b := Rolled(before, day);
    var ok := if run.outcome == Ran then Some(run.at) else None;
    match b.stats
    case None =>
      var streak := if CountsAsFailure(run.outcome) then 1 else 0;
      b.(stats := Some(Stats(run.runId, run.at, run.outcome, ok, streak, day, Alone(run))))
    case Some(s) =>
      if s.lastRunId == run.runId then b
      else
        var lastOkAt := if ok.Some? then ok else s.lastOkAt;
        var today := if day <= s.day then Plus(s.today, Alone(run)) else Alone(run);
        b.(stats := Some(Stats(run.runId, run.at, run.outcome, lastOkAt, NextStreak(run.outcome, s.streak),
                               if day >= s.day then day else s.day, today)))
  }

  /** The tables as the code holds them: rewritten in place by each recording. */
  class SchedulerStats {
    var stats: Option<Stats>
    var days: seq<DayRow>

    function Contents(): Books
      reads this
    {
      Books(stats, days)
    }

    constructor ()
      ensures Contents() == EmptyBooks
    {
      stats, days := None, [];
    }

    /** One batch: roll the day over, then insert or rewrite the row. Answers the failures in a row. */
    method RecordRun(run: Run) returns (streak: nat)
      modifies this
      ensures Contents() == Recorded(old(Contents()), run)
      ensures stats.Some? && streak == stats.value.streak
    {
      var day := DayOf(run.at);
      var ok := if run.outcome == Ran then Some(run.at) else None;
      if stats.Some? && stats.value.day < day && !HasDay(days, stats.value.day) {
        days := days + [DayRow(stats.value.day, stats.value.today)];
      }
      if stats.None? {
        streak := if CountsAsFailure(run.outcome) then 1 else 0;
        stats := Some(Stats(run.runId, run.at, run.outcome, ok, streak, day, Alone(run)));
        return;
      }
      var s := stats.value;
      if s.lastRunId == run.runId { return s.streak; }
      streak := NextStreak(run.outcome, s.streak);
      var today := if day <= s.day then Plus(s.today, Alone(run)) else Alone(run);
      stats := Some(Stats(run.runId, run.at, run.outcome, if ok.Some? then ok else s.lastOkAt, streak,
                          if day >= s.day then day else s.day, today));
    }
  }

  // ----- recording the same run again --------------------------------------

  function RecordedTimes(b: Books, run: Run, times: nat): Books {
    if times == 0 then b else Recorded(RecordedTimes(b, run, times - 1), run)
  }

  /** A retry straight after changes nothing, in either table. */
  lemma {:induction false} RetriesChangeNothing(b: Books, run: Run, times: nat)
    requires times >= 1
    ensures RecordedTimes(b, run, times) == Recorded(b, run)
  {
    if times > 1 {
      RetriesChangeNothing(b, run, times - 1);
      var once := Recorded(b, run);
      var b1 := Rolled(b, DayOf(run.at));
      if once.stats.value.day < DayOf(run.at) {
        assert once.days == b1.days && HasDay(once.days, once.stats.value.day) by {
          if !HasDay(b.days, b.stats.value.day) { assert b1.days[|b.days|].day == b.stats.value.day; }
        }
      }
      assert Recorded(once, run) == once;
    } else {
      assert RecordedTimes(b, run, 0) == b;
    }
  }

  // ----- totals over any sequence of recordings ----------------------------

  /** Everything counted in the days rolled over. */
  function SumDays(days: seq<DayRow>): Day {
    if days == [] then NoDay else Plus(SumDays(days[..|days| - 1]), days[|days| - 1].counts)
  }

  /** The rolled days plus the day still being counted. */
  function Total(b: Books): Day {
    if b.stats.None? then SumDays(b.days) else Plus(SumDays(b.days), b.stats.value.today)
  }

  function SumRuns(runs: seq<Run>): Day {
    if runs == [] then NoDay else Plus(SumRuns(runs[..|runs| - 1]), Alone(runs[|runs| - 1]))
  }

  function RecordedAll(rs: seq<Run>): Books {
    if rs == [] then EmptyBooks else Recorded(RecordedAll(rs[..|rs| - 1]), rs[|rs| - 1])
  }

  predicate Repeats(rs: seq<Run>, i: nat)
    requires i < |rs|
  {
    i > 0 && rs[i].runId == rs[i - 1].runId
  }

  /** The recordings that are not of the run recorded just before them. */
  function Firsts(rs: seq<Run>): seq<Run> {
    if rs == [] then []
    else if Repeats(rs, |rs| - 1) then Firsts(rs[..|rs| - 1])
    else Firsts(rs[..|rs| - 1]) + [rs[|rs| - 1]]
  }

  /**
   * A repeated recording of a later UTC day than every recording before it: a
   * redelivery that called again past midnight.
   */
  predicate LateRepeat(rs: seq<Run>, i: nat)
    requires i < |rs|
  {
    Repeats(rs, i) && forall j | 0 <= j < i :: DayOf(rs[j].at) < DayOf(rs[i].at)
  }

  predicate NoLateRepeat(rs: seq<Run>) { forall i | 0 <= i < |rs| :: !LateRepeat(rs, i) }

  /** Whatever was recorded, the row names the last recording's run. */
  predicate NamesLast(b: Books, rs: seq<Run>) {
    if rs == [] then b == EmptyBooks else b.stats.Some? && b.stats.value.lastRunId == rs[|rs| - 1].runId
  }

  lemma {:induction false} RowNamesLast(rs: seq<Run>)
    ensures NamesLast(RecordedAll(rs), rs)
  {
    if rs != [] {
      RowNamesLast(rs[..|rs| - 1]);
    }
  }

  /** The row's day is the latest recorded, later than every day rolled over, and has counted a run. */
  ghost predicate RowIsLatest(b: Books, rs: seq<Run>) {
    b.stats.Some? ==>
      && b.stats.value.today.runs >= 1
      && (forall i | 0 <= i < |rs| :: DayOf(rs[i].at) <= b.stats.value.day)
      && (exists i :: 0 <= i < |rs| && DayOf(rs[i].at) == b.stats.value.day)
      && (forall i | 0 <= i < |b.days| :: b.days[i].day < b.stats.value.day)
  }

  lemma RecordingAddsOne(b: Books, run: Run)
    requires b.stats.Some? ==> b.stats.value.lastRunId != run.runId
    requires b.stats.Some? ==> forall i | 0 <= i < |b.days| :: b.days[i].day < b.stats.value.day
    ensures Total(Recorded(b, run)) == Plus(Total(b), Alone(run))
  {
    if b.stats.Some? && b.stats.value.day < DayOf(run.at) {
      var s := b.stats.value;
      assert (b.days + [DayRow(s.day, s.today)])[..|b.days|] == b.days;
    }
  }

  lemma LatestAfterOne(b: Books, init: seq<Run>, run: Run)
    requires NamesLast(b, init) && RowIsLatest(b, init) && !LateRepeat(init + [run], |init|)
    ensures RowIsLatest(Recorded(b, run), init + [run])
  {
    var rs := init + [run];
    assert rs[|init|] == run;
    if b.stats.Some? {
      var i :| 0 <= i < |init| && DayOf(init[i].at) == b.stats.value.day;
      assert rs[i] == init[i];
    }
  }

  lemma NoLateBefore(rs: seq<Run>, k: nat)
    requires k <= |rs| && NoLateRepeat(rs)
    ensures NoLateRepeat(rs[..k])
  {
    forall i | 0 <= i < k ensures !LateRepeat(rs[..k], i) {
      assert !LateRepeat(rs, i);
    }
  }

  lemma RepeatRecordsNothing(b: Books, init: seq<Run>, run: Run)
    requires NamesLast(b, init) && RowIsLatest(b, init)
    requires Repeats(init + [run], |init|) && !LateRepeat(init + [run], |init|)
    ensures Recorded(b, run) == b
  {
    var j :| 0 <= j < |init| && DayOf((init + [run])[j].at) >= DayOf(run.at);
    assert (init + [run])[j] == init[j];
  }

  /** The days rolled over and the current day sum to every run recorded, each once. */
  ghost predicate Conserved(rs: seq<Run>) { Total(RecordedAll(rs)) == SumRuns(Firsts(rs)) }

  lemma RecordedNext(init: seq<Run>, run: Run)
    ensures RecordedAll(init + [run]) == Recorded(RecordedAll(init), run)
  {
    assert (init + [run])[..|init|] == init;
  }

  lemma FirstsNext(init: seq<Run>, run: Run)
    ensures Firsts(init + [run]) == if Repeats(init + [run], |init|) then Firsts(init) else Firsts(init) + [run]
  {
    assert (init + [run])[..|init|] == init;
  }

  lemma SumNext(runs: seq<Run>, run: Run)
    ensures SumRuns(runs + [run]) == Plus(SumRuns(runs), Alone(run))
  {
    assert (runs + [run])[..|runs|] == runs;
  }

  lemma ConservedNext(init: seq<Run>, run: Run)
    requires Conserved(init) && NamesLast(RecordedAll(init), init) && RowIsLatest(RecordedAll(init), init)
    requires !LateRepeat(init + [run], |init|)
    ensures Conserved(init + [run])
  {
    RecordedNext(init, run);
    FirstsNext(init, run);
    if Repeats(init + [run], |init|) {
      RepeatRecordsNothing(RecordedAll(init), init, run);
    } else {
      RecordingAddsOne(RecordedAll(init), run);
      SumNext(Firsts(init), run);
    }
  }

  /** Recording conserves totals while no repeat is late. */
  lemma {:induction false} TotalsAreConserved(rs: seq<Run>)
    requires NoLateRepeat(rs)
    ensures Conserved(rs) && RowIsLatest(RecordedAll(rs), rs)
  {
    if rs != [] {
      var init, run := rs[..|rs| - 1], rs[|rs| - 1];
      assert rs == init + [run];
      NoLateBefore(rs, |init|);
      TotalsAreConserved(init);
      RowNamesLast(init);
      ConservedNext(init, run);
      RecordedNext(init, run);
      LatestAfterOne(RecordedAll(init), init, run);
    }
  }

  // ----- counter by counter ---------------------------------------------------

  /** The seven counters, each by its own name. */
  datatype Counter = Calls | Errors | MonitorsChecked | ChecksFailed | Queries | Milliseconds

  function Shown(day: Day, c: Counter): nat {
    match c
    case Calls => day.runs
    case Errors => day.errors
    case MonitorsChecked => day.checked
    case ChecksFailed => day.failures
    case Queries => day.d1Queries
    case Milliseconds => day.totalMs
  }

  /** What one run counts for: an error unless it ran or found the lease taken. */
  function Counts(run: Run, c: Counter): nat {
    match c
    case Calls => 1
    case Errors => (match run.outcome case Ran => 0 case LeaseBusy => 0 case _ => 1)
    case MonitorsChecked => run.checked
    case ChecksFailed => run.failures
    case Queries => run.d1Queries
    case Milliseconds => run.durationMs
  }

  function CountRuns(runs: seq<Run>, c: Counter): nat {
    if runs == [] then 0 else CountRuns(runs[..|runs| - 1], c) + Counts(runs[|runs| - 1], c)
  }

  /** What the console shows of a UTC day: its row, if it was rolled over, or the day still being counted. */
  function RowsOf(days: seq<DayRow>, day: int, c: Counter): nat {
    if days == [] then 0
    else RowsOf(days[..|days| - 1], day, c)
         + (var r := days[|days| - 1]; if r.day == day then Shown(r.counts, c) else 0)
  }

  function DayShows(b: Books, day: int, c: Counter): nat {
    RowsOf(b.days, day, c) + if b.stats.Some? && b.stats.value.day == day then Shown(b.stats.value.today, c) else 0
  }

  /** The latest UTC day among some recordings. */
  function LatestDay(rs: seq<Run>): int
    requires rs != []
  {
    var day := rs[|rs| - 1].at / 86_400_000;
    if |rs| == 1 then day else Max(day, LatestDay(rs[..|rs| - 1]))
  }

  /** What a UTC day should show: the runs first recorded while it was the latest. */
  function DayCounts(rs: seq<Run>, day: int, c: Counter): nat {
    if rs == [] then 0
    else DayCounts(rs[..|rs| - 1], day, c)
         + if !Repeats(rs, |rs| - 1) && LatestDay(rs) == day then Counts(rs[|rs| - 1], c) else 0
  }

  lemma RowsNext(days: seq<DayRow>, row: DayRow, day: int, c: Counter)
    ensures RowsOf(days + [row], day, c) == RowsOf(days, day, c) + if row.day == day then Shown(row.counts, c) else 0
  {
    assert (days + [row])[..|days|] == days;
  }

  lemma {:induction false} NoRowsOf(days: seq<DayRow>, day: int, c: Counter)
    requires forall i | 0 <= i < |days| :: days[i].day != day
    ensures RowsOf(days, day, c) == 0
  {
    if days != [] { NoRowsOf(days[..|days| - 1], day, c); }
  }

  lemma {:induction false} LatestDayIs(rs: seq<Run>)
    requires rs != []
    ensures forall i | 0 <= i < |rs| :: DayOf(rs[i].at) <= LatestDay(rs)
    ensures exists i :: 0 <= i < |rs| && DayOf(rs[i].at) == LatestDay(rs)
  {
    var n := |rs| - 1;
    if n == 0 {
      assert DayOf(rs[0].at) == LatestDay(rs);
    } else {
      LatestDayIs(rs[..n]);
      if LatestDay(rs) == LatestDay(rs[..n]) {
        var i :| 0 <= i < n && DayOf(rs[..n][i].at) == LatestDay(rs);
        assert DayOf(rs[i].at) == LatestDay(rs);
      } else {
        assert DayOf(rs[n].at) == LatestDay(rs);
      }
      forall i | 0 <= i < |rs| ensures DayOf(rs[i].at) <= LatestDay(rs) {
        if i < n { assert rs[..n][i] == rs[i]; }
      }
    }
  }

  lemma FirstRecordingCounts(b: Books, run: Run, day: int, c: Counter)
    requires b == EmptyBooks
    ensures DayShows(Recorded(b, run), day, c) == if run.at / 86_400_000 == day then Counts(run, c) else 0
    ensures Recorded(b, run).stats.Some? && Recorded(b, run).stats.value.day == run.at / 86_400_000
  {
  }

  lemma SameDayCounts(b: Books, run: Run, day: int, c: Counter)
    requires b.stats.Some? && b.stats.value.lastRunId != run.runId && run.at / 86_400_000 <= b.stats.value.day
    ensures DayShows(Recorded(b, run), day, c)
         == DayShows(b, day, c) + if b.stats.value.day == day then Counts(run, c) else 0
    ensures Recorded(b, run).stats.Some? && Recorded(b, run).stats.value.day == b.stats.value.day
  {
  }

  lemma NewDayRolls(b: Books, run: Run)
    requires b.stats.Some? && b.stats.value.lastRunId != run.runId && b.stats.value.day < run.at / 86_400_000
    requires forall i | 0 <= i < |b.days| :: b.days[i].day < b.stats.value.day
    ensures var v := Recorded(b, run);
            && v.days == b.days + [DayRow(b.stats.value.day, b.stats.value.today)]
            && v.stats.Some? && v.stats.value.day == run.at / 86_400_000
            && forall c :: Shown(v.stats.value.today, c) == Counts(run, c)
  {
  }

  lemma NewDayCounts(b: Books, run: Run, day: int, c: Counter)
    requires b.stats.Some? && b.stats.value.lastRunId != run.runId && b.stats.value.day < run.at / 86_400_000
    requires forall i | 0 <= i < |b.days| :: b.days[i].day < b.stats.value.day
    ensures DayShows(Recorded(b, run), day, c)
         == DayShows(b, day, c) + if run.at / 86_400_000 == day then Counts(run, c) else 0
    ensures Recorded(b, run).stats.Some? && Recorded(b, run).stats.value.day == run.at / 86_400_000
  {
    NewDayRolls(b, run);
    RowsNext(b.days, DayRow(b.stats.value.day, b.stats.value.today), day, c);
    if day == run.at / 86_400_000 { NoRowsOf(b.days, day, c); }
  }

  lemma RowIsLatestDay(b: Books, rs: seq<Run>)
    requires RowIsLatest(b, rs) && b.stats.Some? && rs != []
    ensures b.stats.value.day == LatestDay(rs)
  {
    LatestDayIs(rs);
  }

  /**
   * Counter by counter, and day by day: while no repeat is late, every UTC day
   * shows exactly the runs first recorded while it was the latest one.
   */
  lemma {:induction false} EachDayHoldsItsRuns(rs: seq<Run>, day: int, c: Counter)
    requires NoLateRepeat(rs)
    ensures DayShows(RecordedAll(rs), day, c) == DayCounts(rs, day, c)
  {
    if rs != [] {
      var init, run := rs[..|rs| - 1], rs[|rs| - 1];
      assert rs == init + [run];
      NoLateBefore(rs, |init|);
      EachDayHoldsItsRuns(init, day, c);
      DayHoldsOneMore(init, run, day, c);
    }
  }

  lemma LatestDayNext(init: seq<Run>, run: Run)
    ensures LatestDay(init + [run]) == if init == [] then run.at / 86_400_000
                                       else Max(run.at / 86_400_000, LatestDay(init))
  {
    assert (init + [run])[..|init|] == init;
  }

  /** One recording adds the run to the day that is then the latest, and to no other. */
  lemma NewRunCounts(b: Books, init: seq<Run>, run: Run, day: int, c: Counter)
    requires NamesLast(b, init) && RowIsLatest(b, init) && !Repeats(init + [run], |init|)
    ensures DayShows(Recorded(b, run), day, c)
         == DayShows(b, day, c) + if LatestDay(init + [run]) == day then Counts(run, c) else 0
  {
    LatestDayNext(init, run);
    if init == [] {
      FirstRecordingCounts(b, run, day, c);
    } else {
      RowIsLatestDay(b, init);
      assert (init + [run])[|init| - 1] == init[|init| - 1];
      if run.at / 86_400_000 <= b.stats.value.day {
        SameDayCounts(b, run, day, c);
      } else {
        NewDayCounts(b, run, day, c);
      }
    }
  }

  lemma DayHoldsOneMore(init: seq<Run>, run: Run, day: int, c: Counter)
    requires NoLateRepeat(init) && !LateRepeat(init + [run], |init|)
    requires DayShows(RecordedAll(init), day, c) == DayCounts(init, day, c)
    ensures DayShows(RecordedAll(init + [run]), day, c) == DayCounts(init + [run], day, c)
  {
    assert (init + [run])[..|init|] == init;
    RowNamesLast(init);
    TotalsAreConserved(init);
    RecordedNext(init, run);
    if Repeats(init + [run], |init|) {
      RepeatRecordsNothing(RecordedAll(init), init, run);
    } else {
      NewRunCounts(RecordedAll(init), init, run, day, c);
    }
  }

  // ----- totals, by the same names -----

  /** The days rolled over and the current one, together. */
  function TotalShown(b: Books, c: Counter): nat {
    AllRows(b.days, c) + if b.stats.Some? then Shown(b.stats.value.today, c) else 0
  }

  function AllRows(days: seq<DayRow>, c: Counter): nat {
    if days == [] then 0 else AllRows(days[..|days| - 1], c) + Shown(days[|days| - 1].counts, c)
  }

  lemma {:induction false} SumsShown(days: seq<DayRow>, c: Counter)
    ensures Shown(SumDays(days), c) == AllRows(days, c)
  {
    if days != [] { SumsShown(days[..|days| - 1], c); }
  }

  lemma {:induction false} SumsCount(runs: seq<Run>, c: Counter)
    ensures Shown(SumRuns(runs), c) == CountRuns(runs, c)
  {
    if runs != [] { SumsCount(runs[..|runs| - 1], c); }
  }

  /** A duration that none of them exceeds, and one of them has. */
  ghost predicate IsLongest(ms: nat, runs: seq<Run>) {
    && (forall i | 0 <= i < |runs| :: runs[i].durationMs <= ms)
    && (if runs == [] then ms == 0 else exists i :: 0 <= i < |runs| && runs[i].durationMs == ms)
  }

  ghost predicate IsLargest(ms: nat, b: Books) {
    && (forall i | 0 <= i < |b.days| :: b.days[i].counts.maxMs <= ms)
    && (b.stats.Some? ==> b.stats.value.today.maxMs <= ms)
    && (ms == 0 || (exists i :: 0 <= i < |b.days| && b.days[i].counts.maxMs == ms)
        || (b.stats.Some? && b.stats.value.today.maxMs == ms))
  }

  lemma {:induction false} LongestRun(runs: seq<Run>)
    ensures IsLongest(SumRuns(runs).maxMs, runs)
  {
    if runs != [] {
      var n := |runs| - 1;
      LongestRun(runs[..n]);
      var ms := SumRuns(runs[..n]).maxMs;
      if n > 0 {
        var i :| 0 <= i < n && runs[..n][i].durationMs == ms;
        assert runs[i].durationMs == ms;
      }
      forall i | 0 <= i < n ensures runs[i].durationMs <= ms { assert runs[..n][i] == runs[i]; }
    }
  }

  lemma {:induction false} LargestRow(days: seq<DayRow>)
    ensures forall i | 0 <= i < |days| :: days[i].counts.maxMs <= SumDays(days).maxMs
    ensures SumDays(days).maxMs == 0
            || exists i :: 0 <= i < |days| && days[i].counts.maxMs == SumDays(days).maxMs
  {
    if days != [] {
      var n := |days| - 1;
      LargestRow(days[..n]);
      var ms := SumDays(days[..n]).maxMs;
      if ms > 0 {
        var i :| 0 <= i < n && days[..n][i].counts.maxMs == ms;
        assert days[i].counts.maxMs == ms;
      }
      forall i | 0 <= i < n ensures days[i].counts.maxMs <= ms { assert days[..n][i] == days[i]; }
    }
  }

  lemma TotalShows(b: Books, c: Counter)
    ensures TotalShown(b, c) == Shown(Total(b), c)
  {
    SumsShown(b.days, c);
  }

  /**
   * While no repeat is late, the days and the current one together show, counter
   * by counter, the runs recorded: how many, how many that neither ran nor found
   * the lease taken, and their checks, failures, queries and milliseconds.
   */
  lemma EachCounterIsConserved(rs: seq<Run>, c: Counter)
    requires NoLateRepeat(rs)
    ensures TotalShown(RecordedAll(rs), c) == CountRuns(Firsts(rs), c)
  {
    TotalsAreConserved(rs);
    TotalShows(RecordedAll(rs), c);
    SumsCount(Firsts(rs), c);
  }

  lemma TotalIsLargest(b: Books)
    ensures IsLargest(Total(b).maxMs, b)
  {
    LargestRow(b.days);
  }

  /** And the longest run of them all is the longest any day shows. */
  lemma LongestIsConserved(rs: seq<Run>, ms: nat)
    requires NoLateRepeat(rs)
    ensures IsLongest(ms, Firsts(rs)) <==> IsLargest(ms, RecordedAll(rs))
  {
    TotalsAreConserved(rs);
    var longest := SumRuns(Firsts(rs)).maxMs;
    LongestRun(Firsts(rs));
    TotalIsLargest(RecordedAll(rs));
    if IsLongest(ms, Firsts(rs)) { OneLongest(Firsts(rs), ms, longest); }
    if IsLargest(ms, RecordedAll(rs)) { OneLargest(RecordedAll(rs), ms, longest); }
  }

  lemma OneLargest(b: Books, ms: nat, other: nat)
    requires IsLargest(ms, b) && IsLargest(other, b)
    ensures ms == other
  {
  }

  lemma OneLongest(runs: seq<Run>, ms: nat, other: nat)
    requires IsLongest(ms, runs) && IsLongest(other, runs)
    ensures ms == other
  {
  }

  /** A second recording of the row's run, on a later day, adds that day's row and changes nothing else. */
  lemma LateRepeatRolls(b: Books, run: Run)
    requires b.stats.Some? && b.stats.value.lastRunId == run.runId && b.stats.value.day < DayOf(run.at)
    requires forall i | 0 <= i < |b.days| :: b.days[i].day < b.stats.value.day
    ensures Total(Recorded(b, run)).runs == Total(b).runs + b.stats.value.today.runs
  {
    var row := DayRow(b.stats.value.day, b.stats.value.today);
    assert (b.days + [row])[..|b.days|] == b.days;
  }

  /** The first late repeat rolls the current day over although it stays current, so that day shows twice. */
  lemma LateRepeatShowsTwice(rs: seq<Run>)
    requires rs != [] && NoLateRepeat(rs[..|rs| - 1]) && LateRepeat(rs, |rs| - 1)
    ensures Total(RecordedAll(rs)).runs > SumRuns(Firsts(rs)).runs
  {
    var init, run := rs[..|rs| - 1], rs[|rs| - 1];
    TotalsAreConserved(init);
    RowNamesLast(init);
    LaterThanRow(RecordedAll(init), init, run);
    LateRepeatRolls(RecordedAll(init), run);
  }

  lemma LaterThanRow(b: Books, init: seq<Run>, run: Run)
    requires b.stats.Some? && RowIsLatest(b, init) && forall j | 0 <= j < |init| :: DayOf(init[j].at) < DayOf(run.at)
    ensures b.stats.value.day < DayOf(run.at)
  {
    var i :| 0 <= i < |init| && DayOf(init[i].at) == b.stats.value.day;
  }

  lemma {:induction false} FirstLateRepeat(rs: seq<Run>) returns (k: nat)
    requires !NoLateRepeat(rs)
    ensures 0 < k <= |rs| && NoLateRepeat(rs[..k - 1]) && LateRepeat(rs[..k], k - 1)
  {
    var init := rs[..|rs| - 1];
    if NoLateRepeat(init) {
      forall i | 0 <= i < |init| ensures !LateRepeat(rs, i) { assert !LateRepeat(init, i); }
      k := |rs|;
      assert rs[..k] == rs;
    } else {
      k := FirstLateRepeat(init);
      assert init[..k] == rs[..k] && init[..k - 1] == rs[..k - 1];
    }
  }

  /** Totals are conserved all along exactly when no repeat is later than every recording before it. */
  lemma ConservedIff(rs: seq<Run>)
    ensures (forall k: nat | k <= |rs| :: Conserved(rs[..k])) <==> NoLateRepeat(rs)
  {
    if NoLateRepeat(rs) {
      forall k: nat | k <= |rs| ensures Conserved(rs[..k]) {
        NoLateBefore(rs, k);
        TotalsAreConserved(rs[..k]);
      }
    } else {
      var k := FirstLateRepeat(rs);
      assert rs[..k][..k - 1] == rs[..k - 1];
      LateRepeatShowsTwice(rs[..k]);
      assert !Conserved(rs[..k]);
    }
  }

  /** The position of the last clean run, or -1. */
  function LastClean(runs: seq<Run>): int {
    if runs == [] then -1
    else if runs[|runs| - 1].outcome == Ran then |runs| - 1
    else LastClean(runs[..|runs| - 1])
  }

  lemma LastCleanIsLast(runs: seq<Run>)
    ensures -1 <= LastClean(runs) < |runs|
    ensures LastClean(runs) >= 0 ==> runs[LastClean(runs)].outcome == Ran
    ensures forall i | LastClean(runs) < i < |runs| :: runs[i].outcome != Ran
  {
  }

  function FailureCount(runs: seq<Run>): nat {
    if runs == [] then 0
    else FailureCount(runs[..|runs| - 1]) + (if CountsAsFailure(runs[|runs| - 1].outcome) then 1 else 0)
  }

  /** The failing runs since the last clean one; a lease_busy run counts neither way. */
  function FailuresSinceClean(runs: seq<Run>): nat {
    LastCleanIsLast(runs);
    FailureCount(runs[LastClean(runs) + 1..])
  }

  lemma SinceCleanSteps(runs: seq<Run>, run: Run)
    ensures FailuresSinceClean(runs + [run]) == NextStreak(run.outcome, FailuresSinceClean(runs))
  {
    LastCleanIsLast(runs);
    assert (runs + [run])[..|runs|] == runs;
    if run.outcome == Ran {
      assert (runs + [run])[|runs| + 1..] == [];
    } else {
      var tail := runs[LastClean(runs) + 1..];
      assert (runs + [run])[LastClean(runs) + 1..] == tail + [run];
      assert (tail + [run])[..|tail|] == tail;
    }
  }

  /**
   * The stored streak is the failing runs since the last clean one, however often
   * and late each recording was repeated.
   */
  lemma {:induction false} StreakCountsFailures(rs: seq<Run>)
    requires rs != []
    ensures RecordedAll(rs).stats.Some?
    ensures RecordedAll(rs).stats.value.streak == FailuresSinceClean(Firsts(rs))
  {
    var init, run := rs[..|rs| - 1], rs[|rs| - 1];
    RowNamesLast(init);
    if init == [] {
      StreakOfOne(rs);
    } else {
      StreakCountsFailures(init);
      StreakStep(RecordedAll(init), run);
      SinceCleanSteps(Firsts(init), run);
    }
  }

  lemma StreakOfOne(rs: seq<Run>)
    requires |rs| == 1
    ensures RecordedAll(rs).stats.Some?
    ensures RecordedAll(rs).stats.value.streak == FailuresSinceClean(Firsts(rs))
  {
    assert rs[..0] == [] && Firsts(rs[..0]) == [] && RecordedAll(rs[..0]) == EmptyBooks;
    StreakBegins(rs[0]);
    SinceCleanSteps([], rs[0]);
  }

  lemma StreakBegins(run: Run)
    ensures Recorded(EmptyBooks, run).stats.Some?
    ensures Recorded(EmptyBooks, run).stats.value.streak == NextStreak(run.outcome, 0)
  {
  }

  lemma StreakStep(b: Books, run: Run)
    requires b.stats.Some?
    ensures var s := b.stats.value;
            Recorded(b, run).stats.Some? &&
            Recorded(b, run).stats.value.streak == if s.lastRunId == run.runId then s.streak
                else NextStreak(run.outcome, s.streak)
  {
  }

  /** When the last clean run was, if any was. */
  function LastCleanAt(runs: seq<Run>): Option<int> {
    if runs == [] then None
    else if runs[|runs| - 1].outcome == Ran then Some(runs[|runs| - 1].at)
    else LastCleanAt(runs[..|runs| - 1])
  }

  /** What the row says of its last run, and of the last clean one. */
  predicate RowShows(b: Books, firsts: seq<Run>) {
    && b.stats.Some? && firsts != []
    && b.stats.value.lastAt == firsts[|firsts| - 1].at && b.stats.value.lastOutcome == firsts[|firsts| - 1].outcome
    && b.stats.value.lastOkAt == LastCleanAt(firsts)
  }

  lemma RowShowsNext(b: Books, firsts: seq<Run>, run: Run)
    requires if firsts == [] then b == EmptyBooks else RowShows(b, firsts) && b.stats.value.lastRunId != run.runId
    ensures RowShows(Recorded(b, run), firsts + [run])
  {
    assert (firsts + [run])[..|firsts|] == firsts;
  }

  lemma RepeatShowsTheSame(b: Books, firsts: seq<Run>, run: Run)
    requires RowShows(b, firsts) && b.stats.value.lastRunId == run.runId
    ensures RowShows(Recorded(b, run), firsts)
  {
  }

  /**
   * However often and late recordings are repeated, the row shows when the last
   * run was and what became of it, and when the last clean one was.
   */
  lemma {:induction false} RowShowsLastRuns(rs: seq<Run>)
    requires rs != []
    ensures RowShows(RecordedAll(rs), Firsts(rs))
  {
    var init, run := rs[..|rs| - 1], rs[|rs| - 1];
    RowNamesLast(init);
    assert rs == init + [run];
    FirstsNext(init, run);
    if init == [] {
      RowShowsNext(EmptyBooks, [], run);
    } else {
      RowShowsLastRuns(init);
      if Repeats(rs, |init|) {
        RepeatShowsTheSame(RecordedAll(init), Firsts(init), run);
      } else {
        RowShowsNext(RecordedAll(init), Firsts(init), run);
      }
    }
  }

  function Ids(runs: seq<Run>): set<int> { set r | r in runs :: r.runId }

  /** A run's recordings are not interleaved with another run's. */
  predicate NoRunReturns(rs: seq<Run>) {
    forall i, j | 0 <= i < j < |Firsts(rs)| :: Firsts(rs)[i].runId != Firsts(rs)[j].runId
  }

  lemma {:induction false} FirstsCoverRuns(rs: seq<Run>)
    ensures Ids(Firsts(rs)) == Ids(rs)
  {
    if rs != [] {
      var init := rs[..|rs| - 1];
      FirstsCoverRuns(init);
      assert rs == init + [rs[|rs| - 1]];
      assert Ids(rs) == Ids(init) + {rs[|rs| - 1].runId};
      if Repeats(rs, |rs| - 1) {
        assert init[|init| - 1] in init && init[|init| - 1].runId == rs[|rs| - 1].runId;
      } else {
        assert Ids(Firsts(rs)) == Ids(Firsts(init)) + {rs[|rs| - 1].runId};
      }
    }
  }

  predicate Distinct(runs: seq<Run>) { forall i, j | 0 <= i < j < |runs| :: runs[i].runId != runs[j].runId }

  lemma DistinctNext(init: seq<Run>, last: Run)
    ensures Distinct(init + [last]) <==> Distinct(init) && last.runId !in Ids(init)
  {
    var runs := init + [last];
    if last.runId in Ids(init) {
      var i :| 0 <= i < |init| && init[i].runId == last.runId;
      assert runs[i].runId == runs[|init|].runId;
    } else {
      forall i | 0 <= i < |init| ensures init[i].runId != last.runId { assert init[i] in init; }
    }
    if Distinct(runs) {
      forall i, j | 0 <= i < j < |init| ensures init[i].runId != init[j].runId {
        assert runs[i].runId != runs[j].runId;
      }
    }
  }

  lemma IdsNext(init: seq<Run>, last: Run)
    ensures Ids(init + [last]) == Ids(init) + {last.runId}
  {
  }

  /** As many runs are counted as were recorded; as many as there are ids exactly when the ids differ. */
  lemma {:induction false} DistinctRunsCounted(runs: seq<Run>)
    ensures SumRuns(runs).runs == |runs| && |Ids(runs)| <= |runs|
    ensures |Ids(runs)| == |runs| <==> Distinct(runs)
  {
    if runs != [] {
      var init, last := runs[..|runs| - 1], runs[|runs| - 1];
      DistinctRunsCounted(init);
      assert runs == init + [last];
      IdsNext(init, last);
      DistinctNext(init, last);
    } else {
      assert Ids(runs) == {};
    }
  }

  /**
   * While no repeat is late, the counted runs are the distinct runs recorded
   * exactly when no run's recordings are interleaved with another's.
   */
  lemma CountedRunsAreDistinctRuns(rs: seq<Run>)
    requires NoLateRepeat(rs)
    ensures Total(RecordedAll(rs)).runs == |Ids(rs)| <==> NoRunReturns(rs)
  {
    TotalsAreConserved(rs);
    FirstsCoverRuns(rs);
    DistinctRunsCounted(Firsts(rs));
    assert Distinct(Firsts(rs)) == NoRunReturns(rs);
  }

  lemma {:induction false} FirstsGrow(rs: seq<Run>, k: nat)
    requires k <= |rs|
    ensures Firsts(rs[..k]) <= Firsts(rs)
  {
    if k == |rs| {
      assert rs[..k] == rs;
    } else {
      FirstsGrow(rs[..|rs| - 1], k);
      assert rs[..|rs| - 1][..k] == rs[..k];
    }
  }

  predicate CountsRuns(rs: seq<Run>) { Total(RecordedAll(rs)).runs == |Ids(rs)| }

  /**
   * All along, the counted runs are the distinct runs recorded exactly when no
   * repeat is late and no run's recordings are interleaved.
   */
  lemma CountedIff(rs: seq<Run>)
    ensures (forall k: nat | k <= |rs| :: CountsRuns(rs[..k])) <==> NoLateRepeat(rs) && NoRunReturns(rs)
  {
    if NoLateRepeat(rs) {
      forall k: nat | k <= |rs| && NoRunReturns(rs) ensures CountsRuns(rs[..k]) {
        NoLateBefore(rs, k);
        FirstsGrow(rs, k);
        CountedRunsAreDistinctRuns(rs[..k]);
      }
      CountedRunsAreDistinctRuns(rs);
      assert rs[..|rs|] == rs;
    } else {
      var k := FirstLateRepeat(rs);
      assert rs[..k][..k - 1] == rs[..k - 1];
      LateRepeatShowsTwice(rs[..k]);
      FirstsCoverRuns(rs[..k]);
      DistinctRunsCounted(Firsts(rs[..k]));
      assert !CountsRuns(rs[..k]);
    }
  }

  /** A retry that lands after another run's recording counts its run twice. */
  lemma InterleavedRetryCountsTwice()
    ensures var a := Run(1, 0, Ran, 0, 0, 0, 0); var b := Run(2, 0, Ran, 0, 0, 0, 0);
            NoLateRepeat([a, b, a]) && Total(RecordedAll([a, b, a])).runs == 3 && Ids([a, b, a]) == {1, 2}
  {
    var a, b := Run(1, 0, Ran, 0, 0, 0, 0), Run(2, 0, Ran, 0, 0, 0, 0);
    var rs := [a, b, a];
    assert rs[..2] == [a, b] && [a, b][..1] == [a] && [a][..0] == [];
    assert Firsts([a]) == [a] && Firsts([a, b]) == [a, b] && Firsts(rs) == rs;
    assert Ids(rs) == {1, 2} by { assert a in rs && b in rs; }
    TotalsAreConserved(rs);
    DistinctRunsCounted(rs);
  }

  /**
   * And a redelivery that calls again after midnight, once its first call was
   * recorded: the day is rolled over while its row stays current, so it shows twice.
   */
  lemma RedeliveryPastMidnightShowsTwice()
    ensures var a := Run(1, 0, Ran, 0, 0, 0, 0); var again := Run(1, DAY_MS, Ran, 0, 0, 0, 0);
            Firsts([a, again]) == [a] && Total(RecordedAll([a, again])).runs == 2
  {
    var a, again := Run(1, 0, Ran, 0, 0, 0, 0), Run(1, DAY_MS, Ran, 0, 0, 0, 0);
    var rs := [a, again];
    assert rs[..1] == [a] && [a][..0] == [];
    assert Firsts([]) == [] && Firsts([a]) == [a] && Repeats(rs, 1);
    var b := Recorded(EmptyBooks, a);
    assert RecordedAll([]) == EmptyBooks && RecordedAll([a]) == b && RecordedAll(rs) == Recorded(b, again);
    LateRepeatRolls(b, again);
    assert b.days == [] && Total(b).runs == 1;
  }
}
