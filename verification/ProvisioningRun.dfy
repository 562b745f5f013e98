/**
 * One run of runProvisioning as it executes (platform/src/provisioning.ts):
 * the lease statements and the others update the row in place, and the loop
 * takes steps until the tenant is ready, waits, is paused or is gone. What
 * other hands do to the row between its steps is given, turn by turn.
 */
module ProvisioningRun {
  import opened Common
  import opened Provisioning

  /** No failure counts against it any more, and it is taken on as soon as no lease holds it; what it has stays its. */
  ghost predicate StartsAfresh(before: Row, after: Row) {
    && after.attempts == 0 && !after.paused && after.d1Id == before.d1Id && after.domain == before.domain
    && after.token == before.token && after.leaseUntil == before.leaseUntil
    && (after.state != Ready ==> forall later, force ::
        AcquireMatches(after, later, force) <==> before.leaseUntil.None? || later >= before.leaseUntil.value)
  }

  /** The tenant's row; each method is one statement. */
  class TenantTable {
    var row: Option<Row>

    constructor (r: Row)
      ensures row == Some(r)
    {
      row := Some(r);
    }

    method AcquireLease(token: nat, now: int, force: bool) returns (acquired: bool)
      modifies this
      ensures acquired == (old(row).Some? && AcquireMatches(old(row).value, now, force))
      ensures row == if acquired then Some(Acquired(old(row).value, token, now)) else old(row)
    {
      acquired := false;
      if row.Some? {
        var r := row.value;
        var free := r.leaseUntil.None? || r.leaseUntil.value <= now;
        if r.state != Ready && !r.paused && free && (force || r.nextAt.None? || r.nextAt.value <= now) {
          row := Some(r.(leaseUntil := Some(now + LEASE_MS), token := Some(token)));
          acquired := true;
        }
      }
    }

    method RenewLease(token: nat, now: int) returns (renewed: bool)
      modifies this
      ensures renewed == (old(row).Some? && old(row).value.token == Some(token))
      ensures row == if renewed then Some(Renewed(old(row).value, token, now)) else old(row)
    {
      renewed := row.Some? && row.value.token == Some(token);
      if renewed {
        row := Some(row.value.(leaseUntil := Some(now + LEASE_MS)));
      }
    }

    method ReleaseLease(token: nat)
      modifies this
      ensures row == if old(row).Some? then Some(Released(old(row).value, token)) else None
    {
      if row.Some? && row.value.token == Some(token) {
        row := Some(row.value.(leaseUntil := None, token := None));
      }
    }

    method AdvanceTo(token: nat, from: ProvisionState, d1Id: Option<nat>, domain: Option<nat>)
      modifies this
      ensures row == if old(row).Some? then Some(Advanced(old(row).value, token, from, d1Id, domain)) else None
    {
      if row.Some? && row.value.token == Some(token) && row.value.state == from {
        var r := row.value.(state := Next(from), attempts := 0, nextAt := None);
        if d1Id.Some? { r := r.(d1Id := d1Id); }
        if domain.Some? { r := r.(domain := Recorded(domain.value)); }
        row := Some(r);
      }
    }

    /** Answers whether this failure pauses the tenant for the owner. */
    method RecordFailure(token: nat, from: ProvisionState, attemptsBefore: nat, permanent: bool, now: int)
      returns (pause: bool)
      modifies this
      ensures pause == Pauses(from, attemptsBefore + 1, permanent)
      ensures row == if old(row).Some?
                     then Some(FailureRecorded(old(row).value, token, from, attemptsBefore, permanent, now)) else None
    {
      var attempts := attemptsBefore + 1;
      pause := from != Deleting && (permanent || attempts >= MAX_ATTEMPTS);
      if row.Some? && row.value.token == Some(token) && row.value.state == from {
        var nextAt := if pause then None else Some(now + BackoffMs(attempts));
        row := Some(row.value.(attempts := attempts, nextAt := nextAt, paused := pause));
      }
    }

    method MarkForRemoval(onlyIfPaused: bool) returns (changed: bool)
      modifies this
      ensures changed == (old(row).Some? && (!onlyIfPaused || (old(row).value.paused && old(row).value.state != Ready)))
      ensures row == if old(row).Some? then Some(MarkedForRemoval(old(row).value, onlyIfPaused)) else None
      ensures changed ==> row.value.state == Deleting && StartsAfresh(old(row).value, row.value)
    {
      changed := row.Some? && (!onlyIfPaused || (row.value.paused && row.value.state != Ready));
      if changed {
        row := Some(row.value.(state := Deleting, attempts := 0, nextAt := None, paused := false));
      }
    }

    method UnpauseProvisioning() returns (changed: bool)
      modifies this
      ensures changed == (old(row).Some? && old(row).value.paused)
      ensures row == if old(row).Some? then Some(Unpaused(old(row).value)) else None
      ensures changed ==> row.value.state == old(row).value.state && StartsAfresh(old(row).value, row.value)
    {
      changed := row.Some? && row.value.paused;
      if changed {
        row := Some(row.value.(paused := false, attempts := 0, nextAt := None));
      }
    }

    /** The end of a teardown: the row goes only while its lease is held. */
    method EraseRow(token: nat)
      modifies this
      ensures row == if old(row).Some? && old(row).value.token == Some(token) then None else old(row)
    {
      if row.Some? && row.value.token == Some(token) {
        row := None;
      }
    }
  }

  /** What happens around one turn of the loop: its step's fate, and other hands on the row before and during it. */
  datatype Turn = Turn(
    removedBefore: bool, removedDuring: bool, takenOverBy: Option<nat>,
    fails: Option<bool>, d1Id: nat, domain: nat)

  datatype Outcome = IsReady | Retry | Paused | Removed | Busy | Missing | DidNotSettle | NoStepFor(s: ProvisionState)

  predicate HasStep(s: ProvisionState) { s != Ready }

  /** Other hands between two awaits: a removal, or another run that took the lapsed lease. */
  method Meanwhile(table: TenantTable, removed: bool, takenOverBy: Option<nat>, now: int)
    modifies table
    ensures table.row.Some? <==> old(table.row).Some?
    ensures !removed && takenOverBy.None? ==> table.row == old(table.row)
    ensures table.row.Some? ==>
              && Rank(table.row.value.state) >= Rank(old(table.row).value.state)
              && table.row.value.token == (if takenOverBy.Some? then takenOverBy else old(table.row).value.token)
              && table.row.value.state == if removed then Deleting else old(table.row).value.state
  {
    if removed {
      var _ := table.MarkForRemoval(false);
    }
    if takenOverBy.Some? && table.row.Some? {
      table.row := Some(Acquired(table.row.value, takenOverBy.value, now));
    }
  }

  /** Nothing fails and nobody else touches the tenant in this turn. */
  predicate Quiet(turn: Turn) {
    !turn.removedBefore && !turn.removedDuring && turn.takenOverBy.None? && turn.fails.None?
  }

  predicate QuietFor(turns: seq<Turn>, n: nat) { n <= |turns| && forall i | 0 <= i < n :: Quiet(turns[i]) }

  predicate TakenOver(turns: seq<Turn>) { exists i :: 0 <= i < |turns| && turns[i].takenOverBy.Some? }

  predicate RemovedIn(turns: seq<Turn>) {
    exists i :: 0 <= i < |turns| && (turns[i].removedBefore || turns[i].removedDuring)
  }

  /** A turn after which the run takes no other: its step fails, or another run has the lease. */
  predicate Stops(turn: Turn) { turn.fails.Some? || turn.takenOverBy.Some? }

  /** A turn left the tenant where it was, or one state on, or being removed, as somebody asked. */
  predicate MovedOnce(was: ProvisionState, turn: Turn, after: ProvisionState) {
    || after == was
    || (after == Next(was) && SetUp(was) && !Stops(turn))
    || (after == Deleting && (turn.removedBefore || turn.removedDuring))
  }

  /** No turn that ends the run takes the tenant further than the turns before it. */
  predicate NoFurther(was: ProvisionState, turns: seq<Turn>, after: ProvisionState) {
    after == Deleting
        || forall i | 0 <= i < |turns| && Stops(turns[i]) :: Rank(after) <= Rank(was) + i
  }

  /** How far some turns can have taken a tenant, and that the run still holds it only if none of them stopped it. */
  predicate Within(was: ProvisionState, turns: seq<Turn>, n: nat, now: ProvisionState, held: bool) {
    && n <= |turns|
    && (now == Deleting ==> was == Deleting || RemovedIn(turns))
    && (now != Deleting ==> Rank(now) <= Rank(was) + n)
    && NoFurther(was, turns[..n], now)
    && (held ==> forall i | 0 <= i < n :: !Stops(turns[i]))
  }

  lemma WithinOneMore(was: ProvisionState, turns: seq<Turn>, n: nat, before: ProvisionState, now: ProvisionState)
    requires Within(was, turns, n, before, true) && n < |turns| && MovedOnce(before, turns[n], now)
    ensures Within(was, turns, n + 1, now, !Stops(turns[n]))
    ensures NoFurther(was, turns, now)
  {
  }

  lemma LostStaysWithin(was: ProvisionState, turns: seq<Turn>, n: nat, now: ProvisionState)
    requires Within(was, turns, n, now, false)
    ensures NoFurther(was, turns, now)
  {
  }

  predicate Fails(turns: seq<Turn>) { exists i :: 0 <= i < |turns| && turns[i].fails.Some? }

  /** Where a tenant being set up is after some quiet turns. */
  function RankAfter(s: ProvisionState, turns: nat): nat {
    if Rank(s) + turns <= Rank(Ready) then Rank(s) + turns else Rank(Ready)
  }

  /** The turns a tenant needs until a run finds it ready, or gone. */
  function TurnsNeeded(s: ProvisionState): nat { if s == Deleting then 1 else 1 + Rank(Ready) - Rank(s) }

  /** What a run that began on row `r` left, when its turns stayed quiet for as long as it says. */
  ghost predicate Progressed(r: Row, turns: seq<Turn>, outcome: Outcome, after: Option<Row>) {
    && (forall n: nat | QuietFor(turns, n) && after.Some? :: Rank(after.value.state) >= RankAfter(r.state, n))
    && (QuietFor(turns, TurnsNeeded(r.state)) ==>
          if r.state == Deleting then outcome == Removed && after.None?
          else outcome == IsReady && after.Some? && after.value.state == Ready && after.value.token.None?)
  }

  /** The same, after some of its turns and before its end. */
  predicate OnTrack(was: ProvisionState, turns: seq<Turn>, n: nat, now: ProvisionState, held: bool) {
    && (QuietFor(turns, n) ==> held && Rank(now) == Rank(was) + n && (was != Deleting ==> now != Deleting))
    && (QuietFor(turns, TurnsNeeded(was)) ==> n < TurnsNeeded(was))
    && (forall q: nat | q <= n && QuietFor(turns, q) :: Rank(now) >= RankAfter(was, q))
  }

  lemma OneMoreOnTrack(was: ProvisionState, turns: seq<Turn>, n: nat, before: ProvisionState, now: ProvisionState)
    requires OnTrack(was, turns, n, before, true) && n < |turns| && Rank(now) >= Rank(before)
    requires Quiet(turns[n]) ==> SetUp(before) && now == Next(before)
    ensures OnTrack(was, turns, n + 1, now, turns[n].takenOverBy.None?)
  {
    if QuietFor(turns, n + 1) { assert QuietFor(turns, n); }
  }

  lemma EndedOnTrack(r: Row, turns: seq<Turn>, n: nat, before: ProvisionState, outcome: Outcome, after: Option<Row>)
    requires OnTrack(r.state, turns, n, before, true) && n < |turns|
    requires after.Some? ==> Rank(after.value.state) >= Rank(before)
    requires Quiet(turns[n]) ==>
               if before == Deleting then outcome == Removed && after.None?
               else outcome == IsReady && after.Some? && after.value.state == Ready && after.value.token.None?
    ensures Progressed(r, turns, outcome, after)
  {
    forall q: nat | QuietFor(turns, q) && after.Some? ensures Rank(after.value.state) >= RankAfter(r.state, q) {
      if q > n { assert QuietFor(turns, n); }
    }
    if QuietFor(turns, TurnsNeeded(r.state)) {
      assert QuietFor(turns, n) && Quiet(turns[n]);
    }
  }

  lemma LostOnTrack(r: Row, turns: seq<Turn>, n: nat, outcome: Outcome, after: Option<Row>)
    requires after.Some? && OnTrack(r.state, turns, n, after.value.state, false)
    ensures Progressed(r, turns, outcome, after)
  {
    forall q: nat | QuietFor(turns, q) ensures Rank(after.value.state) >= RankAfter(r.state, q) {
      assert q > n ==> QuietFor(turns, n);
    }
    assert QuietFor(turns, TurnsNeeded(r.state)) ==> QuietFor(turns, n);
  }

  /** The turn's step fails, and nothing else happens. */
  predicate OnlyFails(turn: Turn) { turn.fails.Some? && Quiet(turn.(fails := None)) }

  /** How long a tenant waits that has failed so often before: 10 s, 30 s, 2 and 10 minutes, then half an hour. */
  function WaitSeconds(failedBefore: nat): int {
    if failedBefore == 0 then 10 else if failedBefore == 1 then 30 else if failedBefore == 2 then 120
    else if failedBefore == 3 then 600 else 1800
  }

  /** One failure more is on the books, and the tenant is tried again, or paused. */
  predicate FailedOnce(r: Row, permanent: bool, now: int, outcome: Outcome, after: Option<Row>) {
    var pause := Pauses(r.state, r.attempts + 1, permanent);
    && outcome == (if pause then Paused else Retry)
    && after.Some? && after.value.state == r.state && after.value.attempts == r.attempts + 1
        && after.value.paused == pause
    && after.value.nextAt == (if pause then None else Some(now + 1000 * WaitSeconds(r.attempts)))
    && after.value.token.None?
  }

  /** What one turn of the loop makes of the row; an outcome ends the run. */
  predicate TookTurn(before: Row, token: nat, now: int, turn: Turn, outcome: Option<Outcome>, after: Option<Row>) {
    && (outcome.Some? ==> outcome.value in {IsReady, Retry, Paused, Removed})
    && (after.None? <==> (before.state == Deleting || turn.removedBefore) && !Stops(turn))
    && (after.None? ==> outcome == Some(Removed))
    && (after.Some? ==>
          Rank(after.value.state) >= Rank(before.state) && MovedOnce(before.state, turn, after.value.state))
    && (outcome == Some(IsReady) ==> after.Some? && after.value.state == Ready)
    && (outcome == Some(Removed) ==> after.None? || turn.takenOverBy.Some?)
    && (outcome == Some(Retry) ==> turn.fails.Some?)
    && (outcome == Some(Paused) ==> turn.fails.Some? && before.state != Deleting)
    && (outcome.Some? && outcome != Some(Removed) ==> after.Some? && after.value.token != Some(token))
    && (outcome.None? ==>
          && after.Some? && before.state != Ready && turn.fails.None?
          && (after.value.token == Some(token) <==> turn.takenOverBy.None?)
          && (after.value.token == Some(token) ==> Rank(after.value.state) > Rank(before.state)))
    && (Quiet(turn) ==>
          if before.state == Ready then outcome == Some(IsReady) && after.Some? && after.value.token.None?
          else if before.state == Deleting then outcome == Some(Removed)
          else (outcome.None? && after.Some? && after.value.token == Some(token)
                && after.value == before.(
                  state := Next(before.state), attempts := 0, nextAt := None,
                  d1Id := if before.state == Requested then Some(turn.d1Id) else before.d1Id,
                  domain := if before.state == DbCreated then Recorded(turn.domain) else before.domain)))
    && (OnlyFails(turn) && before.state != Ready ==>
          outcome.Some? && FailedOnce(before, turn.fails.value, now, outcome.value, after))
  }

  /** One turn, by a run that has just renewed its lease. */
  method TakeTurn(table: TenantTable, token: nat, now: int, turn: Turn) returns (outcome: Option<Outcome>)
    requires table.row.Some? && table.row.value.token == Some(token) && turn.takenOverBy != Some(token)
    modifies table
    ensures TookTurn(old(table.row).value, token, now, turn, outcome, table.row)
  {
    Meanwhile(table, turn.removedBefore, None, now);
    var t := table.row.value;
    if t.state == Ready {
      table.ReleaseLease(token);
      return Some(IsReady);
    }
    if !HasStep(t.state) { return Some(NoStepFor(t.state)); }
    Meanwhile(table, turn.removedDuring, turn.takenOverBy, now);
    if turn.fails.Some? {
      var pause := table.RecordFailure(token, t.state, t.attempts, turn.fails.value, now);
      table.ReleaseLease(token);
      return Some(if pause then Paused else Retry);
    }
    if t.state == Deleting {
      table.EraseRow(token);
      return Some(Removed);
    }
    table.AdvanceTo(token, t.state, if t.state == Requested then Some(turn.d1Id) else None,
                    if t.state == DbCreated then Some(turn.domain) else None);
    outcome := None;
  }

  /** A tenant with work to do that another run holds, or whose next try isn't due. */
  predicate Waits(row: Option<Row>, now: int, force: bool) {
    row.Some? && row.value.state != Ready && !row.value.paused && !AcquireMatches(row.value, now, force)
  }

  /** What holds of the row after some turns of a run that acquired its lease on row `was`. */
  predicate Along(was: Row, token: nat, turns: seq<Turn>, n: nat, row: Row) {
    var held := row.token == Some(token);
    && was.state != Ready && 0 < |turns| && n < LOOP_BOUND
    && Rank(row.state) >= Rank(was.state) && (held ==> n < Rank(row.state)) && (held || TakenOver(turns))
    && Within(was.state, turns, n, row.state, held) && OnTrack(was.state, turns, n, row.state, held)
    && (n == 0 ==> held && row.state == was.state && row.attempts == was.attempts)
    && (OnlyFails(turns[0]) ==> n == 0)
  }

  /** What such a run comes to. */
  ghost predicate Ended(was: Row, token: nat, now: int, turns: seq<Turn>, outcome: Outcome, after: Option<Row>)
    requires 0 < |turns|
  {
    && outcome in {IsReady, Retry, Paused, Removed, Busy}
    && (outcome == IsReady ==> after.Some? && after.value.state == Ready)
    && (outcome == Removed ==> after.None? || TakenOver(turns))
    && (outcome == Retry ==> Fails(turns)) && (outcome == Paused ==> Fails(turns) && was.state != Deleting)
    && (outcome == Busy ==> TakenOver(turns))
    && (after.None? ==> outcome == Removed)
    && (after.Some? && outcome != Removed ==> after.value.token != Some(token))
    && (after.Some? ==> Rank(was.state) <= Rank(after.value.state) && NoFurther(was.state, turns, after.value.state))
    && (after.None? || after.value.state == Deleting ==> was.state == Deleting || RemovedIn(turns))
    && Progressed(was, turns, outcome, after)
    && (OnlyFails(turns[0]) ==> FailedOnce(was, turns[0].fails.value, now, outcome, after))
  }

  lemma LostLeaseEnds(was: Row, token: nat, now: int, turns: seq<Turn>, n: nat, row: Row)
    requires Along(was, token, turns, n, row) && row.token != Some(token)
    ensures Ended(was, token, now, turns, Busy, Some(row))
  {
    LostStaysWithin(was.state, turns, n, row.state);
    LostOnTrack(was, turns, n, Busy, Some(row));
  }

  lemma TurnEnds(was: Row, token: nat, now: int, turns: seq<Turn>, n: nat, row: Row, outcome: Outcome,
                 after: Option<Row>)
    requires Along(was, token, turns, n, row) && row.token == Some(token) && n < |turns|
    requires TookTurn(row, token, now, turns[n], Some(outcome), after)
    ensures Ended(was, token, now, turns, outcome, after)
  {
    if after.Some? { WithinOneMore(was.state, turns, n, row.state, after.value.state); }
    EndedOnTrack(was, turns, n, row.state, outcome, after);
  }

  lemma TurnGoesOn(was: Row, token: nat, now: int, turns: seq<Turn>, n: nat, row: Row, after: Row)
    requires Along(was, token, turns, n, row) && row.token == Some(token) && n < |turns|
    requires TookTurn(row, token, now, turns[n], None, Some(after))
    ensures Along(was, token, turns, n + 1, after)
  {
    WithinOneMore(was.state, turns, n, row.state, after.state);
    OneMoreOnTrack(was.state, turns, n, row.state, after.state);
  }

  /** The loop of a run that has just acquired its lease. */
  method TakeTurns(table: TenantTable, token: nat, now: int, turns: seq<Turn>, ghost was: Row)
    returns (outcome: Outcome)
    requires |turns| >= LOOP_BOUND && table.row == Some(Acquired(was, token, now)) && was.state != Ready
    requires forall i | 0 <= i < |turns| :: turns[i].takenOverBy != Some(token)
    modifies table
    ensures Ended(was, token, now, turns, outcome, table.row)
  {
    for guard := 0 to LOOP_BOUND
      invariant table.row.Some? && Along(was, token, turns, guard, table.row.value)
    {
      var renewed := table.RenewLease(token, now);
      ghost var row := table.row.value;
      if !renewed {
        table.ReleaseLease(token);
        LostLeaseEnds(was, token, now, turns, guard, row);
        return Busy;
      }
      assert Along(was, token, turns, guard, row);
      var ended := TakeTurn(table, token, now, turns[guard]);
      if ended.Some? {
        TurnEnds(was, token, now, turns, guard, row, ended.value, table.row);
        return ended.value;
      }
      TurnGoesOn(was, token, now, turns, guard, row, table.row.value);
    }
    outcome := DidNotSettle;
  }
  /**
   * One run. Whatever fails, whoever else removes the tenant or takes
   * its lapsed lease between any two steps: the loop never runs out and never
   * meets a state it has no step for, the tenant never moves back, and the run's
   * lease is gone when it returns. A run that acquires its lease takes the
   * tenant one state on in each quiet turn, to ready or, when it is being
   * removed, to its end; what stops it short is a failure or a lost lease, and
   * that turn takes it no further. Only a tenant being removed is ended.
   */
  method RunProvisioning(table: TenantTable, token: nat, now: int, force: bool, turns: seq<Turn>)
    returns (outcome: Outcome)
    requires |turns| >= LOOP_BOUND
    requires table.row.Some? ==> table.row.value.token != Some(token)
    requires forall i | 0 <= i < |turns| :: turns[i].takenOverBy != Some(token)
    modifies table
    ensures outcome != DidNotSettle && !outcome.NoStepFor?
    ensures outcome == Missing <==> old(table.row).None?
    ensures outcome == IsReady ==> table.row.Some? && table.row.value.state == Ready
    ensures outcome == Removed ==> table.row.None? || TakenOver(turns)
    ensures outcome == Retry ==> Fails(turns)
    ensures outcome == Paused ==>
              || (Fails(turns) && old(table.row).value.state != Deleting)
              || (old(table.row).Some? && old(table.row).value.paused && table.row == old(table.row))
    ensures outcome == Busy ==>
              TakenOver(turns) || (old(table.row).Some? && !AcquireMatches(old(table.row).value, now, force)
                  && table.row == old(table.row))
    ensures var r := old(table.row);
            r.Some? && r.value.state == Ready ==> outcome == IsReady && table.row == r
    ensures var r := old(table.row);
            r.Some? && r.value.state != Ready && r.value.paused ==> outcome == Paused && table.row == r
    ensures Waits(old(table.row), now, force) ==> outcome == Busy && table.row == old(table.row)
    ensures table.row.Some? && outcome != Removed ==> table.row.value.token != Some(token)
    ensures table.row.Some? ==> old(table.row).Some? && Rank(table.row.value.state) >= Rank(old(table.row).value.state)
    ensures table.row.None? && old(table.row).Some? ==> outcome == Removed
    ensures old(table.row).Some? && (table.row.None? || table.row.value.state == Deleting) ==>
            old(table.row).value.state == Deleting || RemovedIn(turns)
    ensures table.row.Some? ==> NoFurther(old(table.row).value.state, turns, table.row.value.state)
    ensures old(table.row).Some? && AcquireMatches(old(table.row).value, now, force) ==>
              && Progressed(old(table.row).value, turns, outcome, table.row)
              && (OnlyFails(turns[0]) ==>
                  FailedOnce(old(table.row).value, turns[0].fails.value, now, outcome, table.row))
  {
    if table.row.None? { return Missing; }
    if table.row.value.state == Ready { return IsReady; }
    if table.row.value.paused { return Paused; }
    var acquired := table.AcquireLease(token, now, force);
    if !acquired { return Busy; }
    outcome := TakeTurns(table, token, now, turns, old(table.row).value);
  }

  /**
   * The owner's "start again": a paused tenant nobody holds is taken on from
   * the step it stopped at, whatever its retries had come to, with a clean
   * slate: its first failure is counted as the first. One that isn't paused
   * keeps waiting for its next try.
   */
  method ResumeProvisioning(table: TenantTable, token: nat, now: int, turns: seq<Turn>) returns (outcome: Outcome)
    requires |turns| >= LOOP_BOUND
    requires table.row.Some? ==> table.row.value.token != Some(token)
    requires forall i | 0 <= i < |turns| :: turns[i].takenOverBy != Some(token)
    modifies table
    ensures outcome == Paused ==> Fails(turns)
    ensures Waits(old(table.row), now, false) ==> outcome == Busy && table.row == old(table.row)
    ensures var r := old(table.row);
            r.Some? && r.value.paused && r.value.state != Ready && AcquireMatches(Unpaused(r.value), now, true) ==>
              && Progressed(r.value, turns, outcome, table.row)
              && (OnlyFails(turns[0]) ==>
                  FailedOnce(r.value.(attempts := 0), turns[0].fails.value, now, outcome, table.row))
  {
    var unpaused := table.UnpauseProvisioning();
    outcome := RunProvisioning(table, token, now, unpaused, turns);
  }

  /** Removing a tenant: whatever its state, one quiet turn of a run that gets its lease ends it. */
  method RemoveTenant(table: TenantTable, token: nat, now: int, turns: seq<Turn>) returns (outcome: Outcome)
    requires |turns| >= LOOP_BOUND
    requires table.row.Some? ==> table.row.value.token != Some(token)
    requires forall i | 0 <= i < |turns| :: turns[i].takenOverBy != Some(token)
    modifies table
    ensures outcome == Missing <==> old(table.row).None?
    ensures outcome != IsReady && outcome != Paused
    ensures table.row.Some? ==> table.row.value.state == Deleting
    ensures var r := old(table.row);
            r.Some? && (r.value.leaseUntil.None? || r.value.leaseUntil.value <= now) && Quiet(turns[0]) ==>
              outcome == Removed && table.row.None?
  {
    var marked := table.MarkForRemoval(false);
    if !marked { return Missing; }
    outcome := RunProvisioning(table, token, now, true, turns);
    assert QuietFor(turns, 1) <==> Quiet(turns[0]);
  }
}
