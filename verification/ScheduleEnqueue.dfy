/**
 * The cron's side of the scheduler over all tenants (platform/src/scheduling.ts,
 * enqueueDue): rounds of a due query, a batch of claims and one sendBatch,
 * within a time budget. Here nothing else writes between its statements; what
 * other writers may do there is SchedulingProtocol's subject.
 */
module ScheduleEnqueue {
  import Clock = SchedulingClock
  import P = SchedulingProtocol

  const CLAIM_BATCH: nat := 100
  const MAX_CLAIMS_PER_TICK: nat := 10_000

  datatype Message = Message(tenant: nat, run: int, dueAt: int)

  datatype EnqueueResult = EnqueueResult(sent: nat, returned: nat, rounds: nat)

  // ----- the due query ------------------------------------------------------------

  predicate DistinctIn(picked: seq<nat>, n: nat) {
    && (forall k | 0 <= k < |picked| :: picked[k] < n)
    && (forall j, k | 0 <= j < k < |picked| :: picked[j] != picked[k])
  }

  /** The query's answer: due tenants, earliest first, all of them or the hundred earliest. */
  predicate DueAnswer(rows: seq<P.Row>, at: int, picked: seq<nat>) {
    && DistinctIn(picked, |rows|) && |picked| <= CLAIM_BATCH
    && (forall k | 0 <= k < |picked| :: P.Due(rows[picked[k]], at))
    && (forall j, k | 0 <= j < k < |picked| :: rows[picked[j]].nextAt <= rows[picked[k]].nextAt)
    && (forall i | 0 <= i < |rows| && i !in picked && P.Due(rows[i], at) ::
          |picked| == CLAIM_BATCH && forall k | 0 <= k < |picked| :: rows[picked[k]].nextAt <= rows[i].nextAt)
  }

  /** Every due tenant not yet picked comes no earlier than the picked ones. */
  predicate PickedFirst(rows: seq<P.Row>, at: int, picked: seq<nat>) {
    && DistinctIn(picked, |rows|)
    && (forall k | 0 <= k < |picked| :: P.Due(rows[picked[k]], at))
    && (forall j, k | 0 <= j < k < |picked| :: rows[picked[j]].nextAt <= rows[picked[k]].nextAt)
    && (forall i, k | 0 <= i < |rows| && i !in picked && P.Due(rows[i], at) && 0 <= k < |picked| ::
        rows[picked[k]].nextAt <= rows[i].nextAt)
  }

  /** The earliest due tenant not yet picked. */
  method Earliest(rows: seq<P.Row>, at: int, picked: seq<nat>) returns (best: nat)
    ensures best <= |rows|
    ensures best < |rows| ==>
              && best !in picked && P.Due(rows[best], at)
              && forall i | 0 <= i < |rows| && i !in picked && P.Due(rows[i], at) :: rows[best].nextAt <= rows[i].nextAt
    ensures best == |rows| ==> forall i | 0 <= i < |rows| && P.Due(rows[i], at) :: i in picked
  {
    best := |rows|;
    for i := 0 to |rows|
      invariant best == |rows| || best < i
      invariant best < |rows| ==>
                  && best !in picked && P.Due(rows[best], at)
                  && forall k | 0 <= k < i && k !in picked && P.Due(rows[k], at) :: rows[best].nextAt <= rows[k].nextAt
      invariant best == |rows| ==> forall k | 0 <= k < i && P.Due(rows[k], at) :: k in picked
    {
      if i !in picked && P.Due(rows[i], at) && (best == |rows| || rows[i].nextAt < rows[best].nextAt) {
        best := i;
      }
    }
  }

  method SelectDue(rows: seq<P.Row>, at: int) returns (picked: seq<nat>)
    ensures DueAnswer(rows, at, picked)
  {
    picked := [];
    while |picked| < CLAIM_BATCH
      invariant |picked| <= CLAIM_BATCH && PickedFirst(rows, at, picked)
    {
      var best := Earliest(rows, at, picked);
      if best == |rows| {
        return;
      }
      picked := picked + [best];
    }
  }

  // ----- enqueueDue ---------------------------------------------------------------------

  predicate Mentions(messages: seq<Message>, i: nat) { exists k :: 0 <= k < |messages| && messages[k].tenant == i }

  /** Claimed while due at some reading of the clock. */
  ghost predicate ClaimedOnce(before: P.Row, after: P.Row, tick: int, from: int, to: int) {
    exists at :: from <= at <= to && P.Due(before, at) && after == P.Claimed(before, tick, at)
  }

  /** Claimed while due, and given back when the queue refused. */
  ghost predicate GivenBack(before: P.Row, after: P.Row, tick: int, from: int, to: int) {
    exists at :: from <= at <= to && P.Due(before, at) && after == P.Unclaimed(P.Claimed(before, tick, at), tick)
  }

  ghost predicate OneEnqueued(before: P.Row, after: P.Row, sent: bool, back: bool, tick: int, from: int, to: int) {
    if sent then !back && ClaimedOnce(before, after, tick, from, to)
    else if back then GivenBack(before, after, tick, from, to)
    else after == before
  }

  /** A message says since when its tenant is due: by its due time, or, for one that has none yet, since its claim. */
  predicate SaysDue(before: P.Row, after: P.Row, m: Message) {
    after.leaseUntil.Some? && m.dueAt == if before.nextAt > 0 then before.nextAt
        else after.leaseUntil.value - Clock.QUEUE_LEASE_MS
  }

  predicate OneMessageEach(before: seq<P.Row>, after: seq<P.Row>, messages: seq<Message>, tick: int)
    requires |after| == |before|
  {
    && (forall k | 0 <= k < |messages| ::
          var m := messages[k]; m.tenant < |before| && m.run == tick && SaysDue(before[m.tenant], after[m.tenant], m))
    && (forall j, k | 0 <= j < k < |messages| :: messages[j].tenant != messages[k].tenant)
  }

  /**
   * Every tenant is untouched, or claimed once while due and sent exactly one
   * message, or claimed and given back: those of `back`.
   */
  ghost predicate Enqueued(before: seq<P.Row>, after: seq<P.Row>, messages: seq<Message>, back: seq<nat>, tick: int,
                           from: int, to: int)
  {
    && |after| == |before| && DistinctIn(back, |before|)
    && OneMessageEach(before, after, messages, tick)
    && (forall i | 0 <= i < |before| ::
        OneEnqueued(before[i], after[i], Mentions(messages, i), i in back, tick, from, to))
  }

  /** A tenant already sent in this tick is leased past the cron's time budget, so no later round picks it. */
  lemma NotPickedAgain(before: P.Row, row: P.Row, tick: int, from: int, to: int, at: int)
    requires ClaimedOnce(before, row, tick, from, to) && to <= at < from + Clock.CLAIM_TIME_BUDGET_MS
    ensures !P.Due(row, at)
  {
  }

  lemma LaterEnqueued(before: seq<P.Row>, rows: seq<P.Row>, messages: seq<Message>, tick: int, from: int, to: int,
                      later: int)
    requires Enqueued(before, rows, messages, [], tick, from, to) && to <= later
    ensures Enqueued(before, rows, messages, [], tick, from, later)
  {
    forall i | 0 <= i < |before|
      ensures OneEnqueued(before[i], rows[i], Mentions(messages, i), false, tick, from, later)
    {
      assert OneEnqueued(before[i], rows[i], Mentions(messages, i), i in [], tick, from, to);
      if Mentions(messages, i) {
        var at :| from <= at <= to && P.Due(before[i], at) && rows[i] == P.Claimed(before[i], tick, at);
        assert at <= later;
      }
    }
  }

  /** The rows picked in a round, as their claims leave them. */
  predicate ClaimsOf(rows: seq<P.Row>, after: seq<P.Row>, picked: seq<nat>, claimed: seq<Message>, tick: int, at: int) {
    && |after| == |rows| && |claimed| == |picked| && DistinctIn(picked, |rows|)
    && (forall k | 0 <= k < |picked| ::
          && P.Due(rows[picked[k]], at)
          && claimed[k] == Message(picked[k], tick, if rows[picked[k]].nextAt > 0 then rows[picked[k]].nextAt else at))
    && (forall i | 0 <= i < |rows| :: after[i] == if i in picked then P.Claimed(rows[i], tick, at) else rows[i])
  }

  lemma PickedAreFresh(before: seq<P.Row>, rows: seq<P.Row>, messages: seq<Message>, picked: seq<nat>, tick: int,
                       from: int, at: int)
    requires Enqueued(before, rows, messages, [], tick, from, at) && at < from + Clock.CLAIM_TIME_BUDGET_MS
    requires DistinctIn(picked, |rows|) && forall k | 0 <= k < |picked| :: P.Due(rows[picked[k]], at)
    ensures forall k | 0 <= k < |picked| :: !Mentions(messages, picked[k]) && rows[picked[k]] == before[picked[k]]
  {
    forall k | 0 <= k < |picked| ensures !Mentions(messages, picked[k]) && rows[picked[k]] == before[picked[k]] {
      var i := picked[k];
      assert OneEnqueued(before[i], rows[i], Mentions(messages, i), i in [], tick, from, at);
      if ClaimedOnce(before[i], rows[i], tick, from, at) {
        NotPickedAgain(before[i], rows[i], tick, from, at, at);
      }
    }
  }

  /** Messages sent before keep their rows; the round's own name the rows it claimed. */
  lemma MessagesSent(before: seq<P.Row>, rows: seq<P.Row>, messages: seq<Message>, after: seq<P.Row>,
                     picked: seq<nat>, claimed: seq<Message>, tick: int, at: int)
    requires |rows| == |before| && OneMessageEach(before, rows, messages, tick)
             && ClaimsOf(rows, after, picked, claimed, tick, at)
    requires forall k | 0 <= k < |picked| :: !Mentions(messages, picked[k]) && rows[picked[k]] == before[picked[k]]
    ensures OneMessageEach(before, after, messages + claimed, tick)
  {
    var all := messages + claimed;
    forall k | 0 <= k < |all|
      ensures all[k].tenant < |before| && all[k].run == tick
              && SaysDue(before[all[k].tenant], after[all[k].tenant], all[k])
    {
      if k < |messages| {
        assert Mentions(messages, messages[k].tenant);
        assert messages[k].tenant !in picked;
      } else {
        assert all[k].tenant == picked[k - |messages|] && all[k].tenant in picked;
      }
    }
    forall j, k | 0 <= j < k < |all| ensures all[j].tenant != all[k].tenant {
      if j < |messages| <= k {
        assert !Mentions(messages, picked[k - |messages|]);
      }
    }
  }

  /** A round whose batch the queue took. */
  lemma RoundSent(before: seq<P.Row>, rows: seq<P.Row>, messages: seq<Message>, after: seq<P.Row>,
                  picked: seq<nat>, claimed: seq<Message>, tick: int, from: int, at: int)
    requires Enqueued(before, rows, messages, [], tick, from, at) && from <= at < from + Clock.CLAIM_TIME_BUDGET_MS
    requires ClaimsOf(rows, after, picked, claimed, tick, at)
    ensures Enqueued(before, after, messages + claimed, [], tick, from, at)
  {
    PickedAreFresh(before, rows, messages, picked, tick, from, at);
    MessagesSent(before, rows, messages, after, picked, claimed, tick, at);
    forall i | 0 <= i < |before|
      ensures OneEnqueued(before[i], after[i], Mentions(messages + claimed, i), i in [], tick, from, at)
    {
      assert OneEnqueued(before[i], rows[i], Mentions(messages, i), i in [], tick, from, at);
      MentionsJoined(messages, claimed, picked, i);
    }
  }

  /** The rows of a refused batch, as giving its claims back leaves them. */
  predicate ReturnsOf(claimedRows: seq<P.Row>, after: seq<P.Row>, picked: seq<nat>, tick: int) {
    && |after| == |claimedRows|
    && forall i | 0 <= i < |after| :: after[i] == if i in picked then P.Unclaimed(claimedRows[i], tick)
        else claimedRows[i]
  }

  /** A round whose batch the queue refused, its claims given back. */
  lemma RoundRefused(before: seq<P.Row>, rows: seq<P.Row>, messages: seq<Message>, claimedRows: seq<P.Row>,
                     after: seq<P.Row>,
                     picked: seq<nat>, claimed: seq<Message>, tick: int, from: int, at: int)
    requires Enqueued(before, rows, messages, [], tick, from, at) && from <= at < from + Clock.CLAIM_TIME_BUDGET_MS
    requires ClaimsOf(rows, claimedRows, picked, claimed, tick, at) && ReturnsOf(claimedRows, after, picked, tick)
    ensures Enqueued(before, after, messages, picked, tick, from, at)
  {
    PickedAreFresh(before, rows, messages, picked, tick, from, at);
    forall i | 0 <= i < |before|
      ensures OneEnqueued(before[i], after[i], Mentions(messages, i), i in picked, tick, from, at)
    {
      assert OneEnqueued(before[i], rows[i], Mentions(messages, i), i in [], tick, from, at);
    }
    forall k | 0 <= k < |messages|
      ensures messages[k].tenant !in picked
    {
      assert Mentions(messages, messages[k].tenant);
    }
  }

  /** Whoever was sent a message was due no later than whoever was due all along and wasn't. */
  predicate EarliestSent(before: seq<P.Row>, messages: seq<Message>, from: int) {
    forall i, j | 0 <= i < |before| && 0 <= j < |before| && Mentions(messages, i) && !Mentions(messages, j)
                  && P.Due(before[j], from) :: before[i].nextAt <= before[j].nextAt
  }

  /** A round picks the earliest of those left. */
  lemma EarliestStay(before: seq<P.Row>, rows: seq<P.Row>, messages: seq<Message>, after: seq<P.Row>,
                     picked: seq<nat>, claimed: seq<Message>, tick: int, from: int, at: int)
    requires Enqueued(before, rows, messages, [], tick, from, at) && from <= at < from + Clock.CLAIM_TIME_BUDGET_MS
    requires DueAnswer(rows, at, picked) && ClaimsOf(rows, after, picked, claimed, tick, at)
    requires EarliestSent(before, messages, from)
    ensures EarliestSent(before, messages + claimed, from)
  {
    PickedAreFresh(before, rows, messages, picked, tick, from, at);
    forall i, j | 0 <= i < |before| && 0 <= j < |before| && Mentions(messages + claimed, i)
                  && !Mentions(messages + claimed, j) && P.Due(before[j], from)
      ensures before[i].nextAt <= before[j].nextAt
    {
      MentionsJoined(messages, claimed, picked, i);
      MentionsJoined(messages, claimed, picked, j);
      assert OneEnqueued(before[j], rows[j], Mentions(messages, j), j in [], tick, from, at);
      if i in picked {
        assert rows[j] == before[j] && P.Due(rows[j], at);
        var k :| 0 <= k < |picked| && picked[k] == i;
        assert rows[picked[k]].nextAt <= rows[j].nextAt;
      }
    }
  }

  lemma MentionsJoined(messages: seq<Message>, claimed: seq<Message>, picked: seq<nat>, i: nat)
    requires |claimed| == |picked| && forall k | 0 <= k < |picked| :: claimed[k].tenant == picked[k]
    ensures Mentions(messages + claimed, i) <==> Mentions(messages, i) || i in picked
  {
    var all := messages + claimed;
    if Mentions(messages, i) {
      var k :| 0 <= k < |messages| && messages[k].tenant == i;
      assert all[k].tenant == i;
    }
    if i in picked {
      var k :| 0 <= k < |picked| && picked[k] == i;
      assert all[|messages| + k].tenant == i;
    }
  }

  predicate NobodyDue(rows: seq<P.Row>, at: int) { forall i | 0 <= i < |rows| :: !P.Due(rows[i], at) }

  /** After a round that picked fewer than a batch, nobody is left due. */
  lemma NobodyLeftDue(rows: seq<P.Row>, after: seq<P.Row>, picked: seq<nat>, claimed: seq<Message>, tick: int, at: int)
    requires DueAnswer(rows, at, picked) && |picked| < CLAIM_BATCH && ClaimsOf(rows, after, picked, claimed, tick, at)
    ensures NobodyDue(after, at)
  {
  }

  lemma SentOn(queue: seq<Message>, messages: seq<Message>, claimed: seq<Message>)
    ensures queue + messages + claimed == queue + (messages + claimed)
  {
  }

  /** The first readings began rounds within the budget, none of them refused. */
  ghost predicate WentThrough(clock: nat -> int, refuses: nat -> bool, n: nat) {
    forall k: nat | k < n :: !refuses(k) && clock(k) - clock(0) < Clock.CLAIM_TIME_BUDGET_MS
  }

  datatype End = OutOfBudget | AllClaimed | Refused

  class Tenants {
    var rows: seq<P.Row>
    var queue: seq<Message>

    /** One batch of claims, with its messages; with nothing in between, every claim changes its row. */
    method ClaimAll(picked: seq<nat>, tick: int, at: int) returns (claimed: seq<Message>)
      requires DueAnswer(rows, at, picked)
      modifies this`rows
      ensures ClaimsOf(old(rows), rows, picked, claimed, tick, at)
    {
      claimed := [];
      for k := 0 to |picked|
        invariant |rows| == |old(rows)| && |claimed| == k
        invariant forall j | 0 <= j < k ::
                    var before := old(rows)[picked[j]];
                    claimed[j] == Message(picked[j], tick, if before.nextAt > 0 then before.nextAt else at)
        invariant forall i | 0 <= i < |rows| :: rows[i] == if i in picked[..k] then P.Claimed(old(rows)[i], tick, at)
                  else old(rows)[i]
      {
        var i := picked[k];
        assert picked[..k + 1] == picked[..k] + [i] && i !in picked[..k];
        var previous := rows[i].nextAt;
        if P.ClaimMatches(rows[i], at, previous) {
          claimed := claimed + [Message(i, tick, if previous > 0 then previous else at)];
          rows := rows[i := P.Claimed(rows[i], tick, at)];
        }
      }
      assert picked[..|picked|] == picked;
    }

    /** The queue refused: each claim is given back. */
    method UnclaimAll(picked: seq<nat>, tick: int)
      requires DistinctIn(picked, |rows|)
      modifies this`rows
      ensures ReturnsOf(old(rows), rows, picked, tick)
    {
      for k := 0 to |picked|
        invariant |rows| == |old(rows)|
        invariant forall i | 0 <= i < |rows| :: rows[i] == if i in picked[..k] then P.Unclaimed(old(rows)[i], tick)
                  else old(rows)[i]
      {
        assert picked[..k + 1] == picked[..k] + [picked[k]] && picked[k] !in picked[..k];
        rows := rows[picked[k] := P.Unclaimed(rows[picked[k]], tick)];
      }
      assert picked[..|picked|] == picked;
    }

    /**
     * One round, on top of what the earlier ones sent: a due query, its claims,
     * and their batch, whose claims are given back when the queue refuses it.
     */
    method Round(tick: int, at: int, refused: bool, ghost before: seq<P.Row>, ghost messages: seq<Message>,
                 ghost from: int, ghost was: seq<Message>, ghost next: int)
      returns (picked: nat, ghost sent: seq<Message>, ghost back: seq<nat>)
      requires Enqueued(before, rows, messages, [], tick, from, at)
      requires from <= at < from + Clock.CLAIM_TIME_BUDGET_MS && at <= next
      requires EarliestSent(before, messages, from) && queue == was + messages
      modifies this
      ensures picked <= CLAIM_BATCH && |back| == (if refused then picked else 0)
      ensures |sent| == |messages| + if refused then 0 else picked
      ensures queue == was + sent && EarliestSent(before, sent, from)
      ensures Enqueued(before, rows, sent, back, tick, from, at)
      ensures !refused ==> Enqueued(before, rows, sent, [], tick, from, next)
      ensures picked == 0 || (!refused && picked < CLAIM_BATCH) ==> NobodyDue(rows, at)
    {
      ghost var mid := rows;
      var due := SelectDue(rows, at);
      var claimed := ClaimAll(due, tick, at);
      picked, sent, back := |due|, messages, [];
      if refused {
        ghost var claimedRows := rows;
        UnclaimAll(due, tick);
        RoundRefused(before, mid, messages, claimedRows, rows, due, claimed, tick, from, at);
        back := due;
      } else {
        queue := queue + claimed;
        sent := messages + claimed;
        RoundSent(before, mid, messages, rows, due, claimed, tick, from, at);
        LaterEnqueued(before, rows, sent, tick, from, at, next);
        EarliestStay(before, mid, messages, rows, due, claimed, tick, from, at);
        SentOn(was, messages, claimed);
        if picked < CLAIM_BATCH { NobodyLeftDue(mid, rows, due, claimed, tick, at); }
      }
    }

    /**
     * One cron's claiming: `clock(k)` is its k-th reading (nothing is awaited
     * between a round's two), and the queue refuses round k's batch where
     * `refuses(k)`. It stops at its time budget, at its cap, at a refusal,
     * whose claims are given back, or when no tenant is left due, and at no
     * other moment: `last` is the reading of the loop's last test or round, every
     * earlier one began a round, within the budget, whose whole batch was sent.
     */
    method EnqueueDue(tick: int, clock: nat -> int, refuses: nat -> bool)
      returns (result: EnqueueResult,
               ghost messages: seq<Message>, ghost back: seq<nat>, ghost last: nat, ghost end: End)
      requires forall j: nat, k: nat | j <= k :: clock(j) <= clock(k)
      modifies this
      ensures queue == old(queue) + messages && result.sent == |messages| && result.returned == |back|
      ensures Enqueued(old(rows), rows, messages, back, tick, clock(0), clock(last))
      ensures EarliestSent(old(rows), messages, clock(0))
      ensures WentThrough(clock, refuses, last)
      ensures end == OutOfBudget ==>
                && last == result.rounds && result.sent == CLAIM_BATCH * last
                && (result.sent >= MAX_CLAIMS_PER_TICK || clock(last) - clock(0) >= Clock.CLAIM_TIME_BUDGET_MS)
      ensures end == Refused <==> back != []
      ensures end != OutOfBudget ==>
                clock(last) - clock(0) < Clock.CLAIM_TIME_BUDGET_MS && CLAIM_BATCH * last < MAX_CLAIMS_PER_TICK
      ensures end == Refused ==> refuses(last) && last + 1 == result.rounds && result.sent == CLAIM_BATCH * last
      ensures end == AllClaimed ==>
                && NobodyDue(rows, clock(last))
                && CLAIM_BATCH * last <= result.sent < CLAIM_BATCH * (last + 1)
                && (if result.sent == CLAIM_BATCH * last then result.rounds == last
                    else result.rounds == last + 1 && !refuses(last))
      ensures result.returned <= CLAIM_BATCH
    {
      var started := clock(0);
      var sent, returned, rounds, reading := 0, 0, 0, 0;
      end, back := OutOfBudget, [];
      messages := [];
      ghost var before, was := rows, queue;
      while sent < MAX_CLAIMS_PER_TICK && clock(reading) - started < Clock.CLAIM_TIME_BUDGET_MS
        invariant queue == was + messages && sent == |messages| < MAX_CLAIMS_PER_TICK + CLAIM_BATCH
        invariant started <= clock(reading) && returned == 0 && end == OutOfBudget && back == []
        invariant sent == CLAIM_BATCH * rounds && reading == rounds && EarliestSent(before, messages, started)
        invariant WentThrough(clock, refuses, reading)
        invariant Enqueued(before, rows, messages, [], tick, started, clock(reading))
        decreases MAX_CLAIMS_PER_TICK + CLAIM_BATCH - sent
      {
        var at := clock(reading);
        ghost var given;
        var picked;
        picked, messages, given :=
          Round(tick, at, refuses(reading), before, messages, started, was, clock(reading + 1));
        if picked == 0 {
          end := AllClaimed;
          break;
        }
        rounds := rounds + 1;
        if refuses(reading) {
          returned := returned + picked;
          end, back := Refused, given;
          break;
        }
        sent := sent + picked;
        if picked < CLAIM_BATCH {
          end := AllClaimed;
          break;
        }
        reading := reading + 1;
      }
      result, last := EnqueueResult(sent, returned, rounds), reading;
    }
  }
}
