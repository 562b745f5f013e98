/**
 * How late the scheduler's claims may land (platform/src/scheduling.ts). A run
 * id names its cron's tick, so a claim that wins a tenant twice for one tick
 * sends one run id twice, and a redelivery of the first message then starts a
 * second call beside the second message's. A tick's only cron can do so from
 * its 55th second, when the tenant is due at the next tick already; two crons
 * of one tick from its 45th, when the lease of the shortest run is over.
 */
module SchedulingLateCron {
  import opened Common
  import opened SchedulingClock
  import opened SchedulingProtocol

  ghost predicate Reached(w: World, single: bool, limit: int) {
    exists start, events ::
      Initial(start) && Runs(start, events) && AllInTime(start, events, single, limit) && After(start, events) == w
  }

  lemma {:induction false} RunsThen(w: World, events: seq<Event>, e: Event, single: bool, limit: int)
    requires Runs(w, events) && AllInTime(w, events, single, limit)
    requires Enabled(After(w, events), e) && InTime(After(w, events), e, single, limit)
    ensures Runs(w, events + [e]) && AllInTime(w, events + [e], single, limit)
    ensures After(w, events + [e]) == Apply(After(w, events), e)
    decreases |events|
  {
    if events == [] {
      assert Runs(Apply(w, e), []) && AllInTime(Apply(w, e), [], single, limit);
    } else {
      RunsThen(Apply(w, events[0]), events[1..], e, single, limit);
      assert (events + [e])[1..] == events[1..] + [e];
    }
  }

  lemma ReachesInitial(w: World, single: bool, limit: int)
    requires Initial(w)
    ensures Reached(w, single, limit)
  {
    assert Runs(w, []) && AllInTime(w, [], single, limit) && After(w, []) == w;
  }

  lemma Reaches(w: World, e: Event, v: World, single: bool, limit: int)
    requires Reached(w, single, limit) && Enabled(w, e) && InTime(w, e, single, limit) && Apply(w, e) == v
    ensures Reached(v, single, limit)
  {
    var start, events :|
      Initial(start) && Runs(start, events) && AllInTime(start, events, single, limit) && After(start, events) == w;
    RunsThen(start, events, e, single, limit);
  }

  // ----- a cron's round, a delivery's start -----------------------------------

  function WithCron(w: World, c: nat, cron: Cron): World { w.(crons := w.crons[c := cron]) }

  function WithDelivery(w: World, d: nat, delivery: Delivery): World { w.(deliveries := w.deliveries[d := delivery]) }

  /** One round of a looping cron, at this very instant: it reads, selects, claims and sends. */
  function Round(w: World, c: nat, message: nat): World
    requires c in w.crons
  {
    w.(row := Claimed(w.row, w.crons[c].tick, w.now), messages := w.messages[message := Message(w.crons[c].tick, 0)])
  }

  lemma RoundWins(w: World, c: nat, message: nat, single: bool, limit: int)
    requires Reached(w, single, limit) && CronIn(w, c, Looping) && message !in w.messages
    requires w.now < w.crons[c].started + CLAIM_TIME_BUDGET_MS && w.now < w.crons[c].tick + limit && Due(w.row, w.now)
    ensures Reached(Round(w, c, message), single, limit)
  {
    var cron := w.crons[c];
    var reading := WithCron(w, c, cron.(phase := Querying(w.now)));
    var selected := WithCron(w, c, cron.(phase := Selected(w.now, w.row.nextAt)));
    var won := WithCron(w, c, cron.(phase := Won)).(row := Claimed(w.row, cron.tick, w.now));
    Reaches(w, ReadTime(c), reading, single, limit);
    Reaches(reading, Select(c), selected, single, limit);
    Reaches(selected, Claim(c), won, single, limit);
    assert WithCron(won, c, cron.(phase := Looping)).crons == w.crons;
    Reaches(won, Send(c, message), Round(w, c, message), single, limit);
  }

  /** A delivery of a message whose call started at this very instant. */
  function Calls(w: World, message: nat, delivery: nat, attempt: nat): World
    requires message in w.messages
  {
    var run := w.messages[message].run;
    w.(row := Started(w.row, Token(run, attempt), w.now, CallTimeoutMs(60_000)),
       messages := w.messages[message := Message(run, attempt)],
       deliveries := w.deliveries[delivery := Delivery(message, run, attempt, Calling(w.now + CallTimeoutMs(60_000)))])
  }

  lemma MessageLoads(w: World, message: nat, delivery: nat, attempt: nat, single: bool, limit: int)
    requires Reached(w, single, limit) && Enabled(w, Deliver(message, delivery, attempt))
    requires w.row.claim == Some(w.messages[message].run) && w.row.schedulable
    ensures var run := w.messages[message].run;
            Reached(WithDelivery(w.(messages := w.messages[message := Message(run, attempt)]),
                                 delivery, Delivery(message, run, attempt, Loaded)), single, limit)
  {
    var run := w.messages[message].run;
    var u := w.(messages := w.messages[message := Message(run, attempt)]);
    var fetched := WithDelivery(u, delivery, Delivery(message, run, attempt, Fetched));
    Reaches(w, Deliver(message, delivery, attempt), fetched, single, limit);
    Reaches(fetched, Load(delivery), WithDelivery(u, delivery, Delivery(message, run, attempt, Loaded)), single, limit);
  }

  lemma LoadedStarts(w: World, delivery: nat, d: Delivery, single: bool, limit: int)
    requires d.phase.Loaded? && StartMatches(w.row, TokenOf(d)) && Reached(WithDelivery(w, delivery, d), single, limit)
    ensures var timeout := CallTimeoutMs(60_000);
            Reached(WithDelivery(w, delivery, d.(phase := Calling(w.now + timeout))).(
                      row := Started(w.row, TokenOf(d), w.now, timeout)), single, limit)
  {
    var timeout := CallTimeoutMs(60_000);
    var starting := WithDelivery(w, delivery, d.(phase := Starting(w.now)));
    var calling := WithDelivery(w, delivery,
        d.(phase := Calling(w.now + timeout))).(row := Started(w.row, TokenOf(d), w.now, timeout));
    Reaches(WithDelivery(w, delivery, d), ReadClock(delivery), starting, single, limit);
    Reaches(starting, Start(delivery, timeout), calling, single, limit);
  }

  lemma CallStarts(w: World, message: nat, delivery: nat, attempt: nat, single: bool, limit: int)
    requires Reached(w, single, limit) && Enabled(w, Deliver(message, delivery, attempt))
    requires StartMatches(w.row, Token(w.messages[message].run, attempt))
    ensures Reached(Calls(w, message, delivery, attempt), single, limit)
  {
    var run := w.messages[message].run;
    MessageLoads(w, message, delivery, attempt, single, limit);
    LoadedStarts(w.(messages := w.messages[message := Message(run, attempt)]), delivery,
                 Delivery(message, run, attempt, Loaded), single, limit);
  }

  // ----- one run id sent twice ----------------------------------------------------

  /** The cron of tick 0 fires at `at`, finds the tenant due, and its call starts at once. */
  function FirstCall(at: int): World {
    World(at, Row(at, Some(0), Some(Token(0, 1)), Some(at + SHORTEST_RUN_LEASE_MS), true),
        map[0 := Cron(0, at, Looping)],
          map[0 := Message(0, 1)], map[0 := Delivery(0, 0, 1, Calling(at + CallTimeoutMs(60_000)))])
  }

  lemma FirstCallStarts(at: int, single: bool, limit: int)
    requires -DUE_SLACK_MS <= at < limit
    ensures Reached(FirstCall(at), single, limit)
  {
    var unclaimed := World(at, Row(at, None, None, None, true), map[], map[], map[]);
    var fired := unclaimed.(crons := map[0 := Cron(0, at, Looping)]);
    ReachesInitial(unclaimed, single, limit);
    Reaches(unclaimed, CronFires(0, 0), fired, single, limit);
    RoundWins(fired, 0, 0, single, limit);
    CallStarts(Round(fired, 0, 0), 0, 0, 1, single, limit);
    assert Calls(Round(fired, 0, 0), 0, 0, 1).messages == map[0 := Message(0, 1)];
    assert Calls(Round(fired, 0, 0), 0, 0, 1) == FirstCall(at);
  }

  /** A claimed world in which run 0 was sent twice, and the first message delivered once before. */
  predicate SentTwice(w: World) {
    && w.row.claim == Some(0) && w.row.running.None? && w.row.schedulable
    && w.messages == map[0 := Message(0, 1), 1 := Message(0, 0)] && w.deliveries == map[]
  }

  lemma SentTwiceCallsTwice(w: World, single: bool, limit: int)
    requires Reached(w, single, limit) && SentTwice(w)
    ensures exists v :: Reached(v, single, limit) && !OneCallHoldingRow(v)
  {
    var one := Calls(w, 1, 1, 1);
    var two := Calls(one, 0, 2, 2);
    CallStarts(w, 1, 1, 1, single, limit);
    CallStarts(one, 0, 2, 2, single, limit);
    assert IsCalling(two, 1) && IsCalling(two, 2);
  }

  /** A call that failed at once and finished: due again a minute after its tick. */
  function FirstFinished(at: int): World {
    World(at, Row(MINUTE_MS, None, None, None, true), map[0 := Cron(0, at, Looping)], map[0 := Message(0, 1)], map[])
  }

  lemma FirstFinishes(at: int, single: bool, limit: int)
    requires -DUE_SLACK_MS <= at < limit
    ensures Reached(FirstFinished(at), single, limit)
  {
    var answered := FirstCall(at).(deliveries := map[0 := Delivery(0, 0, 1, Answered(at))]);
    FirstCallStarts(at, single, limit);
    Reaches(FirstCall(at), CallEnds(0), answered, single, limit);
    FailureBacksOff(0, at, None, 1);
    var finished := answered.(row := Row(MINUTE_MS, None, None, None, true));
    Reaches(answered, Finish(0, None, 1), finished, single, limit);
    Reaches(finished, DeliveryEnds(0), FirstFinished(at), single, limit);
  }

  /**
   * One cron, firing 40 seconds late: its first round's call fails at once, and
   * its next round, at second 55, finds the tenant due at the next tick already.
   */
  lemma LateCronSendsTwice(limit: int)
    requires limit > SINGLE_LIMIT_MS
    ensures exists w :: Reached(w, true, limit) && SentTwice(w)
  {
    var first := FirstFinished(40_000);
    var later := first.(now := SINGLE_LIMIT_MS);
    FirstFinishes(40_000, true, limit);
    Reaches(first, Time(SINGLE_LIMIT_MS), later, true, limit);
    RoundWins(later, 0, 1, true, limit);
    assert SentTwice(Round(later, 0, 1));
  }

  /**
   * Two crons of one tick, the first firing five seconds early: its call's
   * delivery dies, and the second reads the clock when the run's lease is just over.
   */
  lemma OverlappingCronsSendTwice(limit: int)
    requires limit > OVERLAP_LIMIT_MS
    ensures exists w :: Reached(w, false, limit) && SentTwice(w)
  {
    var first := FirstCall(-DUE_SLACK_MS);
    var died := first.(deliveries := map[]);
    var later := died.(now := OVERLAP_LIMIT_MS);
    var second := WithCron(later, 1, Cron(0, OVERLAP_LIMIT_MS, Looping));
    FirstCallStarts(-DUE_SLACK_MS, false, limit);
    Reaches(first, DeliveryEnds(0), died, false, limit);
    Reaches(died, Time(OVERLAP_LIMIT_MS), later, false, limit);
    Reaches(later, CronFires(1, 0), second, false, limit);
    RoundWins(second, 1, 1, false, limit);
    assert SentTwice(Round(second, 1, 1));
  }

  /**
   * Exactly when, on every run whose claims all land less than `limit` past
   * their crons' ticks, at most one call is in flight and holds the row, and no
   * run id is sent twice: up to the 55th second for a tick's only cron, up to
   * the 45th for any number of them.
   */
  lemma LimitIsExact(single: bool, limit: int)
    ensures (forall w | Reached(w, single, limit) :: OneCallHoldingRow(w)) <==> limit <= Limit(single)
    ensures (forall w | Reached(w, single, limit) :: RunsSentOnce(w)) <==> limit <= Limit(single)
  {
    if limit <= Limit(single) {
      forall w | Reached(w, single, limit) ensures OneCallHoldingRow(w) && RunsSentOnce(w) {
        var start, events :|
          Initial(start) && Runs(start, events) && AllInTime(start, events, single, limit) && After(start, events) == w;
        AtMostOneCall(start, events, single, limit);
        RunIdsAreSentOnce(start, events, single, limit);
      }
    } else {
      if single { LateCronSendsTwice(limit); } else { OverlappingCronsSendTwice(limit); }
      var w :| Reached(w, single, limit) && SentTwice(w);
      SentTwiceCallsTwice(w, single, limit);
      assert 0 in w.messages && 1 in w.messages && w.messages[0].run == w.messages[1].run;
    }
  }
}
