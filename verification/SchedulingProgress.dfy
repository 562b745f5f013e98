/**
 * That the scheduler's protocol gets anywhere (platform/src/scheduling.ts): a
 * due tenant can always be claimed, called once and freed with its next due
 * time, whatever crons, messages and deliveries are still about; and what the
 * statements that end an attempt leave.
 */
module SchedulingProgress {
  import opened Common
  import opened SchedulingClock
  import opened SchedulingProtocol

  /** Some run leads from one world to another. */
  ghost predicate Leads(w: World, v: World) { exists events :: Runs(w, events) && After(w, events) == v }

  lemma {:induction false} RunsThen(w: World, events: seq<Event>, e: Event)
    requires Runs(w, events) && Enabled(After(w, events), e)
    ensures Runs(w, events + [e]) && After(w, events + [e]) == Apply(After(w, events), e)
    decreases |events|
  {
    if events == [] {
      assert Runs(Apply(w, e), []);
    } else {
      RunsThen(Apply(w, events[0]), events[1..], e);
      assert (events + [e])[1..] == events[1..] + [e];
    }
  }

  lemma LeadsHere(w: World)
    ensures Leads(w, w)
  {
    assert Runs(w, []) && After(w, []) == w;
  }

  lemma LeadsOn(u: World, w: World, e: Event, v: World)
    requires Leads(u, w) && Enabled(w, e) && Apply(w, e) == v
    ensures Leads(u, v)
  {
    var events :| Runs(u, events) && After(u, events) == w;
    RunsThen(u, events, e);
  }

  /** Ids nobody has used. */
  predicate Fresh(w: World, c: nat, m: nat, d: nat) {
    && c !in w.crons && m !in w.messages && d !in w.deliveries
    && forall x | x in w.deliveries :: w.deliveries[x].message != m
  }

  /** A cron fires and sends the tenant. */
  function Sent(w: World, c: nat, m: nat, tick: int): World {
    w.(crons := w.crons[c := Cron(tick, w.now, Looping)], row := Claimed(w.row, tick, w.now),
       messages := w.messages[m := Message(tick, 0)])
  }

  lemma CronSends(w: World, c: nat, m: nat, tick: int)
    requires Due(w.row, w.now) && c !in w.crons && m !in w.messages && IsTick(tick) && tick <= w.now + DUE_SLACK_MS
    ensures Leads(w, Sent(w, c, m, tick))
  {
    var fired := w.(crons := w.crons[c := Cron(tick, w.now, Looping)]);
    var reading := SetCron(fired, c, Querying(w.now));
    var selected := SetCron(fired, c, Selected(w.now, w.row.nextAt));
    var won := SetCron(fired, c, CronPhase.Won).(row := Claimed(w.row, tick, w.now));
    LeadsHere(w);
    LeadsOn(w, w, CronFires(c, tick), fired);
    LeadsOn(w, fired, ReadTime(c), reading);
    LeadsOn(w, reading, Select(c), selected);
    LeadsOn(w, selected, Claim(c), won);
    assert SetCron(won, c, Looping).crons == fired.crons;
    LeadsOn(w, won, Send(c, m), Sent(w, c, m, tick));
  }

  /** The message delivered, and its call started. */
  function Called(w: World, m: nat, d: nat, tick: int, timeout: int): World {
    w.(row := Started(w.row, Token(tick, 1), w.now, timeout), messages := w.messages[m := Message(tick, 1)],
       deliveries := w.deliveries[d := Delivery(m, tick, 1, Calling(w.now + timeout))])
  }

  function WithDelivery(w: World, d: nat, delivery: Delivery): World { w.(deliveries := w.deliveries[d := delivery]) }

  lemma MessageLoads(u: World, w: World, m: nat, d: nat, tick: int)
    requires Leads(u, w) && m in w.messages && w.messages[m] == Message(tick, 0) && d !in w.deliveries
    requires forall x | x in w.deliveries :: w.deliveries[x].message != m
    requires w.row.claim == Some(tick) && w.row.schedulable
    ensures Leads(u, WithDelivery(w.(messages := w.messages[m := Message(tick, 1)]), d, Delivery(m, tick, 1, Loaded)))
  {
    var taken := w.(messages := w.messages[m := Message(tick, 1)]);
    var fetched := WithDelivery(taken, d, Delivery(m, tick, 1, Fetched));
    LeadsOn(u, w, Deliver(m, d, 1), fetched);
    LeadsOn(u, fetched, Load(d), WithDelivery(taken, d, Delivery(m, tick, 1, Loaded)));
  }

  lemma LoadedCalls(u: World, w: World, d: nat, x: Delivery, timeout: int)
    requires x.phase.Loaded? && StartMatches(w.row, TokenOf(x)) && Leads(u, WithDelivery(w, d, x))
    requires timeout == CallTimeoutMs(60_000) || timeout == CallTimeoutMs(60_001)
    ensures Leads(u, WithDelivery(w, d, x.(phase := Calling(w.now + timeout)))
                         .(row := Started(w.row, TokenOf(x), w.now, timeout)))
  {
    var starting := WithDelivery(w, d, x.(phase := Starting(w.now)));
    LeadsOn(u, WithDelivery(w, d, x), ReadClock(d), starting);
    LeadsOn(u, starting, Start(d, timeout), WithDelivery(w, d, x.(phase := Calling(w.now + timeout)))
        .(row := Started(w.row, TokenOf(x), w.now, timeout)));
  }

  lemma MessageCalls(u: World, w: World, m: nat, d: nat, tick: int, timeout: int)
    requires Leads(u, w) && m in w.messages && w.messages[m] == Message(tick, 0) && d !in w.deliveries
    requires forall x | x in w.deliveries :: w.deliveries[x].message != m
    requires w.row.claim == Some(tick) && w.row.running.None? && w.row.schedulable
    requires timeout == CallTimeoutMs(60_000) || timeout == CallTimeoutMs(60_001)
    ensures Leads(u, Called(w, m, d, tick, timeout))
  {
    MessageLoads(u, w, m, d, tick);
    LoadedCalls(u, w.(messages := w.messages[m := Message(tick, 1)]), d, Delivery(m, tick, 1, Loaded), timeout);
  }

  /** The call over, recorded and finished. */
  lemma CallFrees(u: World, w: World, d: nat, tick: int, summary: Option<Summary>, streak: int) returns (v: World)
    requires Leads(u, w) && IsCalling(w, d) && TokenOf(w.deliveries[d]) == Token(tick, 1)
    requires w.row.claim == Some(tick) && w.row.running == Some(Token(tick, 1)) && w.row.schedulable
    ensures Leads(u, v) && d !in v.deliveries
    ensures v.row == Row(NextDueAfterRun(tick, w.now, summary, streak), None, None, None, true)
  {
    var answered := SetDelivery(w, d, Answered(w.now));
    var finished := answered.(row := Row(NextDueAfterRun(tick, w.now, summary, streak), None, None, None, true));
    v := finished.(deliveries := finished.deliveries - {d});
    LeadsOn(u, w, CallEnds(d), answered);
    LeadsOn(u, answered, Finish(d, summary, streak), finished);
    LeadsOn(u, finished, DeliveryEnds(d), v);
  }

  /**
   * Wherever the protocol has come to, a tenant that is due can be claimed by a
   * cron, called once for its tick, and left free with the due time its answer
   * gives: nothing left over from earlier crons, messages or calls is in the way.
   */
  lemma DueTenantRuns(w: World, c: nat, m: nat, d: nat, tick: int, summary: Option<Summary>, streak: int)
    requires Due(w.row, w.now) && Fresh(w, c, m, d) && IsTick(tick) && tick <= w.now + DUE_SLACK_MS
    ensures exists v, u ::
              && Leads(w, v) && IsCalling(v, d) && TokenOf(v.deliveries[d]) == Token(tick, 1)
              && v.row.running == Some(Token(tick, 1)) && v.row.claim == Some(tick)
              && Leads(w, u) && d !in u.deliveries
              && u.row == Row(NextDueAfterRun(tick, w.now, summary, streak), None, None, None, true)
  {
    var sent := Sent(w, c, m, tick);
    CronSends(w, c, m, tick);
    MessageCalls(w, sent, m, d, tick, CallTimeoutMs(60_000));
    var v := Called(sent, m, d, tick, CallTimeoutMs(60_000));
    var u := CallFrees(w, v, d, tick, summary, streak);
  }

  /** A claim whose batch the queue refused is given back: the tenant is due again at once, as it was. */
  lemma RefusedIsDueAgain(w: World, c: nat)
    requires CronIn(w, c, Refused) && w.row.claim == Some(w.crons[c].tick) && w.row.schedulable
    ensures var v := Apply(w, Unclaim(c));
            && v.row == w.row.(claim := None, leaseUntil := None)
            && forall at | at >= w.row.nextAt - 5_000 :: Due(v.row, at)
  {
  }

  /** A delivery goes past its load exactly when its run is still the claimed one and the tenant may run. */
  lemma LoadsOnlyItsClaim(w: World, d: nat)
    requires DeliveryIn(w, d, Fetched)
    ensures var v := Apply(w, Load(d));
            && v.row == w.row
            && (d in v.deliveries <==> w.row.claim == Some(w.deliveries[d].run) && w.row.schedulable)
  {
  }
}
