/**
 * The scheduler's claim, queue and run protocol for one tenant
 * (platform/src/scheduling.ts), as a state machine: every SQL statement is one
 * atomic guarded step, and everything between two awaits interleaves freely.
 *
 * Environment the code relies on, written into the steps' guards:
 *   - one clock; a start's write lands within the run lease's margin of the
 *     clock reading it carries, and a call ends by its timeout (`Start`, `Time`);
 *   - a cron fires at most the due slack before its tick (`CronFires`);
 *   - the queue raises a message's `attempts` only after its earlier
 *     deliveries ended, and never goes back (`Deliver`);
 *   - a refused sendBatch delivered nothing (`RefuseBatch`).
 * Any number of crons may run at once, for one tick too. Messages may be lost,
 * late, duplicated or redelivered for ever; crons and consumers may die anywhere.
 */
module SchedulingProtocol {
  import opened Common
  import opened SchedulingClock

  /** `<runId>:<attempts>`; a run id is `s-<tick>-<tenant>`, so for one tenant it is its tick. */
  datatype Token = Token(run: int, attempt: nat)

  /** The tenant row's schedule columns, and whether SCHEDULABLE holds of the rest. */
  datatype Row = Row(nextAt: int, claim: Option<int>, running: Option<Token>, leaseUntil: Option<int>,
      schedulable: bool)

  // ----- the statements --------------------------------------------------

  predicate LeaseFree(r: Row, at: int) { r.leaseUntil.None? || r.leaseUntil.value <= at }

  predicate Due(r: Row, at: int) { r.schedulable && r.nextAt <= at + DUE_SLACK_MS && LeaseFree(r, at) }

  predicate ClaimMatches(r: Row, at: int, previous: int) { r.nextAt == previous && r.schedulable && LeaseFree(r, at) }

  function Claimed(r: Row, run: int, at: int): Row {
    r.(claim := Some(run), running := None, leaseUntil := Some(at + QUEUE_LEASE_MS))
  }

  function Unclaimed(r: Row, run: int): Row {
    if r.claim == Some(run) then r.(claim := None, leaseUntil := None) else r
  }

  predicate StartMatches(r: Row, token: Token) {
    r.claim == Some(token.run) && r.running != Some(token) && r.schedulable
  }

  function Started(r: Row, token: Token, startedAt: int, timeout: int): Row {
    r.(running := Some(token), leaseUntil := Some(startedAt + timeout + RUN_LEASE_MARGIN_MS))
  }

  function Finished(r: Row, token: Token, next: int): Row {
    if r.claim == Some(token.run) && r.running == Some(token)
    then r.(nextAt := next, claim := None, running := None, leaseUntil := None) else r
  }

  /**
   * The due query finds a tenant that can run from 5 s before its due time on,
   * unless a lease holds it, and then from the lease's end on.
   */
  lemma DueFrom(r: Row, at: int)
    ensures Due(r, at) <==>
              r.schedulable && at >= r.nextAt - 5_000 && (r.leaseUntil == None || at >= r.leaseUntil.value)
    ensures Due(r, at) ==> ClaimMatches(r, at, r.nextAt)
  {
  }

  // ----- the world -------------------------------------------------------

  /** A round reads the clock, then the due row, then claims it: three awaits apart. */
  datatype CronPhase = Looping | Querying(at: int) | Selected(at: int, previous: int) | Won | Refused | Done

  /** One invocation of the cron, for a tick. */
  datatype Cron = Cron(tick: int, started: int, phase: CronPhase)

  datatype Message = Message(run: int, attempts: nat)

  datatype DeliveryPhase =
    | Fetched
    | Loaded
    | Starting(startedAt: int)
    | Calling(deadline: int)
    | Answered(finishedAt: int)

  datatype Delivery = Delivery(message: nat, run: int, attempt: nat, phase: DeliveryPhase)

  datatype World = World(
    now: int,
    row: Row,
    crons: map<nat, Cron>,
    messages: map<nat, Message>,
    deliveries: map<nat, Delivery>)

  datatype Event =
    | Time(to: int)
    | Suspend(schedulable: bool)
    | CronFires(cron: nat, tick: int)
    | ReadTime(cron: nat)
    | Select(cron: nat)
    | Claim(cron: nat)
    | Send(cron: nat, message: nat)
    | RefuseBatch(cron: nat)
    | Unclaim(cron: nat)
    | CronDies(cron: nat)
    | Deliver(message: nat, delivery: nat, attempt: nat)
    | Load(delivery: nat)
    | ReadClock(delivery: nat)
    | Start(delivery: nat, timeout: int)
    | CallEnds(delivery: nat)
    | Finish(delivery: nat, summary: Option<Summary>, streak: int)
    | DeliveryEnds(delivery: nat)

  predicate IsCalling(w: World, d: nat) { d in w.deliveries && w.deliveries[d].phase.Calling? }

  predicate HasStarted(d: Delivery) { d.phase.Calling? || d.phase.Answered? }

  function TokenOf(d: Delivery): Token { Token(d.run, d.attempt) }

  predicate CronIn(w: World, c: nat, phase: CronPhase) { c in w.crons && w.crons[c].phase == phase }

  predicate DeliveryIn(w: World, d: nat, phase: DeliveryPhase) { d in w.deliveries && w.deliveries[d].phase == phase }

  ghost predicate Enabled(w: World, e: Event) {
    match e
    case Time(to) => w.now <= to && forall d | IsCalling(w, d) :: to <= w.deliveries[d].phase.deadline
    case Suspend(_) => true
    case CronFires(c, tick) => IsTick(tick) && c !in w.crons && tick <= w.now + DUE_SLACK_MS
    case ReadTime(c) => CronIn(w, c, Looping) && w.now - w.crons[c].started < CLAIM_TIME_BUDGET_MS
    case Select(c) => c in w.crons && w.crons[c].phase.Querying? && Due(w.row, w.crons[c].phase.at)
    case Claim(c) => c in w.crons && w.crons[c].phase.Selected?
    case Send(c, message) => CronIn(w, c, Won) && message !in w.messages
    case RefuseBatch(c) => CronIn(w, c, Won)
    case Unclaim(c) => CronIn(w, c, Refused)
    case CronDies(c) => c in w.crons
    case Deliver(message, delivery, attempt) =>
      message in w.messages && delivery !in w.deliveries && 1 <= attempt && w.messages[message].attempts <= attempt
      && (w.messages[message].attempts < attempt ==> forall d | d in w.deliveries :: w.deliveries[d].message != message)
    case Load(d) => DeliveryIn(w, d, Fetched)
    case ReadClock(d) => DeliveryIn(w, d, Loaded)
    case Start(d, timeout) =>
      d in w.deliveries && w.deliveries[d].phase.Starting?
      && w.now < w.deliveries[d].phase.startedAt + RUN_LEASE_MARGIN_MS
      && (timeout == CallTimeoutMs(60_000) || timeout == CallTimeoutMs(60_001))
    case CallEnds(d) => IsCalling(w, d)
    case Finish(d, _, _) => d in w.deliveries && w.deliveries[d].phase.Answered?
    case DeliveryEnds(d) => d in w.deliveries
  }

  function Without<V>(m: map<nat, V>, k: nat): map<nat, V> { m - {k} }

  function SetCron(w: World, c: nat, phase: CronPhase): World
    requires c in w.crons
  {
    w.(crons := w.crons[c := w.crons[c].(phase := phase)])
  }

  function SetDelivery(w: World, d: nat, phase: DeliveryPhase): World
    requires d in w.deliveries
  {
    w.(deliveries := w.deliveries[d := w.deliveries[d].(phase := phase)])
  }

  ghost function Apply(w: World, e: Event): World
    requires Enabled(w, e)
  {
    match e
    case Time(to) => w.(now := to)
    case Suspend(schedulable) => w.(row := w.row.(schedulable := schedulable))
    case CronFires(c, tick) => w.(crons := w.crons[c := Cron(tick, w.now, Looping)])
    case ReadTime(c) => SetCron(w, c, Querying(w.now))
    case Select(c) => SetCron(w, c, Selected(w.crons[c].phase.at, w.row.nextAt))
    case Claim(c) =>
      var sel := w.crons[c].phase;
      if ClaimMatches(w.row, sel.at, sel.previous)
      then SetCron(w.(row := Claimed(w.row, w.crons[c].tick, sel.at)), c, Won)
      else SetCron(w, c, Looping)
    case Send(c, message) => SetCron(w.(messages := w.messages[message := Message(w.crons[c].tick, 0)]), c, Looping)
    case RefuseBatch(c) => SetCron(w, c, Refused)
    case Unclaim(c) => SetCron(w.(row := Unclaimed(w.row, w.crons[c].tick)), c, Done)
    case CronDies(c) => SetCron(w, c, Done)
    case Deliver(message, delivery, attempt) =>
      var m := w.messages[message];
      w.(messages := w.messages[message := m.(attempts := attempt)],
         deliveries := w.deliveries[delivery := Delivery(message, m.run, attempt, Fetched)])
    case Load(d) =>
      if w.row.claim == Some(w.deliveries[d].run) && w.row.schedulable then SetDelivery(w, d, Loaded)
      else w.(deliveries := Without(w.deliveries, d))
    case ReadClock(d) => SetDelivery(w, d, Starting(w.now))
    case Start(d, timeout) =>
      var token := TokenOf(w.deliveries[d]);
      if StartMatches(w.row, token)
      then SetDelivery(w.(row := Started(w.row, token, w.deliveries[d].phase.startedAt, timeout)), d,
          Calling(w.now + timeout))
      else w.(deliveries := Without(w.deliveries, d))
    case CallEnds(d) => SetDelivery(w, d, Answered(w.now))
    case Finish(d, summary, streak) =>
      var run := w.deliveries[d];
      w.(row := Finished(w.row, TokenOf(run), NextDueAfterRun(run.run, run.phase.finishedAt, summary, streak)))
    case DeliveryEnds(d) => w.(deliveries := Without(w.deliveries, d))
  }

  ghost predicate Runs(w: World, events: seq<Event>)
    decreases |events|
  {
    events == [] || (Enabled(w, events[0]) && Runs(Apply(w, events[0]), events[1..]))
  }

  ghost function After(w: World, events: seq<Event>): World
    requires Runs(w, events)
    decreases |events|
  {
    if events == [] then w else After(Apply(w, events[0]), events[1..])
  }

  /** A tenant just made ready: due at once, nothing claimed, nothing under way. */
  predicate Initial(w: World) {
    && w.row.nextAt <= w.now && w.row.claim.None? && w.row.running.None? && w.row.leaseUntil.None?
    && w.crons == map[] && w.messages == map[] && w.deliveries == map[]
  }

  // ----- how punctual the crons are ----------------------------------------

  ghost predicate HasCron(w: World, tick: int) { exists c :: c in w.crons && w.crons[c].tick == tick }

  /** Every claim lands less than `limit` past its cron's tick; with `single`, a tick's cron is invoked only once. */
  ghost predicate InTime(w: World, e: Event, single: bool, limit: int)
    requires Enabled(w, e)
  {
    && (e.Claim? ==> w.now < w.crons[e.cron].tick + limit)
    && (e.CronFires? && single ==> !HasCron(w, e.tick))
  }

  ghost predicate AllInTime(w: World, events: seq<Event>, single: bool, limit: int)
    requires Runs(w, events)
    decreases |events|
  {
    events == [] || (InTime(w, events[0], single, limit) && AllInTime(Apply(w, events[0]), events[1..], single, limit))
  }

  /** The limits under which nothing goes wrong; SchedulingLateCron shows there are no others. */
  const SINGLE_LIMIT_MS := MINUTE_MS - DUE_SLACK_MS
  const SHORTEST_RUN_LEASE_MS := CallTimeoutMs(60_000) + RUN_LEASE_MARGIN_MS
  const OVERLAP_LIMIT_MS := SHORTEST_RUN_LEASE_MS - DUE_SLACK_MS

  function Limit(single: bool): int { if single then SINGLE_LIMIT_MS else OVERLAP_LIMIT_MS }

  // ----- what every step in time keeps -------------------------------------

  /** A call in flight holds the row: its claim, its token, and a lease that outlasts it. */
  predicate HoldsRow(w: World, d: Delivery) {
    d.phase.Calling? ==>
      && w.row.claim == Some(d.run)
      && w.row.running == Some(TokenOf(d))
      && w.row.leaseUntil.Some?
      && w.now <= d.phase.deadline < w.row.leaseUntil.value
  }

  ghost predicate CallsHoldRow(w: World) {
    forall d | d in w.deliveries :: HoldsRow(w, w.deliveries[d])
  }

  /** While its run is still the claimed one, a started delivery's token is the running one. */
  ghost predicate StartedTokens(w: World) {
    forall d | d in w.deliveries && HasStarted(w.deliveries[d]) && w.row.claim == Some(w.deliveries[d].run) ::
      w.row.running == Some(TokenOf(w.deliveries[d]))
  }

  /** A claimed run's call was started by one delivery only. */
  ghost predicate StartedOnce(w: World) {
    forall c, d | c in w.deliveries && d in w.deliveries && HasStarted(w.deliveries[c]) && HasStarted(w.deliveries[d])
                  && w.deliveries[c].run == w.deliveries[d].run && w.row.claim == Some(w.deliveries[c].run) :: c == d
  }

  ghost predicate DeliveriesMatch(w: World) {
    forall d | d in w.deliveries ::
      && w.deliveries[d].message in w.messages
      && w.messages[w.deliveries[d].message] == Message(w.deliveries[d].run, w.deliveries[d].attempt)
  }

  /** A run id is sent once. */
  ghost predicate RunsSentOnce(w: World) {
    forall m, n | m in w.messages && n in w.messages && w.messages[m].run == w.messages[n].run :: m == n
  }

  ghost predicate Sent(messages: map<nat, Message>, run: int) { exists m :: m in messages && messages[m].run == run }

  ghost predicate MessagesHaveCrons(w: World) {
    forall m | m in w.messages :: HasCron(w, w.messages[m].run)
  }

  /** A cron between winning a claim and sending it or giving it back. */
  predicate Holding(w: World, c: nat) { c in w.crons && (w.crons[c].phase.Won? || w.crons[c].phase.Refused?) }

  /** Of a tick's crons one at most holds a claim, of a run id not sent. */
  ghost predicate OneHolder(w: World) {
    && (forall c, d | Holding(w, c) && Holding(w, d) && w.crons[c].tick == w.crons[d].tick :: c == d)
    && (forall c | Holding(w, c) :: !Sent(w.messages, w.crons[c].tick))
  }

  /** A cron's clock readings, and what it selected by them. */
  predicate CronOk(w: World, c: Cron) {
    && IsTick(c.tick) && c.started <= w.now && c.tick <= c.started + DUE_SLACK_MS
    && (c.phase.Querying? || c.phase.Selected? ==>
        c.started <= c.phase.at <= w.now && c.phase.at < c.started + CLAIM_TIME_BUDGET_MS)
    && (c.phase.Selected? ==> c.phase.previous <= c.phase.at + DUE_SLACK_MS)
  }

  ghost predicate CronsOk(w: World, single: bool) {
    && (forall c | c in w.crons :: CronOk(w, w.crons[c]))
    && (single ==> forall c, d | c in w.crons && d in w.crons && w.crons[c].tick == w.crons[d].tick :: c == d)
  }

  /** The lease on a claimed run outlasts every reading its tick's crons may still claim by. */
  ghost predicate LeaseBlocks(w: World, single: bool, run: int) {
    && w.row.claim == Some(run) && w.row.leaseUntil.Some?
    && w.row.leaseUntil.value >= run + OVERLAP_LIMIT_MS
    && (single ==> forall c | c in w.crons && w.crons[c].tick == run ::
        w.row.leaseUntil.value >= w.crons[c].started + CLAIM_TIME_BUDGET_MS)
  }

  /**
   * A run id once won can't be claimed again in time: the tenant is due later, or
   * it is too late, or the lease forbids it.
   */
  ghost predicate NotAgain(w: World, single: bool, run: int) {
    w.row.nextAt >= run + MINUTE_MS || w.now >= run + Limit(single) || LeaseBlocks(w, single, run)
  }

  ghost predicate TakenNotAgain(w: World, single: bool) {
    && MessagesHaveCrons(w)
    && (forall m | m in w.messages :: NotAgain(w, single, w.messages[m].run))
    && (forall c | Holding(w, c) :: NotAgain(w, single, w.crons[c].tick))
  }

  /** A claimed tenant was due before the tick after its claim's, so finishing always moves the due time on. */
  ghost predicate ClaimBeforeNextTick(w: World) {
    w.row.claim.Some? ==> HasCron(w, w.row.claim.value) && w.row.nextAt < w.row.claim.value + MINUTE_MS
  }

  /** A run starts after its tick's crons fired. */
  ghost predicate StartOk(w: World, single: bool, d: Delivery) {
    && HasCron(w, d.run)
    && (d.phase.Starting? ==>
          && d.run <= d.phase.startedAt + DUE_SLACK_MS && d.phase.startedAt <= w.now
          && (single ==> forall c | c in w.crons && w.crons[c].tick == d.run ::
              w.crons[c].started <= d.phase.startedAt))
    && (d.phase.Answered? ==> d.run <= d.phase.finishedAt + DUE_SLACK_MS && d.phase.finishedAt <= w.now)
  }

  ghost predicate StartsOk(w: World, single: bool) {
    forall d | d in w.deliveries :: StartOk(w, single, w.deliveries[d])
  }

  ghost predicate CallsOk(w: World) {
    CallsHoldRow(w) && StartedTokens(w) && StartedOnce(w) && DeliveriesMatch(w) && RunsSentOnce(w)
  }

  ghost predicate StartsAfterClaims(w: World, single: bool) { ClaimBeforeNextTick(w) && StartsOk(w, single) }

  ghost predicate Inv(w: World, single: bool) {
    CallsOk(w) && OneHolder(w) && CronsOk(w, single) && TakenNotAgain(w, single) && StartsAfterClaims(w, single)
  }

  lemma InitialInv(w: World, single: bool)
    requires Initial(w)
    ensures Inv(w, single)
  {
  }

  // ----- what a step leaves alone -------------------------------------------------

  /** Crons move on but keep their tick and start. */
  ghost predicate SameCrons(w: World, v: World) {
    && (forall c | c in w.crons ::
          c in v.crons && v.crons[c].tick == w.crons[c].tick && v.crons[c].started == w.crons[c].started)
    && (forall c | c in v.crons :: c in w.crons)
  }

  lemma HasCronKept(w: World, v: World, tick: int)
    requires HasCron(w, tick) && forall c | c in w.crons :: c in v.crons && v.crons[c].tick == w.crons[c].tick
    ensures HasCron(v, tick)
  {
    var c :| c in w.crons && w.crons[c].tick == tick;
    assert c in v.crons && v.crons[c].tick == tick;
  }

  lemma CallsKept(w: World, v: World)
    requires CallsOk(w) && v == w.(crons := v.crons)
    ensures CallsOk(v)
  {
    forall d | d in v.deliveries ensures HoldsRow(v, v.deliveries[d]) {
      assert HoldsRow(w, w.deliveries[d]);
    }
  }

  /** No new claim held, and no new message. */
  lemma HoldersKept(w: World, v: World)
    requires OneHolder(w) && SameCrons(w, v) && v.messages == w.messages && forall c | Holding(v, c) :: Holding(w, c)
    ensures OneHolder(v)
  {
    forall b, c | Holding(v, b) && Holding(v, c) && v.crons[b].tick == v.crons[c].tick ensures b == c {
      assert Holding(w, b) && Holding(w, c);
    }
    forall c | Holding(v, c) ensures !Sent(v.messages, v.crons[c].tick) { assert Holding(w, c); }
  }

  /** Starts are judged by the crons, the clock and the deliveries alone; claims by the crons and the due time. */
  lemma StartsKept(w: World, v: World, single: bool)
    requires StartsAfterClaims(w, single) && SameCrons(w, v) && v.deliveries == w.deliveries && v.now >= w.now
    requires v.row.claim.None? || (v.row.claim == w.row.claim && v.row.nextAt == w.row.nextAt)
    ensures StartsAfterClaims(v, single)
  {
    forall d | d in v.deliveries ensures StartOk(v, single, v.deliveries[d]) {
      assert StartOk(w, single, w.deliveries[d]);
      HasCronKept(w, v, v.deliveries[d].run);
    }
    if v.row.claim.Some? { HasCronKept(w, v, v.row.claim.value); }
  }

  lemma TakenKept(w: World, v: World, single: bool)
    requires TakenNotAgain(w, single) && SameCrons(w, v) && v.messages == w.messages && v.now >= w.now
             && v.row.nextAt >= w.row.nextAt
    requires v.row.claim == w.row.claim && v.row.leaseUntil == w.row.leaseUntil
    requires forall c | Holding(v, c) :: Holding(w, c)
    ensures TakenNotAgain(v, single)
  {
    forall m | m in v.messages ensures HasCron(v, v.messages[m].run) && NotAgain(v, single, v.messages[m].run) {
      assert NotAgain(w, single, w.messages[m].run);
      HasCronKept(w, v, v.messages[m].run);
    }
    forall c | Holding(v, c) ensures NotAgain(v, single, v.crons[c].tick) {
      assert Holding(w, c) && NotAgain(w, single, w.crons[c].tick);
    }
  }

  lemma OneRunPerCall(w: World, c: nat, d: nat)
    requires DeliveriesMatch(w) && RunsSentOnce(w)
    requires c in w.deliveries && d in w.deliveries && w.deliveries[c].run == w.deliveries[d].run
    ensures w.deliveries[c].message == w.deliveries[d].message
    ensures TokenOf(w.deliveries[c]) == TokenOf(w.deliveries[d])
  {
    assert w.messages[w.deliveries[c].message] == Message(w.deliveries[c].run, w.deliveries[c].attempt);
    assert w.messages[w.deliveries[d].message] == Message(w.deliveries[d].run, w.deliveries[d].attempt);
  }

  /** A delivered run was sent. */
  lemma DeliveredWasSent(w: World, d: nat)
    requires DeliveriesMatch(w) && d in w.deliveries
    ensures Sent(w.messages, w.deliveries[d].run)
  {
    assert w.messages[w.deliveries[d].message].run == w.deliveries[d].run;
  }

  // ----- finishing ------------------------------------------------------------

  /** A finish of the claimed run moves the due time on, past every claim of its own run id. */
  lemma FinishKeepsDue(w: World, v: World, single: bool)
    requires TakenNotAgain(w, single) && v == w.(row := v.row) && w.row.claim.Some?
    requires v.row.nextAt >= w.row.claim.value + MINUTE_MS && v.row.nextAt >= w.row.nextAt
    ensures TakenNotAgain(v, single)
  {
    forall m | m in v.messages ensures HasCron(v, v.messages[m].run) && NotAgain(v, single, v.messages[m].run) {
      assert NotAgain(w, single, w.messages[m].run);
      HasCronKept(w, v, v.messages[m].run);
    }
    forall c | Holding(v, c) ensures NotAgain(v, single, v.crons[c].tick) {
      assert Holding(w, c) && NotAgain(w, single, w.crons[c].tick);
    }
  }

  lemma FinishCalls(w: World, e: Event)
    requires CallsOk(w) && e.Finish? && Enabled(w, e)
    ensures CallsOk(Apply(w, e))
  {
    var d := w.deliveries[e.delivery];
    var v := Apply(w, e);
    forall c | c in v.deliveries ensures HoldsRow(v, v.deliveries[c]) {
      assert HoldsRow(w, w.deliveries[c]);
    }
  }

  lemma FinishTaken(w: World, e: Event, single: bool)
    requires TakenNotAgain(w, single) && StartsAfterClaims(w, single) && e.Finish? && Enabled(w, e)
             && IsTick(w.deliveries[e.delivery].run)
    ensures TakenNotAgain(Apply(w, e), single)
  {
    var d := w.deliveries[e.delivery];
    if w.row.claim == Some(d.run) && w.row.running == Some(TokenOf(d)) {
      assert StartOk(w, single, d);
      DueIsBounded(d.run, d.phase.finishedAt, e.summary, e.streak);
      TickIsCurrent(d.run);
      FinishKeepsDue(w, Apply(w, e), single);
    }
  }

  lemma RunIsTick(w: World, single: bool, d: nat)
    requires CronsOk(w, single) && StartsOk(w, single) && d in w.deliveries
    ensures IsTick(w.deliveries[d].run)
  {
    assert StartOk(w, single, w.deliveries[d]);
    var c :| c in w.crons && w.crons[c].tick == w.deliveries[d].run;
    assert CronOk(w, w.crons[c]);
  }

  lemma FinishInv(w: World, e: Event, single: bool)
    requires Inv(w, single) && e.Finish? && Enabled(w, e)
    ensures Inv(Apply(w, e), single)
  {
    RunIsTick(w, single, e.delivery);
    FinishCalls(w, e);
    FinishTaken(w, e, single);
    HoldersKept(w, Apply(w, e));
    StartsKept(w, Apply(w, e), single);
    CronsStay(w, Apply(w, e), single);
  }

  // ----- time, crons ---------------------------------------------------------------

  lemma TimeCalls(w: World, e: Event)
    requires CallsOk(w) && (e.Time? || e.Suspend?) && Enabled(w, e)
    ensures CallsOk(Apply(w, e))
  {
    var v := Apply(w, e);
    forall d | d in v.deliveries ensures HoldsRow(v, v.deliveries[d]) {
      assert HoldsRow(w, w.deliveries[d]);
      assert w.deliveries[d].phase.Calling? ==> IsCalling(w, d);
    }
  }

  lemma TimeInv(w: World, e: Event, single: bool)
    requires Inv(w, single) && (e.Time? || e.Suspend?) && Enabled(w, e)
    ensures Inv(Apply(w, e), single)
  {
    var v := Apply(w, e);
    TimeCalls(w, e);
    HoldersKept(w, v);
    TakenKept(w, v, single);
    StartsKept(w, v, single);
    forall c | c in v.crons ensures CronOk(v, v.crons[c]) { assert CronOk(w, w.crons[c]); }
  }

  lemma FiresTaken(w: World, c: nat, tick: int, single: bool)
    requires TakenNotAgain(w, single) && Enabled(w, CronFires(c, tick)) && (single ==> !HasCron(w, tick))
    ensures TakenNotAgain(Apply(w, CronFires(c, tick)), single)
  {
    var v := Apply(w, CronFires(c, tick));
    forall m | m in v.messages ensures HasCron(v, v.messages[m].run) && NotAgain(v, single, v.messages[m].run) {
      assert NotAgain(w, single, w.messages[m].run);
      HasCronKept(w, v, v.messages[m].run);
    }
    forall b | Holding(v, b) ensures NotAgain(v, single, v.crons[b].tick) {
      assert Holding(w, b) && NotAgain(w, single, w.crons[b].tick);
    }
  }

  lemma FiresStarts(w: World, c: nat, tick: int, single: bool)
    requires StartsAfterClaims(w, single) && Enabled(w, CronFires(c, tick)) && (single ==> !HasCron(w, tick))
    ensures StartsAfterClaims(Apply(w, CronFires(c, tick)), single)
  {
    var v := Apply(w, CronFires(c, tick));
    forall d | d in v.deliveries ensures StartOk(v, single, v.deliveries[d]) {
      assert StartOk(w, single, w.deliveries[d]);
      HasCronKept(w, v, v.deliveries[d].run);
    }
    if v.row.claim.Some? { HasCronKept(w, v, v.row.claim.value); }
  }

  lemma FiresCrons(w: World, c: nat, tick: int, single: bool)
    requires OneHolder(w) && CronsOk(w, single) && Enabled(w, CronFires(c, tick)) && (single ==> !HasCron(w, tick))
    ensures OneHolder(Apply(w, CronFires(c, tick))) && CronsOk(Apply(w, CronFires(c, tick)), single)
  {
    var v := Apply(w, CronFires(c, tick));
    forall b | b in v.crons ensures CronOk(v, v.crons[b]) { assert b != c ==> CronOk(w, w.crons[b]); }
    forall b, d | Holding(v, b) && Holding(v, d) && v.crons[b].tick == v.crons[d].tick ensures b == d {
      assert Holding(w, b) && Holding(w, d);
    }
    forall b | Holding(v, b) ensures !Sent(v.messages, v.crons[b].tick) { assert Holding(w, b); }
  }

  lemma FiresInv(w: World, e: Event, single: bool)
    requires Inv(w, single) && e.CronFires? && Enabled(w, e) && (single ==> !HasCron(w, e.tick))
    ensures Inv(Apply(w, e), single)
  {
    CallsKept(w, Apply(w, e));
    FiresTaken(w, e.cron, e.tick, single);
    FiresStarts(w, e.cron, e.tick, single);
    FiresCrons(w, e.cron, e.tick, single);
  }

  lemma CronsKept(w: World, c: nat, phase: CronPhase, single: bool)
    requires CronsOk(w, single) && c in w.crons && CronOk(w, w.crons[c].(phase := phase))
    ensures CronsOk(SetCron(w, c, phase), single) && SameCrons(w, SetCron(w, c, phase))
  {
    var v := SetCron(w, c, phase);
    forall b | b in v.crons ensures CronOk(v, v.crons[b]) { assert CronOk(w, w.crons[b]); }
  }

  /** A cron moves on without touching the row; it holds a claim only if it did before. */
  lemma CronMovesInv(w: World, v: World, c: nat, phase: CronPhase, single: bool)
    requires Inv(w, single) && c in w.crons && v == SetCron(w, c, phase)
    requires phase.Won? || phase.Refused? ==> Holding(w, c)
    requires CronOk(w, w.crons[c].(phase := phase))
    ensures Inv(v, single)
  {
    CronsKept(w, c, phase, single);
    CallsKept(w, v);
    HoldersKept(w, v);
    TakenKept(w, v, single);
    StartsKept(w, v, single);
  }

  // ----- claiming ----------------------------------------------------------------------

  ghost predicate Taken(w: World, tick: int) {
    Sent(w.messages, tick) || exists c :: Holding(w, c) && w.crons[c].tick == tick
  }

  /** A claim that wins in time wins a run id nobody has won before and not given back. */
  lemma WinsOnlyUntaken(w: World, c: nat, single: bool)
    requires Inv(w, single) && Enabled(w, Claim(c)) && w.now < w.crons[c].tick + Limit(single)
    requires ClaimMatches(w.row, w.crons[c].phase.at, w.crons[c].phase.previous)
    ensures !Taken(w, w.crons[c].tick) && w.row.nextAt < w.crons[c].tick + MINUTE_MS
  {
    var cron := w.crons[c];
    assert CronOk(w, cron);
    assert !NotAgain(w, single, cron.tick);
    forall m | m in w.messages ensures w.messages[m].run != cron.tick { assert NotAgain(w, single, w.messages[m].run); }
    forall b | Holding(w, b) ensures w.crons[b].tick != cron.tick { assert NotAgain(w, single, w.crons[b].tick); }
  }

  /**
   * In time, only a tick's own crons claim until it is too late for them: for any
   * other tick a claim lands later or came before.
   */
  lemma OtherTicksAreOver(w: World, c: nat, single: bool, tick: int)
    requires CronsOk(w, single) && c in w.crons && w.now < w.crons[c].tick + Limit(single) && HasCron(w, tick)
             && tick != w.crons[c].tick
    ensures w.now >= tick + Limit(single)
  {
    var b :| b in w.crons && w.crons[b].tick == tick;
    assert CronOk(w, w.crons[b]) && CronOk(w, w.crons[c]);
  }

  lemma ClaimTaken(w: World, c: nat, single: bool)
    requires Inv(w, single) && Enabled(w, Claim(c)) && w.now < w.crons[c].tick + Limit(single)
    requires ClaimMatches(w.row, w.crons[c].phase.at, w.crons[c].phase.previous)
    ensures TakenNotAgain(Apply(w, Claim(c)), single)
  {
    var v := Apply(w, Claim(c));
    var tick := w.crons[c].tick;
    WinsOnlyUntaken(w, c, single);
    forall m | m in v.messages ensures HasCron(v, v.messages[m].run) && NotAgain(v, single, v.messages[m].run) {
      HasCronKept(w, v, w.messages[m].run);
      OtherTicksAreOver(w, c, single, w.messages[m].run);
    }
    forall b | Holding(v, b) ensures NotAgain(v, single, v.crons[b].tick) {
      if b == c {
        WonBlocks(w, c, single);
      } else {
        assert Holding(w, b) && HasCron(w, w.crons[b].tick);
        OtherTicksAreOver(w, c, single, w.crons[b].tick);
      }
    }
  }

  lemma WonBlocks(w: World, c: nat, single: bool)
    requires CronsOk(w, single) && Enabled(w, Claim(c))
             && ClaimMatches(w.row, w.crons[c].phase.at, w.crons[c].phase.previous)
    ensures LeaseBlocks(Apply(w, Claim(c)), single, w.crons[c].tick)
  {
    assert CronOk(w, w.crons[c]);
  }

  lemma WonCalls(w: World, c: nat)
    requires CallsOk(w) && Enabled(w, Claim(c)) && ClaimMatches(w.row, w.crons[c].phase.at, w.crons[c].phase.previous)
    requires w.crons[c].phase.at <= w.now && !Sent(w.messages, w.crons[c].tick)
    ensures CallsOk(Apply(w, Claim(c)))
  {
    var v := Apply(w, Claim(c));
    forall d | d in w.deliveries ensures HoldsRow(v, v.deliveries[d]) && w.deliveries[d].run != w.crons[c].tick {
      assert HoldsRow(w, w.deliveries[d]);
      DeliveredWasSent(w, d);
    }
  }

  lemma WonHolders(w: World, c: nat)
    requires OneHolder(w) && Enabled(w, Claim(c)) && ClaimMatches(w.row, w.crons[c].phase.at, w.crons[c].phase.previous)
    requires !Taken(w, w.crons[c].tick)
    ensures OneHolder(Apply(w, Claim(c)))
  {
    var v := Apply(w, Claim(c));
    forall b, d | Holding(v, b) && Holding(v, d) && v.crons[b].tick == v.crons[d].tick ensures b == d {
      assert b != c ==> Holding(w, b);
      assert d != c ==> Holding(w, d);
    }
    forall b | Holding(v, b) ensures !Sent(v.messages, v.crons[b].tick) { assert b != c ==> Holding(w, b); }
  }

  lemma WonStarts(w: World, c: nat, single: bool)
    requires StartsAfterClaims(w, single) && Enabled(w, Claim(c))
             && ClaimMatches(w.row, w.crons[c].phase.at, w.crons[c].phase.previous)
    requires w.row.nextAt < w.crons[c].tick + MINUTE_MS
    ensures StartsAfterClaims(Apply(w, Claim(c)), single)
  {
    var v := Apply(w, Claim(c));
    forall d | d in v.deliveries ensures StartOk(v, single, v.deliveries[d]) {
      assert StartOk(w, single, w.deliveries[d]);
      HasCronKept(w, v, v.deliveries[d].run);
    }
    assert c in v.crons && v.crons[c].tick == w.crons[c].tick;
  }

  lemma WonInv(w: World, c: nat, single: bool)
    requires Inv(w, single) && Enabled(w, Claim(c)) && w.now < w.crons[c].tick + Limit(single)
    requires ClaimMatches(w.row, w.crons[c].phase.at, w.crons[c].phase.previous)
    ensures Inv(Apply(w, Claim(c)), single)
  {
    assert CronOk(w, w.crons[c]);
    WinsOnlyUntaken(w, c, single);
    ClaimTaken(w, c, single);
    WonCalls(w, c);
    WonHolders(w, c);
    WonStarts(w, c, single);
    CronsKept(w, c, Won, single);
    var v := Apply(w, Claim(c));
    assert v.crons == SetCron(w, c, Won).crons && v.now == w.now;
    forall b | b in v.crons ensures CronOk(v, v.crons[b]) { assert CronOk(SetCron(w, c, Won), v.crons[b]); }
  }

  lemma ClaimInv(w: World, e: Event, single: bool)
    requires Inv(w, single) && e.Claim? && Enabled(w, e) && w.now < w.crons[e.cron].tick + Limit(single)
    ensures Inv(Apply(w, e), single)
  {
    var sel := w.crons[e.cron].phase;
    if ClaimMatches(w.row, sel.at, sel.previous) {
      WonInv(w, e.cron, single);
    } else {
      assert CronOk(w, w.crons[e.cron]);
      CronMovesInv(w, Apply(w, e), e.cron, Looping, single);
    }
  }

  // ----- giving back, sending ---------------------------------------------------------

  /** Once its claim is given back, nothing is left of it: not sent, and nobody else held it. */
  lemma UnclaimTaken(w: World, c: nat, single: bool)
    requires TakenNotAgain(w, single) && OneHolder(w) && Enabled(w, Unclaim(c))
    ensures TakenNotAgain(Apply(w, Unclaim(c)), single)
  {
    var v := Apply(w, Unclaim(c));
    var tick := w.crons[c].tick;
    assert Holding(w, c);
    forall m | m in v.messages ensures HasCron(v, v.messages[m].run) && NotAgain(v, single, v.messages[m].run) {
      HasCronKept(w, v, v.messages[m].run);
      assert NotAgain(w, single, w.messages[m].run) && w.messages[m].run != tick;
    }
    forall b | Holding(v, b) ensures NotAgain(v, single, v.crons[b].tick) {
      assert Holding(w, b) && NotAgain(w, single, w.crons[b].tick) && w.crons[b].tick != tick;
    }
  }

  lemma UnclaimCalls(w: World, c: nat)
    requires CallsOk(w) && Enabled(w, Unclaim(c)) && !Sent(w.messages, w.crons[c].tick)
    ensures CallsOk(Apply(w, Unclaim(c)))
  {
    var v := Apply(w, Unclaim(c));
    forall d | d in w.deliveries ensures HoldsRow(v, v.deliveries[d]) {
      assert HoldsRow(w, w.deliveries[d]);
      DeliveredWasSent(w, d);
    }
  }

  lemma UnclaimInv(w: World, e: Event, single: bool)
    requires Inv(w, single) && e.Unclaim? && Enabled(w, e)
    ensures Inv(Apply(w, e), single)
  {
    assert Holding(w, e.cron) && CronOk(w, w.crons[e.cron]);
    UnclaimTaken(w, e.cron, single);
    UnclaimCalls(w, e.cron);
    CronsKept(w, e.cron, Done, single);
    CronsStay(SetCron(w, e.cron, Done), Apply(w, e), single);
    HoldersKept(w, Apply(w, e));
    StartsKept(w, Apply(w, e), single);
  }

  lemma SentCalls(w: World, tick: int, message: nat)
    requires CallsOk(w) && message !in w.messages && !Sent(w.messages, tick)
    ensures CallsOk(w.(messages := w.messages[message := Message(tick, 0)]))
  {
    var v := w.(messages := w.messages[message := Message(tick, 0)]);
    forall d | d in v.deliveries ensures HoldsRow(v, v.deliveries[d]) {
      assert HoldsRow(w, w.deliveries[d]);
    }
  }

  lemma SentTaken(w: World, tick: int, message: nat, single: bool)
    requires TakenNotAgain(w, single) && HasCron(w, tick) && message !in w.messages && NotAgain(w, single, tick)
    ensures TakenNotAgain(w.(messages := w.messages[message := Message(tick, 0)]), single)
  {
    var v := w.(messages := w.messages[message := Message(tick, 0)]);
    forall m | m in v.messages ensures HasCron(v, v.messages[m].run) && NotAgain(v, single, v.messages[m].run) {
      if m in w.messages { assert NotAgain(w, single, w.messages[m].run); }
      HasCronKept(w, v, v.messages[m].run);
    }
    forall c | Holding(v, c) ensures NotAgain(v, single, v.crons[c].tick) {
      assert Holding(w, c) && NotAgain(w, single, w.crons[c].tick);
    }
  }

  /** A new message, of a run id not sent before and held by no cron any more. */
  lemma MessageSentInv(w: World, tick: int, message: nat, single: bool)
    requires Inv(w, single) && HasCron(w, tick) && message !in w.messages && !Taken(w, tick)
             && NotAgain(w, single, tick)
    ensures Inv(w.(messages := w.messages[message := Message(tick, 0)]), single)
  {
    var v := w.(messages := w.messages[message := Message(tick, 0)]);
    SentCalls(w, tick, message);
    SentTaken(w, tick, message, single);
    StartsKept(w, v, single);
    forall c | Holding(v, c) ensures !Sent(v.messages, v.crons[c].tick) {
      assert Holding(w, c);
      forall m | m in v.messages ensures v.messages[m].run != v.crons[c].tick {
        if m in w.messages { assert w.messages[m].run != w.crons[c].tick; }
      }
    }
    forall b, c | Holding(v, b) && Holding(v, c) && v.crons[b].tick == v.crons[c].tick ensures b == c {
      assert Holding(w, b) && Holding(w, c);
    }
    forall c | c in v.crons ensures CronOk(v, v.crons[c]) { assert CronOk(w, w.crons[c]); }
  }

  lemma SendInv(w: World, e: Event, single: bool)
    requires Inv(w, single) && e.Send? && Enabled(w, e)
    ensures Inv(Apply(w, e), single)
  {
    var tick := w.crons[e.cron].tick;
    var u := SetCron(w, e.cron, Looping);
    assert Holding(w, e.cron) && CronOk(w, w.crons[e.cron]) && NotAgain(w, single, tick);
    CronMovesInv(w, u, e.cron, Looping, single);
    CronsKept(w, e.cron, Looping, single);
    assert u.crons[e.cron].tick == tick && HasCron(u, tick);
    forall b | Holding(u, b) ensures u.crons[b].tick != tick { assert Holding(w, b); }
    MessageSentInv(u, tick, e.message, single);
    assert Apply(w, e) == u.(messages := u.messages[e.message := Message(tick, 0)]);
  }

  // ----- deliveries ------------------------------------------------------------------------

  /** No delivery of the message is left. */
  ghost predicate NoneOf(w: World, message: nat) {
    forall d | d in w.deliveries :: w.deliveries[d].message != message
  }

  lemma AttemptCalls(w: World, message: nat, attempt: nat)
    requires CallsOk(w) && message in w.messages
    requires w.messages[message].attempts != attempt ==> NoneOf(w, message)
    ensures CallsOk(w.(messages := w.messages[message := w.messages[message].(attempts := attempt)]))
  {
    var v := w.(messages := w.messages[message := w.messages[message].(attempts := attempt)]);
    forall d | d in v.deliveries ensures HoldsRow(v, v.deliveries[d]) {
      assert HoldsRow(w, w.deliveries[d]);
    }
  }

  lemma AttemptTaken(w: World, message: nat, attempt: nat, single: bool)
    requires TakenNotAgain(w, single) && OneHolder(w) && message in w.messages
    ensures var v := w.(messages := w.messages[message := w.messages[message].(attempts := attempt)]);
            TakenNotAgain(v, single) && OneHolder(v)
  {
    var v := w.(messages := w.messages[message := w.messages[message].(attempts := attempt)]);
    forall n | n in v.messages ensures HasCron(v, v.messages[n].run) && NotAgain(v, single, v.messages[n].run) {
      assert n in w.messages && w.messages[n].run == v.messages[n].run && NotAgain(w, single, w.messages[n].run);
      HasCronKept(w, v, v.messages[n].run);
    }
    forall c | Holding(v, c) ensures !Sent(v.messages, v.crons[c].tick) && NotAgain(v, single, v.crons[c].tick) {
      assert Holding(w, c) && NotAgain(w, single, w.crons[c].tick);
      forall n | n in v.messages ensures v.messages[n].run != v.crons[c].tick { assert n in w.messages; }
    }
    forall b, c | Holding(v, b) && Holding(v, c) && v.crons[b].tick == v.crons[c].tick ensures b == c {
      assert Holding(w, b) && Holding(w, c);
    }
  }

  /** A message's attempts go up only when none of its deliveries is left. */
  lemma AttemptInv(w: World, message: nat, attempt: nat, single: bool)
    requires Inv(w, single) && message in w.messages
    requires w.messages[message].attempts != attempt ==> NoneOf(w, message)
    ensures Inv(w.(messages := w.messages[message := w.messages[message].(attempts := attempt)]), single)
  {
    var v := w.(messages := w.messages[message := w.messages[message].(attempts := attempt)]);
    AttemptCalls(w, message, attempt);
    AttemptTaken(w, message, attempt, single);
    StartsKept(w, v, single);
    forall c | c in v.crons ensures CronOk(v, v.crons[c]) { assert CronOk(w, w.crons[c]); }
  }

  /** No delivery is newly started, and no started one changed its token. */
  ghost predicate NoNewStart(w: World, v: World) {
    forall d | d in v.deliveries && HasStarted(v.deliveries[d]) ::
      && d in w.deliveries && HasStarted(w.deliveries[d]) && TokenOf(v.deliveries[d]) == TokenOf(w.deliveries[d])
      && (v.deliveries[d].phase.Calling? ==> v.deliveries[d] == w.deliveries[d])
  }

  lemma NoNewStartCalls(w: World, v: World)
    requires CallsOk(w) && v == w.(deliveries := v.deliveries) && NoNewStart(w, v) && DeliveriesMatch(v)
    ensures CallsOk(v)
  {
    forall d | d in v.deliveries ensures HoldsRow(v, v.deliveries[d]) {
      if v.deliveries[d].phase.Calling? { assert HoldsRow(w, w.deliveries[d]); }
    }
  }

  /** Deliveries changed, or dropped, without a new start: everything else stays. */
  lemma DeliveriesInv(w: World, v: World, single: bool)
    requires Inv(w, single) && v == w.(deliveries := v.deliveries) && NoNewStart(w, v) && DeliveriesMatch(v)
             && StartsOk(v, single)
    ensures Inv(v, single)
  {
    NoNewStartCalls(w, v);
    HoldersKept(w, v);
    TakenKept(w, v, single);
    if v.row.claim.Some? { HasCronKept(w, v, v.row.claim.value); }
    forall c | c in v.crons ensures CronOk(v, v.crons[c]) { assert CronOk(w, w.crons[c]); }
  }

  lemma NewDeliveryInv(w: World, message: nat, delivery: nat, single: bool)
    requires Inv(w, single) && message in w.messages && delivery !in w.deliveries
    ensures var m := w.messages[message];
            Inv(w.(deliveries := w.deliveries[delivery := Delivery(message, m.run, m.attempts, Fetched)]), single)
  {
    var m := w.messages[message];
    var v := w.(deliveries := w.deliveries[delivery := Delivery(message, m.run, m.attempts, Fetched)]);
    forall d | d in v.deliveries ensures StartOk(v, single, v.deliveries[d]) {
      if d != delivery { assert StartOk(w, single, w.deliveries[d]); }
      HasCronKept(w, v, v.deliveries[d].run);
    }
    DeliveriesInv(w, v, single);
  }

  lemma DeliverInv(w: World, e: Event, single: bool)
    requires Inv(w, single) && e.Deliver? && Enabled(w, e)
    ensures Inv(Apply(w, e), single)
  {
    AttemptInv(w, e.message, e.attempt, single);
    NewDeliveryInv(w.(messages := w.messages[e.message := w.messages[e.message].(attempts := e.attempt)]), e.message,
        e.delivery, single);
  }

  /** A step of one delivery short of a start that matches. */
  predicate SmallMove(w: World, e: Event) {
    || e.Load? || e.ReadClock? || e.CallEnds? || e.DeliveryEnds?
    || (e.Start? && e.delivery in w.deliveries && !StartMatches(w.row, TokenOf(w.deliveries[e.delivery])))
  }

  lemma SmallMoveStarts(w: World, e: Event, single: bool)
    requires StartsOk(w, single) && CronsOk(w, single) && Enabled(w, e) && SmallMove(w, e)
    ensures StartsOk(Apply(w, e), single)
  {
    var v := Apply(w, e);
    forall d | d in v.deliveries ensures StartOk(v, single, v.deliveries[d]) {
      assert d in w.deliveries && StartOk(w, single, w.deliveries[d]);
      ReadingIsAfter(w, single, w.deliveries[d].run);
      HasCronKept(w, v, v.deliveries[d].run);
    }
  }

  lemma SmallMoveInv(w: World, e: Event, single: bool)
    requires Inv(w, single) && Enabled(w, e) && SmallMove(w, e)
    ensures Inv(Apply(w, e), single)
  {
    SmallMoveStarts(w, e, single);
    SmallMoveMatches(w, e);
    DeliveriesInv(w, Apply(w, e), single);
  }

  lemma SmallMoveMatches(w: World, e: Event)
    requires DeliveriesMatch(w) && Enabled(w, e) && SmallMove(w, e)
    ensures DeliveriesMatch(Apply(w, e)) && NoNewStart(w, Apply(w, e))
            && Apply(w, e) == w.(deliveries := Apply(w, e).deliveries)
  {
    var v := Apply(w, e);
    forall d | d in v.deliveries ensures d in w.deliveries {}
  }

  /** The clock is past every cron's firing, so past a run's tick less the slack. */
  lemma ReadingIsAfter(w: World, single: bool, run: int)
    requires CronsOk(w, single) && HasCron(w, run)
    ensures run <= w.now + DUE_SLACK_MS
    ensures forall c | c in w.crons :: w.crons[c].started <= w.now
  {
    var c :| c in w.crons && w.crons[c].tick == run;
    assert CronOk(w, w.crons[c]);
    forall b | b in w.crons ensures w.crons[b].started <= w.now { assert CronOk(w, w.crons[b]); }
  }

  /** A start that matches finds no other call: the claim names the run, and its one attempt has one token. */
  lemma StartsAlone(w: World, d: nat, single: bool)
    requires Inv(w, single) && d in w.deliveries && StartMatches(w.row, TokenOf(w.deliveries[d]))
    ensures forall c | c in w.deliveries && c != d :: !w.deliveries[c].phase.Calling?
    ensures forall c | c in w.deliveries && HasStarted(w.deliveries[c]) :: w.deliveries[c].run != w.deliveries[d].run
  {
    forall c | c in w.deliveries && HasStarted(w.deliveries[c]) ensures w.deliveries[c].run != w.deliveries[d].run {
      if w.deliveries[c].run == w.deliveries[d].run { OneRunPerCall(w, c, d); }
    }
    forall c | c in w.deliveries ensures HoldsRow(w, w.deliveries[c]) { }
  }

  lemma StartTaken(w: World, d: nat, timeout: int, single: bool)
    requires TakenNotAgain(w, single) && StartsOk(w, single) && Enabled(w, Start(d, timeout))
             && StartMatches(w.row, TokenOf(w.deliveries[d]))
    ensures TakenNotAgain(Apply(w, Start(d, timeout)), single)
  {
    var v := Apply(w, Start(d, timeout));
    assert StartOk(w, single, w.deliveries[d]);
    assert LeaseBlocks(v, single, w.deliveries[d].run);
    forall m | m in v.messages ensures HasCron(v, v.messages[m].run) && NotAgain(v, single, v.messages[m].run) {
      assert NotAgain(w, single, w.messages[m].run);
      HasCronKept(w, v, v.messages[m].run);
    }
    forall c | Holding(v, c) ensures NotAgain(v, single, v.crons[c].tick) {
      assert Holding(w, c) && NotAgain(w, single, w.crons[c].tick);
    }
  }

  lemma StartCalls(w: World, d: nat, timeout: int, single: bool)
    requires Inv(w, single) && Enabled(w, Start(d, timeout)) && StartMatches(w.row, TokenOf(w.deliveries[d]))
    ensures CallsOk(Apply(w, Start(d, timeout)))
  {
    var v := Apply(w, Start(d, timeout));
    StartsAlone(w, d, single);
    forall c | c in v.deliveries ensures HoldsRow(v, v.deliveries[c]) {
      assert c != d ==> v.deliveries[c] == w.deliveries[c];
    }
  }

  /** A start changes the row's running token and lease only. */
  lemma StartedStarts(w: World, d: nat, timeout: int, single: bool)
    requires StartsAfterClaims(w, single) && Enabled(w, Start(d, timeout))
             && StartMatches(w.row, TokenOf(w.deliveries[d]))
    ensures StartsAfterClaims(Apply(w, Start(d, timeout)), single)
  {
    var v := Apply(w, Start(d, timeout));
    forall c | c in v.deliveries ensures StartOk(v, single, v.deliveries[c]) {
      assert StartOk(w, single, w.deliveries[c]);
      HasCronKept(w, v, v.deliveries[c].run);
    }
    HasCronKept(w, v, v.row.claim.value);
  }

  lemma CronsStay(w: World, v: World, single: bool)
    requires CronsOk(w, single) && v.crons == w.crons && v.now >= w.now
    ensures CronsOk(v, single)
  {
    forall c | c in v.crons ensures CronOk(v, v.crons[c]) { assert CronOk(w, w.crons[c]); }
  }

  lemma StartedInv(w: World, d: nat, timeout: int, single: bool)
    requires Inv(w, single) && Enabled(w, Start(d, timeout)) && StartMatches(w.row, TokenOf(w.deliveries[d]))
    ensures Inv(Apply(w, Start(d, timeout)), single)
  {
    StartCalls(w, d, timeout, single);
    StartTaken(w, d, timeout, single);
    StartedStarts(w, d, timeout, single);
    HoldersKept(w, Apply(w, Start(d, timeout)));
    CronsStay(w, Apply(w, Start(d, timeout)), single);
  }

  lemma StartInv(w: World, e: Event, single: bool)
    requires Inv(w, single) && e.Start? && Enabled(w, e)
    ensures Inv(Apply(w, e), single)
  {
    if StartMatches(w.row, TokenOf(w.deliveries[e.delivery])) {
      StartedInv(w, e.delivery, e.timeout, single);
    } else {
      SmallMoveInv(w, e, single);
    }
  }

  predicate OfCron(e: Event) {
    e.CronFires? || e.ReadTime? || e.Select? || e.Claim? || e.Send? || e.RefuseBatch? || e.Unclaim? || e.CronDies?
  }

  lemma RoundInv(w: World, e: Event, single: bool)
    requires Inv(w, single) && Enabled(w, e) && (e.ReadTime? || e.Select? || e.RefuseBatch? || e.CronDies?)
    ensures Inv(Apply(w, e), single)
  {
    assert CronOk(w, w.crons[e.cron]);
    CronMovesInv(w, Apply(w, e), e.cron, Apply(w, e).crons[e.cron].phase, single);
  }

  lemma CronStepInv(w: World, e: Event, single: bool)
    requires Inv(w, single) && OfCron(e) && Enabled(w, e) && InTime(w, e, single, Limit(single))
    ensures Inv(Apply(w, e), single)
  {
    if e.CronFires? {
      FiresInv(w, e, single);
    } else if e.Claim? {
      ClaimInv(w, e, single);
    } else if e.Send? {
      SendInv(w, e, single);
    } else if e.Unclaim? {
      UnclaimInv(w, e, single);
    } else {
      RoundInv(w, e, single);
    }
  }

  lemma DeliveryStepInv(w: World, e: Event, single: bool)
    requires Inv(w, single) && Enabled(w, e) && !OfCron(e)
    ensures Inv(Apply(w, e), single)
  {
    if e.Time? || e.Suspend? {
      TimeInv(w, e, single);
    } else if e.Deliver? {
      DeliverInv(w, e, single);
    } else if e.Start? {
      StartInv(w, e, single);
    } else if e.Finish? {
      FinishInv(w, e, single);
    } else {
      SmallMoveInv(w, e, single);
    }
  }

  /** Every step of the protocol, interleaved any way, keeps the invariant, as long as claims land in time. */
  lemma StepInv(w: World, e: Event, single: bool)
    requires Inv(w, single) && Enabled(w, e) && InTime(w, e, single, Limit(single))
    ensures Inv(Apply(w, e), single)
  {
    if OfCron(e) { CronStepInv(w, e, single); } else { DeliveryStepInv(w, e, single); }
  }

  // ----- over whole runs -------------------------------------------------

  lemma {:induction false} RunInv(w: World, events: seq<Event>, single: bool, limit: int)
    requires Inv(w, single) && Runs(w, events) && AllInTime(w, events, single, limit) && limit <= Limit(single)
    ensures Inv(After(w, events), single)
    decreases |events|
  {
    if events != [] {
      StepInv(w, events[0], single);
      RunInv(Apply(w, events[0]), events[1..], single, limit);
    }
  }

  lemma Reachable(start: World, events: seq<Event>, single: bool, limit: int)
    requires Initial(start) && Runs(start, events) && AllInTime(start, events, single, limit) && limit <= Limit(single)
    ensures Inv(After(start, events), single)
  {
    InitialInv(start, single);
    RunInv(start, events, single, limit);
  }

  ghost predicate OneCallHoldingRow(w: World) {
    && (forall c, d | IsCalling(w, c) && IsCalling(w, d) :: c == d)
    && (forall d | IsCalling(w, d) :: HoldsRow(w, w.deliveries[d]))
  }

  lemma InvMeansOneCall(w: World)
    requires CallsHoldRow(w) && StartedOnce(w)
    ensures OneCallHoldingRow(w)
  {
    forall c, d | IsCalling(w, c) && IsCalling(w, d) ensures c == d {
      assert HoldsRow(w, w.deliveries[c]) && HoldsRow(w, w.deliveries[d]);
    }
  }

  /**
   * Over every interleaving of crons, late, lost, duplicate and repeated
   * deliveries, suspensions and crashes, in which every claim lands in time: at
   * most one scheduled call is in flight, and the row carries its claim, its
   * token and a lease ending after the call. Overlapping crons of one tick
   * have until its 45th second, a tick's only cron until its 55th.
   */
  lemma AtMostOneCall(start: World, events: seq<Event>, single: bool, limit: int)
    requires Initial(start) && Runs(start, events) && AllInTime(start, events, single, limit) && limit <= Limit(single)
    ensures OneCallHoldingRow(After(start, events))
  {
    Reachable(start, events, single, limit);
    InvMeansOneCall(After(start, events));
  }

  /** Every message carries a run id of its own, so a stale or duplicate message can only ever name one claim. */
  lemma RunIdsAreSentOnce(start: World, events: seq<Event>, single: bool, limit: int)
    requires Initial(start) && Runs(start, events) && AllInTime(start, events, single, limit) && limit <= Limit(single)
    ensures RunsSentOnce(After(start, events))
  {
    Reachable(start, events, single, limit);
  }

  /**
   * What puts a cron in time: it starts early enough that its budget, and the
   * time a claim takes to land after its reading, end before the limit.
   */
  lemma PromptCronIsInTime(w: World, c: nat, landing: nat, limit: int)
    requires Enabled(w, Claim(c)) && CronOk(w, w.crons[c]) && w.now <= w.crons[c].phase.at + landing
    requires w.crons[c].started + CLAIM_TIME_BUDGET_MS + landing <= w.crons[c].tick + limit
    ensures w.now < w.crons[c].tick + limit
  {
  }

  /**
   * Only a run's finish moves the due time, and it moves it on, to a minute tick
   * past the run's own: a claim, a lost message or a crash never do.
   */
  lemma OnlyFinishMovesDue(w: World, e: Event, single: bool)
    requires Inv(w, single) && Enabled(w, e) && Apply(w, e).row.nextAt != w.row.nextAt
    ensures e.Finish? && w.row.claim == Some(w.deliveries[e.delivery].run)
    ensures Apply(w, e).row.nextAt > w.row.nextAt && IsTick(Apply(w, e).row.nextAt)
    ensures Apply(w, e).row.claim.None? && Apply(w, e).row.leaseUntil.None?
  {
    if e.Finish? {
      var d := w.deliveries[e.delivery];
      assert StartOk(w, single, d);
      DueIsBounded(d.run, d.phase.finishedAt, e.summary, e.streak);
      TickIsCurrent(d.run);
    }
  }

  // ----- nobody is stranded, punctual crons or not ------------------------------

  /** No lease ends more than three minutes from now, and the due time is less than 13 minutes from now. */
  predicate Bounded(w: World) {
    && (w.row.leaseUntil.Some? ==> w.row.leaseUntil.value <= w.now + QUEUE_LEASE_MS)
    && w.row.nextAt < w.now + MAX_GAP_MS + MINUTE_MS
  }

  /** No run id is of a tick the clock has not all but reached, and no reading is ahead of the clock. */
  ghost predicate CronClocks(w: World) {
    && (forall c | c in w.crons :: w.crons[c].tick <= w.now + DUE_SLACK_MS
                                && (w.crons[c].phase.Querying? || w.crons[c].phase.Selected? ==>
                                    w.crons[c].phase.at <= w.now))
    && (forall m | m in w.messages :: w.messages[m].run <= w.now + DUE_SLACK_MS)
  }

  ghost predicate DeliveryClocks(w: World) {
    forall d | d in w.deliveries ::
      && w.deliveries[d].run <= w.now + DUE_SLACK_MS
      && (w.deliveries[d].phase.Starting? ==> w.deliveries[d].phase.startedAt <= w.now)
      && (w.deliveries[d].phase.Answered? ==>
            w.deliveries[d].phase.finishedAt <= w.now
                && w.deliveries[d].run <= w.deliveries[d].phase.finishedAt + DUE_SLACK_MS)
  }

  ghost predicate ClockOk(w: World) { CronClocks(w) && DeliveryClocks(w) }

  lemma StepBounded(w: World, e: Event)
    requires Bounded(w) && ClockOk(w) && Enabled(w, e)
    ensures Bounded(Apply(w, e))
  {
    if e.Finish? {
      var d := w.deliveries[e.delivery];
      DueIsBounded(d.run, d.phase.finishedAt, e.summary, e.streak);
    }
  }

  lemma StepCronClocks(w: World, e: Event)
    requires CronClocks(w) && Enabled(w, e)
    ensures CronClocks(Apply(w, e))
  {
  }

  lemma StepDeliveryClocks(w: World, e: Event)
    requires ClockOk(w) && Enabled(w, e)
    ensures DeliveryClocks(Apply(w, e))
  {
  }

  lemma {:induction false} RunBounded(w: World, events: seq<Event>)
    requires Bounded(w) && ClockOk(w) && Runs(w, events)
    ensures Bounded(After(w, events))
    decreases |events|
  {
    if events != [] {
      StepBounded(w, events[0]);
      StepCronClocks(w, events[0]);
      StepDeliveryClocks(w, events[0]);
      RunBounded(Apply(w, events[0]), events[1..]);
    }
  }

  /**
   * No tenant is stranded. Whatever was lost, late or crashed before, from any
   * reachable state: if nothing touches a runnable tenant's row, every cron
   * from 13 minutes on finds it due, and from 3 minutes on when it is due now.
   */
  lemma NeverStranded(start: World, before: seq<Event>, at: int)
    requires Initial(start) && Runs(start, before)
    ensures var w := After(start, before);
            && (w.row.schedulable && at >= w.now + MAX_GAP_MS + MINUTE_MS - DUE_SLACK_MS ==> Due(w.row, at))
            && (w.row.schedulable && w.row.nextAt <= w.now + DUE_SLACK_MS && at >= w.now + QUEUE_LEASE_MS ==>
                Due(w.row, at))
  {
    RunBounded(start, before);
  }
}
