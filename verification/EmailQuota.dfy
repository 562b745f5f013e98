/**
 * The daily email quota (platform/src/capability.ts, sendEmail): recipients are
 * reserved in one statement, sent to one by one, and the ones the provider
 * refused are given back. Sends of one tenant interleave at every await, and
 * any of them may stop for good at any of them.
 */
module EmailQuota {
  import opened Common

  /** A row of tenant_email_usage; (day, category) is its key within the tenant. */
  datatype Row = Row(day: int, category: string, sent: int, refused: int, failed: int)

  predicate Keyed(r: Row, day: int, category: string) { r.day == day && r.category == category }

  predicate UniqueKeys(rows: seq<Row>) {
    forall i, j | 0 <= i < j < |rows| :: !Keyed(rows[j], rows[i].day, rows[i].category)
  }

  function IndexOf(rows: seq<Row>, day: int, category: string): (i: nat)
    ensures i <= |rows| && (i < |rows| ==> Keyed(rows[i], day, category))
    ensures i == |rows| ==> forall k | 0 <= k < |rows| :: !Keyed(rows[k], day, category)
  {
    if rows == [] then 0
    else if Keyed(rows[|rows| - 1], day, category) then |rows| - 1
    else
      var i := IndexOf(rows[..|rows| - 1], day, category);
      if i < |rows| - 1 then i else |rows|
  }

  /** The row of a key; a missing one counts nothing. */
  function Get(rows: seq<Row>, day: int, category: string): Row {
    var i := IndexOf(rows, day, category);
    if i < |rows| then rows[i] else Row(day, category, 0, 0, 0)
  }

  /** INSERT ... ON CONFLICT DO UPDATE: the row with this one's key becomes this one. */
  function Put(rows: seq<Row>, r: Row): seq<Row> {
    var i := IndexOf(rows, r.day, r.category);
    if i < |rows| then rows[i := r] else rows + [r]
  }

  /** COALESCE(SUM(sent), 0) of the day, over its categories. */
  function DaySent(rows: seq<Row>, day: int): int {
    if rows == [] then 0
    else DaySent(rows[..|rows| - 1], day) + if rows[|rows| - 1].day == day then rows[|rows| - 1].sent else 0
  }

  // ----- the three statements --------------------------------------------------------

  predicate Fits(rows: seq<Row>, day: int, n: nat, limit: int) { DaySent(rows, day) + n <= limit }

  function Reserved(rows: seq<Row>, day: int, category: string, n: nat): seq<Row> {
    var r := Get(rows, day, category);
    Put(rows, r.(sent := r.sent + n))
  }

  function RefusalCounted(rows: seq<Row>, day: int, category: string): seq<Row> {
    var r := Get(rows, day, category);
    Put(rows, r.(refused := r.refused + 1))
  }

  function GivenBack(rows: seq<Row>, day: int, category: string, failed: nat): seq<Row> {
    var r := Get(rows, day, category);
    if IndexOf(rows, day, category) == |rows| then rows
    else Put(rows, r.(sent := Max(0, r.sent - failed), failed := r.failed + failed))
  }

  // ----- sends, interleaved ------------------------------------------------------------

  datatype Phase = Sending | Done | Stopped

  /** A send that got its reservation: how many recipients, and what the provider answered for them so far. */
  datatype Send = Send(day: int, category: string, n: nat, delivered: nat, failed: nat, phase: Phase)

  datatype World = World(rows: seq<Row>, sends: seq<Send>)

  datatype Event =
    | Reserve(day: int, category: string, n: nat, limit: int)
    | CountRefusal(day: int, category: string)
    | Deliver(i: nat)
    | Refuse(i: nat)
    | Finish(i: nat)
    | Stop(i: nat)

  predicate Enabled(w: World, e: Event) {
    match e
    case Reserve(_, _, n, _) => n > 0
    case CountRefusal(_, _) => true
    case Deliver(i) => i < |w.sends| && w.sends[i].phase == Sending
        && w.sends[i].delivered + w.sends[i].failed < w.sends[i].n
    case Refuse(i) => i < |w.sends| && w.sends[i].phase == Sending
        && w.sends[i].delivered + w.sends[i].failed < w.sends[i].n
    case Finish(i) => i < |w.sends| && w.sends[i].phase == Sending
        && w.sends[i].delivered + w.sends[i].failed == w.sends[i].n
    case Stop(i) => i < |w.sends| && w.sends[i].phase == Sending
  }

  function Apply(w: World, e: Event): World
    requires Enabled(w, e)
  {
    match e
    case Reserve(day, category, n, limit) =>
      if Fits(w.rows, day, n, limit)
      then World(Reserved(w.rows, day, category, n), w.sends + [Send(day, category, n, 0, 0, Sending)]) else w
    case CountRefusal(day, category) => w.(rows := RefusalCounted(w.rows, day, category))
    case Deliver(i) => w.(sends := w.sends[i := w.sends[i].(delivered := w.sends[i].delivered + 1)])
    case Refuse(i) => w.(sends := w.sends[i := w.sends[i].(failed := w.sends[i].failed + 1)])
    case Finish(i) =>
      var s := w.sends[i];
      var rows := if s.failed > 0 then GivenBack(w.rows, s.day, s.category, s.failed) else w.rows;
      World(rows, w.sends[i := s.(phase := Done)])
    case Stop(i) => w.(sends := w.sends[i := w.sends[i].(phase := Stopped)])
  }

  predicate Runs(w: World, events: seq<Event>)
    decreases |events|
  {
    events == [] || (Enabled(w, events[0]) && Runs(Apply(w, events[0]), events[1..]))
  }

  function After(w: World, events: seq<Event>): World
    requires Runs(w, events)
    decreases |events|
  {
    if events == [] then w else After(Apply(w, events[0]), events[1..])
  }

  const Empty: World := World([], [])

  // ----- what is counted ----------------------------------------------------------------

  /** Reserved and not given back, beyond what was delivered: until a send is done, and for good when it stopped. */
  function Outstanding(s: Send): int { if s.phase == Done then 0 else s.n - s.delivered }

  function Holds(s: Send, day: int, category: string): int {
    if s.day == day && s.category == category then s.delivered + Outstanding(s) else 0
  }

  function HoldsOn(s: Send, day: int): int { if s.day == day then s.delivered + Outstanding(s) else 0 }

  function FailedIn(s: Send, day: int, category: string): int {
    if s.phase == Done && s.day == day && s.category == category then s.failed else 0
  }

  /** Delivered plus still reserved, over all the sends of a day and category. */
  function Held(sends: seq<Send>, day: int, category: string): int {
    if sends == [] then 0 else Held(sends[..|sends| - 1], day, category) + Holds(sends[|sends| - 1], day, category)
  }

  function HeldOn(sends: seq<Send>, day: int): int {
    if sends == [] then 0 else HeldOn(sends[..|sends| - 1], day) + HoldsOn(sends[|sends| - 1], day)
  }

  function AllFailed(sends: seq<Send>, day: int, category: string): int {
    if sends == [] then 0
    else AllFailed(sends[..|sends| - 1], day, category) + FailedIn(sends[|sends| - 1], day, category)
  }

  predicate SendOk(s: Send) { s.delivered + s.failed <= s.n && (s.phase == Done ==> s.delivered + s.failed == s.n) }

  /** What the table counts for a category and for its whole day is what the sends hold. */
  predicate Agrees(w: World, day: int, category: string) {
    && Get(w.rows, day, category).sent == Held(w.sends, day, category)
    && Get(w.rows, day, category).failed == AllFailed(w.sends, day, category)
    && DaySent(w.rows, day) == HeldOn(w.sends, day)
  }

  ghost predicate Inv(w: World) {
    && UniqueKeys(w.rows)
    && (forall i | 0 <= i < |w.sends| :: SendOk(w.sends[i]))
    && (forall day, category :: Agrees(w, day, category))
  }

  // ----- the table ------------------------------------------------------------------------

  lemma {:induction false} DayOfUpdate(rows: seq<Row>, i: nat, r: Row, day: int)
    requires i < |rows| && r.day == rows[i].day
    ensures DaySent(rows[i := r], day) == DaySent(rows, day) + if r.day == day then r.sent - rows[i].sent else 0
    decreases |rows|
  {
    var n := |rows| - 1;
    if i == n {
      assert rows[i := r][..n] == rows[..n];
    } else {
      assert rows[i := r][..n] == rows[..n][i := r];
      DayOfUpdate(rows[..n], i, r, day);
    }
  }

  lemma DayOfPut(rows: seq<Row>, r: Row, day: int)
    ensures DaySent(Put(rows, r), day) == DaySent(rows, day) + if r.day == day
            then r.sent - Get(rows, r.day, r.category).sent else 0
  {
    var i := IndexOf(rows, r.day, r.category);
    if i < |rows| {
      DayOfUpdate(rows, i, r, day);
    } else {
      assert (rows + [r])[..|rows|] == rows;
    }
  }

  lemma FoundAt(rows: seq<Row>, i: nat, day: int, category: string)
    requires UniqueKeys(rows) && i < |rows| && Keyed(rows[i], day, category)
    ensures IndexOf(rows, day, category) == i
  {
  }

  lemma GetOfPut(rows: seq<Row>, r: Row, day: int, category: string)
    requires UniqueKeys(rows)
    ensures UniqueKeys(Put(rows, r))
    ensures Get(Put(rows, r), day, category) == if Keyed(r, day, category) then r else Get(rows, day, category)
  {
    var v := Put(rows, r);
    var i, k := IndexOf(rows, r.day, r.category), IndexOf(rows, day, category);
    assert UniqueKeys(v);
    if Keyed(r, day, category) {
      FoundAt(v, i, day, category);
    } else if k < |rows| {
      FoundAt(v, k, day, category);
    }
  }

  // ----- the sums -------------------------------------------------------------------------

  lemma {:induction false} SumsOfUpdate(sends: seq<Send>, i: nat, s: Send, day: int, category: string)
    requires i < |sends|
    ensures Held(sends[i := s], day, category) == Held(sends, day, category)
            + Holds(s, day, category) - Holds(sends[i], day, category)
    ensures HeldOn(sends[i := s], day) == HeldOn(sends, day) + HoldsOn(s, day) - HoldsOn(sends[i], day)
    ensures AllFailed(sends[i := s], day, category) == AllFailed(sends, day, category)
            + FailedIn(s, day, category) - FailedIn(sends[i], day, category)
    decreases |sends|
  {
    var n := |sends| - 1;
    if i == n {
      assert sends[i := s][..n] == sends[..n];
    } else {
      assert sends[i := s][..n] == sends[..n][i := s];
      SumsOfUpdate(sends[..n], i, s, day, category);
    }
  }

  /** No send's share is negative, so each is at most the sum. */
  lemma {:induction false} ShareBelowSum(sends: seq<Send>, i: nat, day: int, category: string)
    requires i <= |sends| && forall k | 0 <= k < |sends| :: SendOk(sends[k])
    ensures 0 <= Held(sends, day, category)
            && (i < |sends| ==> Holds(sends[i], day, category) <= Held(sends, day, category))
    decreases |sends|
  {
    if sends != [] {
      var n := |sends| - 1;
      assert SendOk(sends[n]);
      forall k | 0 <= k < n ensures SendOk(sends[..n][k]) { assert SendOk(sends[k]); }
      ShareBelowSum(sends[..n], if i < n then i else n, day, category);
    }
  }

  // ----- every step keeps the count ------------------------------------------------------

  lemma SumsOfOneMore(sends: seq<Send>, s: Send, day: int, category: string)
    ensures Held(sends + [s], day, category) == Held(sends, day, category) + Holds(s, day, category)
    ensures HeldOn(sends + [s], day) == HeldOn(sends, day) + HoldsOn(s, day)
    ensures AllFailed(sends + [s], day, category) == AllFailed(sends, day, category) + FailedIn(s, day, category)
  {
    assert (sends + [s])[..|sends|] == sends;
  }

  /** A send that has just got its reservation. */
  function Begun(w: World, day: int, category: string, n: nat): World {
    World(Reserved(w.rows, day, category, n), w.sends + [Send(day, category, n, 0, 0, Sending)])
  }

  lemma ReserveAgrees(w: World, day: int, category: string, n: nat, d: int, c: string)
    requires Inv(w)
    ensures Agrees(Begun(w, day, category, n), d, c)
  {
    var r := Get(w.rows, day, category);
    assert Agrees(w, d, c);
    SumsOfOneMore(w.sends, Send(day, category, n, 0, 0, Sending), d, c);
    GetOfPut(w.rows, r.(sent := r.sent + n), d, c);
    DayOfPut(w.rows, r.(sent := r.sent + n), d);
  }

  lemma ReserveInv(w: World, day: int, category: string, n: nat)
    requires Inv(w)
    ensures Inv(Begun(w, day, category, n))
  {
    var r := Get(w.rows, day, category);
    GetOfPut(w.rows, r.(sent := r.sent + n), day, category);
    forall d, c ensures Agrees(Begun(w, day, category, n), d, c) { ReserveAgrees(w, day, category, n, d, c); }
  }

  lemma RefusalInv(w: World, day: int, category: string)
    requires Inv(w)
    ensures Inv(w.(rows := RefusalCounted(w.rows, day, category)))
  {
    var v := w.(rows := RefusalCounted(w.rows, day, category));
    var r := Get(w.rows, day, category);
    GetOfPut(w.rows, r.(refused := r.refused + 1), day, category);
    forall d, c ensures Agrees(v, d, c) {
      assert Agrees(w, d, c);
      GetOfPut(w.rows, r.(refused := r.refused + 1), d, c);
      DayOfPut(w.rows, r.(refused := r.refused + 1), d);
    }
  }

  /** A provider's answer, or stopping, changes no sum. */
  lemma QuietInv(w: World, i: nat, s: Send)
    requires Inv(w) && i < |w.sends| && w.sends[i].phase == Sending && s.phase != Done && SendOk(s)
    requires s.day == w.sends[i].day && s.category == w.sends[i].category && s.n == w.sends[i].n
    ensures Inv(w.(sends := w.sends[i := s]))
  {
    var v := w.(sends := w.sends[i := s]);
    forall d, c ensures Agrees(v, d, c) {
      assert Agrees(w, d, c);
      SumsOfUpdate(w.sends, i, s, d, c);
    }
  }

  /** The give-back's clamp at 0 never fires: what this send reserved is still counted. */
  lemma NeverClamped(w: World, i: nat)
    requires Inv(w) && Enabled(w, Finish(i))
    ensures var s := w.sends[i]; Get(w.rows, s.day, s.category).sent - s.failed >= s.delivered >= 0
  {
    var s := w.sends[i];
    ShareBelowSum(w.sends, i, s.day, s.category);
    assert Agrees(w, s.day, s.category);
  }

  /** The give-back, written without its clamp. */
  function Back(w: World, s: Send): Row {
    var r := Get(w.rows, s.day, s.category);
    r.(sent := r.sent - s.failed, failed := r.failed + s.failed)
  }

  lemma GiveBackAgrees(w: World, i: nat, day: int, category: string)
    requires Inv(w) && Enabled(w, Finish(i))
    ensures var s := w.sends[i];
            var rows := if s.failed > 0 then Put(w.rows, Back(w, s)) else w.rows;
            Agrees(World(rows, w.sends[i := s.(phase := Done)]), day, category)
  {
    var s := w.sends[i];
    assert Agrees(w, day, category) && SendOk(s);
    SumsOfUpdate(w.sends, i, s.(phase := Done), day, category);
    if s.failed > 0 {
      GetOfPut(w.rows, Back(w, s), day, category);
      DayOfPut(w.rows, Back(w, s), day);
    }
  }

  lemma FinishInv(w: World, i: nat)
    requires Inv(w) && Enabled(w, Finish(i))
    ensures Inv(Apply(w, Finish(i)))
  {
    var s := w.sends[i];
    var v := Apply(w, Finish(i));
    NeverClamped(w, i);
    if s.failed > 0 {
      BackIsPut(w, s);
      GetOfPut(w.rows, Back(w, s), s.day, s.category);
    }
    forall d, c ensures Agrees(v, d, c) {
      GiveBackAgrees(w, i, d, c);
    }
  }

  lemma BackIsPut(w: World, s: Send)
    requires Get(w.rows, s.day, s.category).sent - s.failed >= 0 && s.failed > 0
    ensures GivenBack(w.rows, s.day, s.category, s.failed) == Put(w.rows, Back(w, s))
  {
  }

  lemma StepInv(w: World, e: Event)
    requires Inv(w) && Enabled(w, e)
    ensures Inv(Apply(w, e))
  {
    match e
    case Reserve(day, category, n, limit) => if Fits(w.rows, day, n, limit) { ReserveInv(w, day, category, n); }
    case CountRefusal(day, category) => RefusalInv(w, day, category);
    case Deliver(i) => QuietInv(w, i, w.sends[i].(delivered := w.sends[i].delivered + 1));
    case Refuse(i) => QuietInv(w, i, w.sends[i].(failed := w.sends[i].failed + 1));
    case Finish(i) => FinishInv(w, i);
    case Stop(i) => QuietInv(w, i, w.sends[i].(phase := Stopped));
  }

  lemma {:induction false} RunInv(w: World, events: seq<Event>)
    requires Inv(w) && Runs(w, events)
    ensures Inv(After(w, events))
    decreases |events|
  {
    if events != [] {
      StepInv(w, events[0]);
      RunInv(Apply(w, events[0]), events[1..]);
    }
  }

  /**
   * Over any interleaving of sends, refusals and stops: what a day counts, in each
   * category and in all, is what was delivered plus what is still reserved.
   */
  lemma CountIsDeliveredPlusReserved(events: seq<Event>, day: int, category: string)
    requires Runs(Empty, events)
    ensures var w := After(Empty, events);
            && Get(w.rows, day, category).sent == Held(w.sends, day, category)
            && Get(w.rows, day, category).failed == AllFailed(w.sends, day, category)
            && DaySent(w.rows, day) == HeldOn(w.sends, day)
  {
    RunInv(Empty, events);
    assert Agrees(After(Empty, events), day, category);
  }

  // ----- the limit --------------------------------------------------------------------------

  /** Every reservation asked for on the day was under a limit of at most `limit`. */
  predicate Under(events: seq<Event>, day: int, limit: int) {
    forall k | 0 <= k < |events| :: events[k].Reserve? && events[k].day == day ==> events[k].limit <= limit
  }

  /** Only a reservation adds to a day. */
  lemma StepDay(w: World, e: Event, day: int)
    requires Inv(w) && Enabled(w, e)
    ensures DaySent(Apply(w, e).rows, day) <= DaySent(w.rows, day)
            + if e.Reserve? && e.day == day && Fits(w.rows, day, e.n, e.limit) then e.n else 0
  {
    match e
    case Reserve(d, c, n, l) =>
      var r := Get(w.rows, d, c);
      DayOfPut(w.rows, r.(sent := r.sent + n), day);
    case CountRefusal(d, c) =>
      var r := Get(w.rows, d, c);
      DayOfPut(w.rows, r.(refused := r.refused + 1), day);
    case Deliver(i) =>
    case Refuse(i) =>
    case Stop(i) =>
    case Finish(i) => FinishDay(w, i, day);
  }

  lemma FinishDay(w: World, i: nat, day: int)
    requires Inv(w) && Enabled(w, Finish(i))
    ensures DaySent(Apply(w, Finish(i)).rows, day) <= DaySent(w.rows, day)
  {
    NeverClamped(w, i);
    var s := w.sends[i];
    if s.failed > 0 {
      BackIsPut(w, s);
      DayOfPut(w.rows, Back(w, s), day);
    }
  }

  lemma {:induction false} RunUnder(w: World, events: seq<Event>, day: int, limit: int)
    requires Inv(w) && Runs(w, events) && DaySent(w.rows, day) <= limit && Under(events, day, limit)
    ensures DaySent(After(w, events).rows, day) <= limit
    decreases |events|
  {
    if events != [] {
      StepInv(w, events[0]);
      StepDay(w, events[0], day);
      forall k | 0 <= k < |events[1..]|
        ensures events[1..][k].Reserve? && events[1..][k].day == day ==> events[1..][k].limit <= limit
      {
        assert events[1..][k] == events[k + 1];
      }
      RunUnder(Apply(w, events[0]), events[1..], day, limit);
    }
  }

  function Delivered(sends: seq<Send>, day: int): int {
    if sends == [] then 0
    else Delivered(sends[..|sends| - 1], day) + if sends[|sends| - 1].day == day then sends[|sends| - 1].delivered
        else 0
  }

  lemma {:induction false} DeliveredIsHeld(sends: seq<Send>, day: int)
    requires forall k | 0 <= k < |sends| :: SendOk(sends[k])
    ensures Delivered(sends, day) <= HeldOn(sends, day)
    decreases |sends|
  {
    if sends != [] {
      var n := |sends| - 1;
      assert SendOk(sends[n]);
      forall k | 0 <= k < n ensures SendOk(sends[..n][k]) { assert SendOk(sends[k]); }
      DeliveredIsHeld(sends[..n], day);
    }
  }

  /** Reserved on a day and neither delivered nor given back. */
  function StillReserved(sends: seq<Send>, day: int): int {
    if sends == [] then 0
    else StillReserved(sends[..|sends| - 1], day)
         + (var s := sends[|sends| - 1]; if s.day == day && s.phase != Done then s.n - s.delivered else 0)
  }

  lemma {:induction false} HeldIsBoth(sends: seq<Send>, day: int)
    ensures HeldOn(sends, day) == Delivered(sends, day) + StillReserved(sends, day)
    decreases |sends|
  {
    if sends != [] { HeldIsBoth(sends[..|sends| - 1], day); }
  }

  /** So over every run a day counts the emails delivered on it and those still reserved, no others. */
  lemma DayIsDeliveredPlusReserved(events: seq<Event>, day: int)
    requires Runs(Empty, events)
    ensures var w := After(Empty, events);
            DaySent(w.rows, day) == Delivered(w.sends, day) + StillReserved(w.sends, day)
  {
    RunInv(Empty, events);
    assert Agrees(After(Empty, events), day, "");
    HeldIsBoth(After(Empty, events).sends, day);
  }

  /** A run goes on from where it came to. */
  lemma {:induction false} RunGoesOn(w: World, events: seq<Event>, e: Event)
    requires Runs(w, events) && Enabled(After(w, events), e)
    ensures Runs(w, events + [e]) && After(w, events + [e]) == Apply(After(w, events), e)
    decreases |events|
  {
    if events == [] {
      assert [e][1..] == [] && Runs(Apply(w, e), []);
    } else {
      assert (events + [e])[1..] == events[1..] + [e];
      RunGoesOn(Apply(w, events[0]), events[1..], e);
    }
  }

  /** So no more than the limit in force goes out on a day, however sends race and whatever stops. */
  lemma NeverPastTheLimit(events: seq<Event>, day: int, limit: int)
    requires Runs(Empty, events) && 0 <= limit && Under(events, day, limit)
    ensures var w := After(Empty, events); Delivered(w.sends, day) <= DaySent(w.rows, day) <= limit
  {
    RunInv(Empty, events);
    RunUnder(Empty, events, day, limit);
    assert Agrees(After(Empty, events), day, "");
    DeliveredIsHeld(After(Empty, events).sends, day);
  }

  /** A send goes ahead exactly when the day's places left are enough for all its recipients. */
  lemma LastPlacesCount(events: seq<Event>, day: int, category: string, n: nat, limit: int)
    requires Runs(Empty, events) && n > 0
    ensures Runs(Empty, events + [Reserve(day, category, n, limit)])
    ensures var w, v := After(Empty, events), After(Empty, events + [Reserve(day, category, n, limit)]);
            if Delivered(w.sends, day) + StillReserved(w.sends, day) + n <= limit
            then v.sends == w.sends + [Send(day, category, n, 0, 0, Sending)]
            else v == w
  {
    RunGoesOn(Empty, events, Reserve(day, category, n, limit));
    DayIsDeliveredPlusReserved(events, day);
  }

  // ----- sendEmail ---------------------------------------------------------------------------

  datatype MailError = Rejected | Quota | Unavailable

  datatype MailResult = Accepted(id: string) | NotSent(error: MailError)

  datatype SendEmailResult = Sent(id: string) | EmailRejected | EmailQuotaExceeded | EmailUnavailable

  function FailureFor(error: MailError): SendEmailResult {
    match error case Rejected => EmailRejected case Quota => EmailQuotaExceeded case Unavailable => EmailUnavailable
  }

  function Failures(results: seq<MailResult>): nat {
    if results == [] then 0 else Failures(results[..|results| - 1]) + if results[|results| - 1].NotSent? then 1 else 0
  }

  predicate FirstAccepted(results: seq<MailResult>, k: nat) {
    k < |results| && results[k].Accepted? && forall j | 0 <= j < k :: results[j].NotSent?
  }

  lemma {:induction false} AllFailedIff(results: seq<MailResult>)
    ensures Failures(results) <= |results|
    ensures Failures(results) == |results| <==> forall j | 0 <= j < |results| :: results[j].NotSent?
    decreases |results|
  {
    if results != [] {
      var n := |results| - 1;
      AllFailedIff(results[..n]);
      assert forall j | 0 <= j < n :: results[..n][j] == results[j];
    }
  }

  /** The row of a key is the one there is, or, when there is none, counts nothing. */
  lemma RowOfKey(rows: seq<Row>, r: Row)
    requires UniqueKeys(rows)
    ensures r in rows ==> Get(rows, r.day, r.category) == r
    ensures (forall k | 0 <= k < |rows| :: !Keyed(rows[k], r.day, r.category)) ==>
              Get(rows, r.day, r.category) == Row(r.day, r.category, 0, 0, 0)
              && forall failed: nat :: GivenBack(rows, r.day, r.category, failed) == rows
  {
    if i: nat :| i < |rows| && rows[i] == r { FoundAt(rows, i, r.day, r.category); }
  }

  /** Every other key's row is as it was. */
  ghost predicate OnlyKey(before: seq<Row>, after: seq<Row>, day: int, category: string) {
    forall d, c | !(d == day && c == category) :: Get(after, d, c) == Get(before, d, c)
  }

  /** What the key's row is after a send, and what every other row is. */
  ghost predicate RowAfter(before: seq<Row>, after: seq<Row>, day: int, category: string, sent: int, refused: int,
                           failed: int)
  {
    var r := Get(before, day, category);
    && Get(after, day, category) == Row(day, category, r.sent + sent, r.refused + refused, r.failed + failed)
    && OnlyKey(before, after, day, category)
  }

  lemma PutIsFound(rows: seq<Row>, r: Row)
    requires UniqueKeys(rows) && UniqueKeys(Put(rows, r))
    ensures IndexOf(Put(rows, r), r.day, r.category) < |Put(rows, r)|
  {
    FoundAt(Put(rows, r), IndexOf(rows, r.day, r.category), r.day, r.category);
  }

  /** Putting a row with its own key back changes that row alone. */
  lemma PutRow(rows: seq<Row>, r: Row)
    requires UniqueKeys(rows)
    ensures UniqueKeys(Put(rows, r)) && Get(Put(rows, r), r.day, r.category) == r
    ensures OnlyKey(rows, Put(rows, r), r.day, r.category)
  {
    GetOfPut(rows, r, r.day, r.category);
    forall d, c | !(d == r.day && c == r.category) ensures Get(Put(rows, r), d, c) == Get(rows, d, c) {
      GetOfPut(rows, r, d, c);
    }
  }

  lemma ReservedRow(rows: seq<Row>, day: int, category: string, n: nat)
    requires UniqueKeys(rows)
    ensures UniqueKeys(Reserved(rows, day, category, n))
    ensures RowAfter(rows, Reserved(rows, day, category, n), day, category, n, 0, 0)
  {
    var r := Get(rows, day, category);
    PutRow(rows, r.(sent := r.sent + n));
  }

  lemma RefusedRow(rows: seq<Row>, day: int, category: string)
    requires UniqueKeys(rows)
    ensures RowAfter(rows, RefusalCounted(rows, day, category), day, category, 0, 1, 0)
  {
    var r := Get(rows, day, category);
    PutRow(rows, r.(refused := r.refused + 1));
  }

  /** A reservation whose failures are given back: what went out is counted, and what failed. */
  lemma SentRow(rows: seq<Row>, day: int, category: string, n: nat, failed: nat)
    requires UniqueKeys(rows) && Get(rows, day, category).sent >= 0 && failed <= n
    ensures RowAfter(rows, GivenBack(Reserved(rows, day, category, n), day, category, failed), day, category,
                     n - failed, 0, failed)
  {
    var mid := Reserved(rows, day, category, n);
    ReservedRow(rows, day, category, n);
    var r := Get(mid, day, category);
    var back := r.(sent := r.sent - failed, failed := r.failed + failed);
    PutIsFound(rows, Get(rows, day, category).(sent := Get(rows, day, category).sent + n));
    assert IndexOf(mid, day, category) < |mid|;
    assert GivenBack(mid, day, category, failed) == Put(mid, back);
    PutRow(mid, back);
  }

  /** What a send leaves: its refusal, or what went out and what failed. */
  lemma SendLeaves(rows: seq<Row>, day: int, category: string, results: seq<MailResult>)
    requires UniqueKeys(rows)
    ensures RowAfter(rows, RefusalCounted(rows, day, category), day, category, 0, 1, 0)
    ensures Get(rows, day, category).sent >= 0 ==>
              var n, failed := |results|, Failures(results);
              RowAfter(rows, if failed == 0 then Reserved(rows, day, category, n)
                             else GivenBack(Reserved(rows, day, category, n), day, category, failed),
                       day, category, n - failed, 0, failed)
  {
    RefusedRow(rows, day, category);
    ReservedRow(rows, day, category, |results|);
    AllFailedIff(results);
    if Get(rows, day, category).sent >= 0 { SentRow(rows, day, category, |results|, Failures(results)); }
  }

  class EmailUsage {
    var rows: seq<Row>

    method Reserve(day: int, category: string, n: nat, limit: int) returns (changes: nat)
      modifies this
      ensures changes == if Fits(old(rows), day, n, limit) then 1 else 0
      ensures rows == if changes == 1 then Reserved(old(rows), day, category, n) else old(rows)
    {
      var sum := 0;
      for k := 0 to |rows|
        invariant sum == DaySent(rows[..k], day)
      {
        assert rows[..k + 1][..k] == rows[..k];
        if rows[k].day == day {
          sum := sum + rows[k].sent;
        }
      }
      assert rows[..|rows|] == rows;
      changes := 0;
      if sum + n <= limit {
        rows := Reserved(rows, day, category, n);
        changes := 1;
      }
    }

    /**
     * The reserved send itself, with the provider's answer for each recipient: an
     * error exactly when nobody got it, and then the first failure's.
     */
    method SendEmail(day: int, category: string, results: seq<MailResult>, limit: int) returns (answer: SendEmailResult)
      requires |results| > 0
      modifies this
      ensures DaySent(old(rows), day) + |results| > limit ==>
              answer == EmailQuotaExceeded && rows == RefusalCounted(old(rows), day, category)
      ensures DaySent(old(rows), day) + |results| <= limit ==>
                && (answer.Sent? <==> exists k | 0 <= k < |results| :: results[k].Accepted?)
                && (answer.Sent? ==> exists k | 0 <= k < |results| ::
                    FirstAccepted(results, k) && answer.id == results[k].id)
                && (!answer.Sent? ==>
                    && results[0].NotSent? && (answer == EmailRejected <==> results[0].error == Rejected)
                    && (answer == EmailQuotaExceeded <==> results[0].error == Quota)
                    && (answer == EmailUnavailable <==> results[0].error == Unavailable))
                && rows == if Failures(results) == 0 then Reserved(old(rows), day, category, |results|)
                           else GivenBack(Reserved(old(rows), day, category, |results|), day, category,
                               Failures(results))
      ensures UniqueKeys(old(rows)) ==>
                if DaySent(old(rows), day) + |results| > limit then RowAfter(old(rows), rows, day, category, 0, 1, 0)
                else Get(old(rows), day, category).sent >= 0 ==>
                  RowAfter(old(rows), rows, day, category, |results| - Failures(results), 0, Failures(results))
    {
      if UniqueKeys(rows) { SendLeaves(rows, day, category, results); }
      var changes := Reserve(day, category, |results|, limit);
      if changes == 0 {
        rows := RefusalCounted(rows, day, category);
        return EmailQuotaExceeded;
      }
      var firstId: Option<string>, failure: Option<SendEmailResult>, failed := None, None, 0;
      for k := 0 to |results|
        invariant rows == Reserved(old(rows), day, category, |results|)
        invariant failed == Failures(results[..k])
        invariant firstId.None? ==> forall j | 0 <= j < k :: results[j].NotSent?
        invariant firstId.Some? ==> exists j | 0 <= j < k :: FirstAccepted(results, j) && firstId.value == results[j].id
        invariant failure.None? <==> failed == 0
        invariant k > 0 && results[0].NotSent? ==> failure == Some(FailureFor(results[0].error))
      {
        assert results[..k + 1][..k] == results[..k];
        AllFailedIff(results[..k]);
        var result := results[k];
        if result.Accepted? {
          if firstId.None? {
            assert FirstAccepted(results, k);
            firstId := Some(result.id);
          }
          continue;
        }
        failed := failed + 1;
        if failure.None? {
          failure := Some(FailureFor(result.error));
        }
      }
      assert results[..|results|] == results;
      AllFailedIff(results);
      if failed > 0 {
        rows := GivenBack(rows, day, category, failed);
      }
      if failure.Some? && failed == |results| {
        return failure.value;
      }
      answer := Sent(firstId.value);
    }
  }
}
