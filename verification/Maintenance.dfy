/**
 * When a maintenance window is active, and when a weekly one comes round next
 * (src/shared/maintenance-schedule.ts), in whole milliseconds of UTC. The
 * minutes of the week the code computes with are kept here in milliseconds,
 * so nothing is rounded.
 */
module Maintenance {
  import opened Common

  const MINUTE := 60_000
  const DAY := 86_400_000
  const WEEK := 604_800_000

  /** A weekly rule: `start` is its HH:MM as minutes, None when that is not two finite numbers. */
  datatype Recurrence = OneTime | Weekly(weekday: int, start: Option<int>, durationMinutes: int) | Other

  datatype Window = Window(startsAt: int, endsAt: int, recurrence: Recurrence)

  datatype Occurrence = Occurrence(startsAt: int, endsAt: int)

  /** JavaScript's %, which takes the sign of its left operand. */
  function Rem(a: int, b: int): int
    requires b > 0
  {
    if a >= 0 then a % b else -((-a) % b)
  }

  /** (a % WEEK + WEEK) % WEEK, as the code wraps an offset. */
  function Wrapped(a: int): int { Rem(Rem(a, WEEK) + WEEK, WEEK) }

  /** getUTCDay: the first of January 1970 was a Thursday. */
  function UtcDay(t: int): int { (t / DAY + 4) % 7 }

  /** Day, hours, minutes, seconds and milliseconds of the UTC week, Sunday 00:00 being 0. */
  function TimeOfWeek(t: int): int { UtcDay(t) * DAY + t % DAY }

  function StartOfWeekly(r: Recurrence): int
    requires r.Weekly? && r.start.Some?
  {
    r.weekday * DAY + r.start.value * MINUTE
  }

  predicate IsWindowActiveAt(w: Window, now: int) {
    var r := w.recurrence;
    if r == OneTime then w.startsAt <= now && now < w.endsAt
    else if now < w.startsAt || now >= w.endsAt then false
    else if !r.Weekly? then false
    else if r.durationMinutes <= 0 then false
    else if r.start.None? then false
    else
      var offset := Wrapped(TimeOfWeek(now) - StartOfWeekly(r));
      offset < r.durationMinutes * MINUTE
  }

  function NextRecurringOccurrence(w: Window, now: int): Option<Occurrence> {
    var r := w.recurrence;
    if !r.Weekly? || r.durationMinutes <= 0 then None
    else if r.start.None? then None
    else
      var ref := Max(now, w.startsAt - 1);
      var delta := Wrapped(StartOfWeekly(r) - TimeOfWeek(ref));
      var startsAt := ref + if delta == 0 then WEEK else delta;
      if startsAt >= w.endsAt then None
      else Some(Occurrence(startsAt, startsAt + r.durationMinutes * MINUTE))
  }

  // ----- what a weekly rule means -----------------------------------------------------

  /** The rule's k-th slot: its weekday and time in the k-th week since Sunday 28 December 1969. */
  function Slot(r: Recurrence, k: int): int
    requires r.Weekly? && r.start.Some?
  {
    k * WEEK - 4 * DAY + r.weekday * DAY + r.start.value * MINUTE
  }

  /** A weekly rule that ever runs. */
  predicate Recurs(r: Recurrence) { r.Weekly? && r.start.Some? && r.durationMinutes > 0 }

  predicate Covers(r: Recurrence, k: int, t: int)
    requires Recurs(r)
  {
    Slot(r, k) <= t < Slot(r, k) + r.durationMinutes * MINUTE
  }

  // ----- arithmetic --------------------------------------------------------------------

  lemma WrappedIsEuclidean(a: int)
    ensures 0 <= Wrapped(a) < WEEK && Wrapped(a) == a % WEEK
  {
    if a < 0 {
      var q, r := (-a) / WEEK, (-a) % WEEK;
      assert a == (-q) * WEEK - r;
      if r > 0 {
        assert a == (-q - 1) * WEEK + (WEEK - r);
        Unique(a, -q - 1, WEEK - r);
      } else {
        Unique(a, -q, 0);
      }
    }
  }

  lemma Unique(a: int, q: int, r: int)
    requires a == q * WEEK + r && 0 <= r < WEEK
    ensures a % WEEK == r && a / WEEK == q
  {
  }

  /** The time of the week is the time since that Sunday, less whole weeks. */
  lemma TimeOfWeekIs(t: int) returns (k: int)
    ensures t == k * WEEK - 4 * DAY + TimeOfWeek(t)
  {
    k := (t / DAY + 4) / 7;
    assert t == t / DAY * DAY + t % DAY;
    assert t / DAY + 4 == 7 * k + UtcDay(t);
  }

  /** The rule's latest slot at or before an instant is as far back as the code's offset says. */
  lemma LatestSlot(r: Recurrence, t: int) returns (k: int)
    requires r.Weekly? && r.start.Some?
    ensures t - Slot(r, k) == Wrapped(TimeOfWeek(t) - StartOfWeekly(r))
    ensures 0 <= t - Slot(r, k) < WEEK
  {
    var a := TimeOfWeek(t) - StartOfWeekly(r);
    WrappedIsEuclidean(a);
    var week := TimeOfWeekIs(t);
    k := week + a / WEEK;
    assert a == a / WEEK * WEEK + a % WEEK;
    assert k * WEEK == week * WEEK + a / WEEK * WEEK;
  }

  /** Its next slot strictly after an instant is as far ahead as the code's delta, a whole week when that is 0. */
  lemma NextSlot(r: Recurrence, t: int) returns (k: int)
    requires r.Weekly? && r.start.Some?
    ensures var delta := Wrapped(StartOfWeekly(r) - TimeOfWeek(t)); Slot(r, k) - t == if delta == 0 then WEEK else delta
    ensures 0 < Slot(r, k) - t <= WEEK
  {
    var a := StartOfWeekly(r) - TimeOfWeek(t);
    WrappedIsEuclidean(a);
    var week := TimeOfWeekIs(t);
    k := week - a / WEEK + if a % WEEK == 0 then 1 else 0;
    assert a == a / WEEK * WEEK + a % WEEK;
    assert (week - a / WEEK) * WEEK == week * WEEK - a / WEEK * WEEK;
  }

  /** Slots are a week apart. */
  lemma SlotsApart(r: Recurrence, j: int, k: int)
    requires r.Weekly? && r.start.Some? && j < k
    ensures Slot(r, j) + WEEK <= Slot(r, k)
  {
    assert (k - j) * WEEK >= WEEK;
    assert (k - j) * WEEK == k * WEEK - j * WEEK;
  }

  // ----- exactly when ------------------------------------------------------------------

  /**
   * Active exactly at the instants in range that some slot's duration covers, across
   * midnight and the end of the week; a one-time window, at the instants in range.
   */
  lemma ActiveExactly(w: Window, now: int)
    ensures var r := w.recurrence;
            IsWindowActiveAt(w, now) <==>
              w.startsAt <= now < w.endsAt && (r == OneTime || (Recurs(r) && exists k :: Covers(r, k, now)))
  {
    var r := w.recurrence;
    if Recurs(r) {
      var latest := LatestSlot(r, now);
      if IsWindowActiveAt(w, now) {
        assert Covers(r, latest, now);
      }
      forall k | Covers(r, k, now) ensures now - Slot(r, latest) < r.durationMinutes * MINUTE {
        NotAfterLatest(r, latest, now, k);
      }
    }
  }

  lemma NotAfterLatest(r: Recurrence, latest: int, t: int, k: int)
    requires r.Weekly? && r.start.Some? && 0 <= t - Slot(r, latest) < WEEK && Slot(r, k) <= t
    ensures Slot(r, k) <= Slot(r, latest)
  {
    if k < latest {
      SlotsApart(r, k, latest);
    } else if latest < k {
      SlotsApart(r, latest, k);
    }
  }

  /** A slot that may come next: after now, inside the window's range. */
  predicate Upcoming(w: Window, now: int, k: int)
    requires w.recurrence.Weekly? && w.recurrence.start.Some?
  {
    now < Slot(w.recurrence, k) && w.startsAt <= Slot(w.recurrence, k) < w.endsAt
  }

  lemma NotBeforeNext(r: Recurrence, next: int, t: int, k: int)
    requires r.Weekly? && r.start.Some? && 0 < Slot(r, next) - t <= WEEK && t < Slot(r, k)
    ensures Slot(r, next) <= Slot(r, k)
  {
    if k < next {
      SlotsApart(r, k, next);
    } else if next < k {
      SlotsApart(r, next, k);
    }
  }

  /**
   * The answer is the least slot strictly after now within the range, with its
   * duration; there is none exactly when no slot is.
   */
  lemma NextIsLeast(w: Window, now: int)
    ensures var r := w.recurrence;
            match NextRecurringOccurrence(w, now)
            case None => Recurs(r) ==> forall k :: !Upcoming(w, now, k)
            case Some(o) =>
              && Recurs(r) && o.endsAt == o.startsAt + r.durationMinutes * MINUTE
              && (exists k :: Upcoming(w, now, k) && Slot(r, k) == o.startsAt)
              && (forall k :: Upcoming(w, now, k) ==> o.startsAt <= Slot(r, k))
  {
    var r := w.recurrence;
    if Recurs(r) {
      var ref := Max(now, w.startsAt - 1);
      var next := NextSlot(r, ref);
      forall k | Upcoming(w, now, k) ensures Slot(r, next) <= Slot(r, k) {
        NotBeforeNext(r, next, ref, k);
      }
      assert Slot(r, next) < w.endsAt ==> Upcoming(w, now, next);
    }
  }

  // ----- the two together ----------------------------------------------------------------

  /** The window is active when its next occurrence starts. */
  lemma NextIsActive(w: Window, now: int)
    ensures NextRecurringOccurrence(w, now).Some? ==>
            IsWindowActiveAt(w, NextRecurringOccurrence(w, now).value.startsAt)
  {
    NextIsLeast(w, now);
    var next := NextRecurringOccurrence(w, now);
    if next.Some? {
      ActiveExactly(w, next.value.startsAt);
      var k :| Upcoming(w, now, k) && Slot(w.recurrence, k) == next.value.startsAt;
      assert Covers(w.recurrence, k, next.value.startsAt);
    }
  }

  /**
   * And once its range has opened, a recurring window that is not active now
   * stays inactive until then, or for good when there is no next one.
   */
  lemma QuietUntilNext(w: Window, now: int, t: int)
    requires w.recurrence != OneTime && w.startsAt <= now && !IsWindowActiveAt(w, now) && now <= t
    requires var next := NextRecurringOccurrence(w, now); next.Some? ==> t < next.value.startsAt
    ensures !IsWindowActiveAt(w, t)
  {
    ActiveExactly(w, now);
    ActiveExactly(w, t);
    NextIsLeast(w, now);
    if Recurs(w.recurrence) && t < w.endsAt {
      forall k ensures !Covers(w.recurrence, k, t) {
        QuietSlot(w, now, t, k);
      }
    }
  }

  lemma QuietSlot(w: Window, now: int, t: int, k: int)
    requires Recurs(w.recurrence) && w.startsAt <= now <= t < w.endsAt
    requires !Covers(w.recurrence, k, now) && !(Upcoming(w, now, k) && Slot(w.recurrence, k) <= t)
    ensures !Covers(w.recurrence, k, t)
  {
  }

  /** Nothing is active from now until the next occurrence starts, or for good when there is none. */
  ghost predicate QuietUntilNextStart(w: Window, now: int) {
    var next := NextRecurringOccurrence(w, now);
    forall t | now <= t && (next.Some? ==> t < next.value.startsAt) :: !IsWindowActiveAt(w, t)
  }

  /** The range opens while a slot is under way, and none starts just then. */
  ghost predicate OpensMidSlot(w: Window) {
    && Recurs(w.recurrence) && w.startsAt < w.endsAt
    && (exists k :: Covers(w.recurrence, k, w.startsAt))
    && (forall k :: Slot(w.recurrence, k) != w.startsAt)
  }

  lemma OpensActive(w: Window, now: int)
    requires OpensMidSlot(w) && now < w.startsAt
    ensures IsWindowActiveAt(w, w.startsAt)
    ensures var next := NextRecurringOccurrence(w, now); next.Some? ==> w.startsAt < next.value.startsAt
  {
    ActiveExactly(w, w.startsAt);
    NextIsLeast(w, now);
    var next := NextRecurringOccurrence(w, now);
    if next.Some? {
      var k :| Upcoming(w, now, k) && Slot(w.recurrence, k) == next.value.startsAt;
      assert Slot(w.recurrence, k) != w.startsAt;
    }
  }

  lemma QuietInRange(w: Window, now: int, t: int, k: int)
    requires Recurs(w.recurrence) && now < w.startsAt <= t < w.endsAt && !OpensMidSlot(w)
    requires forall j :: Upcoming(w, now, j) ==> t < Slot(w.recurrence, j)
    ensures !Covers(w.recurrence, k, t)
  {
    assert Upcoming(w, now, k) ==> t < Slot(w.recurrence, k);
    if Covers(w.recurrence, k, w.startsAt) {
      var j :| Slot(w.recurrence, j) == w.startsAt;
      assert Upcoming(w, now, j);
    }
  }

  /**
   * Before its range has opened, a recurring window stays quiet until its next
   * occurrence exactly when the range does not open in the middle of a slot: then
   * the window becomes active with no occurrence starting.
   */
  lemma UnopenedIsQuietIff(w: Window, now: int)
    requires w.recurrence != OneTime && now < w.startsAt
    ensures QuietUntilNextStart(w, now) <==> !OpensMidSlot(w)
  {
    if OpensMidSlot(w) {
      OpensActive(w, now);
    } else {
      var next := NextRecurringOccurrence(w, now);
      forall t | now <= t && (next.Some? ==> t < next.value.startsAt) ensures !IsWindowActiveAt(w, t) {
        ActiveExactly(w, t);
        NextIsLeast(w, now);
        if Recurs(w.recurrence) && w.startsAt <= t < w.endsAt {
          forall k ensures !Covers(w.recurrence, k, t) { QuietInRange(w, now, t, k); }
        }
      }
    }
  }

  /**
   * Before the range opens a slot may already be under way, so the window can
   * become active with no occurrence starting.
   */
  lemma RangeCanOpenMidSlot()
    ensures var w := Window(DAY, 2 * DAY, Weekly(4, Some(0), 2880));
            !IsWindowActiveAt(w, DAY - 1) && IsWindowActiveAt(w, DAY) && NextRecurringOccurrence(w, DAY - 1) == None
  {
    assert (DAY - 1) / DAY == 0 && (DAY - 1) % DAY == DAY - 1;
  }
}
