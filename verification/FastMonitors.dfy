/**
 * Which fast monitors keep their own interval when the plan allows fewer
 * (src/shared/check-interval.ts, isFastMonitor and keptFastMonitorIds).
 */
module FastMonitors {
  import opened Common

  const POLLED_INTERVAL_SECONDS := 720

  datatype Monitor = Monitor(
    id: string, heartbeat: bool, intervalSeconds: int, createdAt: int, paused: Option<bool>, enabled: Option<bool>)

  predicate IsFastMonitor(m: Monitor) { !m.heartbeat && m.intervalSeconds < POLLED_INTERVAL_SECONDS }

  /** Paused or disabled: not checked anyway. */
  function Idle(m: Monitor): int { if m.paused == Some(true) || m.enabled == Some(false) then 1 else 0 }

  /** The comparator given to sort. */
  function Compare(a: Monitor, b: Monitor): int {
    if Idle(a) - Idle(b) != 0 then Idle(a) - Idle(b)
    else if a.createdAt - b.createdAt != 0 then a.createdAt - b.createdAt
    else if TextLess(a.id, b.id) then -1
    else if TextLess(b.id, a.id) then 1
    else 0
  }

  function Fast(monitors: seq<Monitor>): seq<Monitor> {
    if monitors == [] then []
    else Fast(monitors[..|monitors| - 1]) + if IsFastMonitor(monitors[|monitors| - 1])
        then [monitors[|monitors| - 1]] else []
  }

  /** Into a sorted list, after everything that compares equal or less: a stable sort's step. */
  function Placed(sorted: seq<Monitor>, m: Monitor): seq<Monitor> {
    if sorted == [] then [m]
    else
      var last := sorted[|sorted| - 1];
      if Compare(last, m) <= 0 then sorted + [m] else Placed(sorted[..|sorted| - 1], m) + [last]
  }

  function Sorted(monitors: seq<Monitor>): seq<Monitor> {
    if monitors == [] then [] else Placed(Sorted(monitors[..|monitors| - 1]), monitors[|monitors| - 1])
  }

  function Ids(monitors: seq<Monitor>): set<string> { set m | m in monitors :: m.id }

  function KeptFastMonitorIds(monitors: seq<Monitor>, allowance: int): set<string> {
    var fast := Fast(monitors);
    if |fast| <= allowance then Ids(fast)
    else
      var oldest := Sorted(fast);
      // slice stops at the end of the list
      Ids(oldest[..Min(Max(0, allowance), |oldest|)])
  }

  // ----- the comparator is a strict total order on distinct ids ---------------------------

  predicate Before(a: Monitor, b: Monitor) { Compare(a, b) < 0 }

  lemma BeforeIsTotal(a: Monitor, b: Monitor)
    ensures a.id != b.id ==> Before(a, b) != Before(b, a)
    ensures !Before(a, a)
    ensures a.id != b.id ==> Compare(a, b) != 0
    ensures Compare(a, b) > 0 <==> Before(b, a)
  {
    TextTotal(a.id, b.id);
    TextTotal(b.id, a.id);
  }

  lemma BeforeIsTransitive(a: Monitor, b: Monitor, c: Monitor)
    requires Before(a, b) && Before(b, c)
    ensures Before(a, c)
  {
    if TextLess(a.id, b.id) && TextLess(b.id, c.id) {
      TextTransitive(a.id, b.id, c.id);
    }
    TextTotal(a.id, c.id);
  }

  // ----- the sort --------------------------------------------------------------------------

  predicate DistinctIds(monitors: seq<Monitor>) {
    forall i, j | 0 <= i < j < |monitors| :: monitors[i].id != monitors[j].id
  }

  predicate InOrder(monitors: seq<Monitor>) {
    forall i, j | 0 <= i < j < |monitors| :: Before(monitors[i], monitors[j])
  }

  lemma OneAfter(sorted: seq<Monitor>, m: Monitor)
    requires InOrder(sorted) && DistinctIds(sorted) && forall x | x in sorted :: Before(x, m) && x.id != m.id
    ensures InOrder(sorted + [m]) && DistinctIds(sorted + [m])
  {
  }

  /** Everything in a sorted list comes before what its last one comes before. */
  lemma LastIsEnough(sorted: seq<Monitor>, m: Monitor)
    requires InOrder(sorted) && sorted != [] && Before(sorted[|sorted| - 1], m)
    ensures forall x | x in sorted :: Before(x, m)
  {
    forall x | x in sorted ensures Before(x, m) {
      var n := |sorted| - 1;
      var i :| 0 <= i <= n && sorted[i] == x;
      if i < n {
        BeforeIsTransitive(sorted[i], sorted[n], m);
      }
    }
  }

  lemma {:induction false} PlacedIsSorted(sorted: seq<Monitor>, m: Monitor)
    requires InOrder(sorted) && DistinctIds(sorted) && forall x | x in sorted :: x.id != m.id
    ensures var r := Placed(sorted, m); InOrder(r) && DistinctIds(r) && multiset(r) == multiset(sorted) + multiset{m}
    decreases |sorted|
  {
    if sorted != [] {
      var n := |sorted| - 1;
      var last := sorted[n];
      assert sorted == sorted[..n] + [last];
      BeforeIsTotal(last, m);
      if Compare(last, m) <= 0 {
        LastIsEnough(sorted, m);
        OneAfter(sorted, m);
      } else {
        var r := Placed(sorted[..n], m);
        PlacedIsSorted(sorted[..n], m);
        forall x | x in r ensures Before(x, last) && x.id != last.id {
          assert x in multiset(r);
          assert x == m || x in sorted[..n];
        }
        OneAfter(r, last);
      }
    }
  }

  lemma {:induction false} SortedIsSorted(monitors: seq<Monitor>)
    requires DistinctIds(monitors)
    ensures var r := Sorted(monitors); InOrder(r) && DistinctIds(r) && multiset(r) == multiset(monitors)
    decreases |monitors|
  {
    if monitors != [] {
      var n := |monitors| - 1;
      var done := Sorted(monitors[..n]);
      SortedIsSorted(monitors[..n]);
      assert monitors == monitors[..n] + [monitors[n]];
      forall x | x in done ensures x.id != monitors[n].id {
        assert x in multiset(done);
        assert x in monitors[..n];
      }
      PlacedIsSorted(done, monitors[n]);
    }
  }

  lemma LastIsLast(a: seq<Monitor>, b: seq<Monitor>)
    requires InOrder(a) && InOrder(b) && multiset(a) == multiset(b) && a != [] && b != []
    ensures a[|a| - 1] == b[|b| - 1]
  {
    var x, y := a[|a| - 1], b[|b| - 1];
    assert x in multiset(b) && y in multiset(a);
    var i :| 0 <= i < |b| && b[i] == x;
    var j :| 0 <= j < |a| && a[j] == y;
    if i < |b| - 1 && j < |a| - 1 {
      BeforeIsTransitive(x, y, x);
      BeforeIsTotal(x, x);
    }
  }

  lemma WithoutLast(a: seq<Monitor>)
    requires InOrder(a) && a != []
    ensures InOrder(a[..|a| - 1]) && multiset(a[..|a| - 1]) == multiset(a) - multiset{a[|a| - 1]}
  {
    assert a == a[..|a| - 1] + [a[|a| - 1]];
  }

  lemma SameSize(a: seq<Monitor>, b: seq<Monitor>)
    requires multiset(a) == multiset(b)
    ensures |a| == |b|
  {
    assert |multiset(a)| == |a| && |multiset(b)| == |b|;
  }

  /** There is only one order: two ordered lists of the same monitors are the same list. */
  lemma {:induction false} OneOrder(a: seq<Monitor>, b: seq<Monitor>)
    requires InOrder(a) && InOrder(b) && multiset(a) == multiset(b)
    ensures a == b
    decreases |a|
  {
    SameSize(a, b);
    if a != [] {
      var n := |a| - 1;
      LastIsLast(a, b);
      WithoutLast(a);
      WithoutLast(b);
      OneOrder(a[..n], b[..n]);
      assert a == a[..n] + [a[n]] && b == b[..n] + [b[n]];
    }
  }

  /** So whatever sorts them by the comparator answers this list. */
  lemma SortedIsTheOrder(monitors: seq<Monitor>, answer: seq<Monitor>)
    requires DistinctIds(monitors)
    ensures InOrder(answer) && multiset(answer) == multiset(monitors) <==> answer == Sorted(monitors)
  {
    SortedIsSorted(monitors);
    if InOrder(answer) && multiset(answer) == multiset(monitors) { OneOrder(answer, Sorted(monitors)); }
  }

  // ----- by rank ---------------------------------------------------------------------------

  /** Checked at an interval of its own under 12 minutes. */
  predicate Fast12(m: Monitor) { !m.heartbeat && m.intervalSeconds < 720 }

  predicate IsIdle(m: Monitor) { m.paused == Some(true) || m.enabled == Some(false) }

  /** Which comes first: an active one, then the older, then the lesser id. */
  predicate ComesFirst(a: Monitor, b: Monitor) {
    if IsIdle(a) != IsIdle(b) then IsIdle(b)
    else if a.createdAt != b.createdAt then a.createdAt < b.createdAt
    else TextLess(a.id, b.id)
  }

  lemma BeforeIs(a: Monitor, b: Monitor)
    ensures Before(a, b) <==> ComesFirst(a, b)
    ensures IsFastMonitor(a) <==> Fast12(a)
  {
  }

  /** The fast monitors that come before one. */
  function Ahead(monitors: seq<Monitor>, m: Monitor): set<Monitor> {
    set x | x in monitors && IsFastMonitor(x) && Before(x, m)
  }

  lemma AheadAre(monitors: seq<Monitor>, m: Monitor)
    ensures Ahead(monitors, m) == set x | x in monitors && Fast12(x) && ComesFirst(x, m)
  {
    forall x ensures (Before(x, m) <==> ComesFirst(x, m)) && (IsFastMonitor(x) <==> Fast12(x)) { BeforeIs(x, m); }
  }

  lemma {:induction false} FastAre(monitors: seq<Monitor>)
    ensures forall m :: m in Fast(monitors) <==> m in monitors && IsFastMonitor(m)
    decreases |monitors|
  {
    if monitors != [] {
      var n := |monitors| - 1;
      FastAre(monitors[..n]);
      assert monitors == monitors[..n] + [monitors[n]];
    }
  }

  lemma {:induction false} FastDistinct(monitors: seq<Monitor>)
    requires DistinctIds(monitors)
    ensures DistinctIds(Fast(monitors))
    decreases |monitors|
  {
    if monitors != [] {
      var n := |monitors| - 1;
      FastDistinct(monitors[..n]);
      FastAre(monitors[..n]);
      forall m | m in Fast(monitors[..n]) ensures m.id != monitors[n].id {
        var k :| 0 <= k < n && monitors[..n][k] == m;
        assert monitors[k] == m;
      }
    }
  }

  lemma FastIs(monitors: seq<Monitor>)
    ensures forall m :: m in Fast(monitors) <==> m in monitors && IsFastMonitor(m)
    ensures DistinctIds(monitors) ==> DistinctIds(Fast(monitors))
  {
    FastAre(monitors);
    if DistinctIds(monitors) {
      FastDistinct(monitors);
    }
  }

  function Members(monitors: seq<Monitor>): set<Monitor> { set m | m in monitors }

  lemma OtherIds(monitors: seq<Monitor>, k: nat)
    requires DistinctIds(monitors) && k < |monitors|
    ensures forall x | x in monitors[..k] :: x.id != monitors[k].id
  {
    forall x | x in monitors[..k] ensures x.id != monitors[k].id {
      var j :| 0 <= j < k && monitors[..k][j] == x;
      assert monitors[j] == x;
    }
  }

  lemma NextMember(monitors: seq<Monitor>, k: nat)
    requires DistinctIds(monitors) && k < |monitors|
    ensures Members(monitors[..k + 1]) == Members(monitors[..k]) + {monitors[k]}
            && monitors[k] !in Members(monitors[..k])
  {
    OtherIds(monitors, k);
    assert monitors[..k + 1] == monitors[..k] + [monitors[k]];
  }

  lemma NextId(monitors: seq<Monitor>, k: nat)
    requires DistinctIds(monitors) && k < |monitors|
    ensures Ids(monitors[..k + 1]) == Ids(monitors[..k]) + {monitors[k].id} && monitors[k].id !in Ids(monitors[..k])
  {
    OtherIds(monitors, k);
    assert monitors[..k + 1] == monitors[..k] + [monitors[k]];
  }

  /** Sets that grow by one new element at a time have as many elements as steps. */
  lemma {:induction false} Growing<T(!new)>(grown: nat -> set<T>, added: seq<T>, k: nat)
    requires k <= |added| && grown(0) == {}
    requires forall i: nat | i < k :: grown(i + 1) == grown(i) + {added[i]} && added[i] !in grown(i)
    ensures |grown(k)| == k
    decreases k
  {
    if k > 0 {
      Growing(grown, added, k - 1);
      assert grown(k - 1 + 1) == grown(k - 1) + {added[k - 1]};
    }
  }

  lemma PrefixSize(monitors: seq<Monitor>, k: nat)
    requires DistinctIds(monitors) && k <= |monitors|
    ensures |Members(monitors[..k])| == k
  {
    var grown := (i: nat) => if i <= |monitors| then Members(monitors[..i]) else {};
    forall i: nat | i < k ensures grown(i + 1) == grown(i) + {monitors[i]} && monitors[i] !in grown(i) {
      NextMember(monitors, i);
    }
    assert grown(0) == {};
    Growing(grown, monitors, k);
  }

  lemma IdCount(monitors: seq<Monitor>, k: nat)
    requires DistinctIds(monitors) && k <= |monitors|
    ensures |Ids(monitors[..k])| == k
  {
    var grown := (i: nat) => if i <= |monitors| then Ids(monitors[..i]) else {};
    var ids := seq(|monitors|, i requires 0 <= i < |monitors| => monitors[i].id);
    forall i: nat | i < k ensures grown(i + 1) == grown(i) + {ids[i]} && ids[i] !in grown(i) {
      NextId(monitors, i);
    }
    assert grown(0) == {};
    Growing(grown, ids, k);
  }

  /** In the sorted list a monitor stands where its rank says. */
  lemma RankIsPlace(monitors: seq<Monitor>, i: nat)
    requires DistinctIds(monitors)
    requires i < |Sorted(Fast(monitors))|
    ensures |Ahead(monitors, Sorted(Fast(monitors))[i])| == i
  {
    FastIs(monitors);
    var fast := Fast(monitors);
    var s := Sorted(fast);
    SortedIsSorted(fast);
    PrefixSize(s, i);
    forall x ensures x in Ahead(monitors, s[i]) <==> x in s[..i] {
      assert x in fast <==> x in multiset(s);
      if x in s {
        var k :| 0 <= k < |s| && s[k] == x;
        BeforeIsTotal(x, x);
        if i < k {
          BeforeIsTotal(s[i], x);
        }
      }
    }
    assert Ahead(monitors, s[i]) == Members(s[..i]);
  }

  lemma SortedHasAll(monitors: seq<Monitor>)
    requires DistinctIds(monitors)
    ensures |Sorted(Fast(monitors))| == |Fast(monitors)|
    ensures forall m :: m in Sorted(Fast(monitors)) <==> m in monitors && IsFastMonitor(m)
  {
    FastIs(monitors);
    SortedIsSorted(Fast(monitors));
    var s := Sorted(Fast(monitors));
    assert |multiset(s)| == |s| && |multiset(Fast(monitors))| == |Fast(monitors)|;
    forall m ensures m in s <==> m in Fast(monitors) {
      assert m in s <==> m in multiset(s);
    }
  }

  lemma AheadIsFewer(monitors: seq<Monitor>, m: Monitor)
    requires DistinctIds(monitors) && m in monitors && IsFastMonitor(m)
    ensures |Ahead(monitors, m)| < |Fast(monitors)|
  {
    SortedHasAll(monitors);
    var s := Sorted(Fast(monitors));
    var i :| 0 <= i < |s| && s[i] == m;
    RankIsPlace(monitors, i);
  }

  lemma RankedIsKept(monitors: seq<Monitor>, allowance: int, m: Monitor)
    requires DistinctIds(monitors) && m in monitors && IsFastMonitor(m) && |Ahead(monitors, m)| < allowance
    ensures m.id in KeptFastMonitorIds(monitors, allowance)
  {
    FastIs(monitors);
    SortedHasAll(monitors);
    var s := Sorted(Fast(monitors));
    var i :| 0 <= i < |s| && s[i] == m;
    RankIsPlace(monitors, i);
    if |Fast(monitors)| > allowance {
      assert m in s[..allowance];
    }
  }

  lemma KeptIsRanked(monitors: seq<Monitor>, allowance: int, id: string) returns (m: Monitor)
    requires DistinctIds(monitors) && id in KeptFastMonitorIds(monitors, allowance)
    ensures m in monitors && m.id == id && IsFastMonitor(m) && |Ahead(monitors, m)| < allowance
  {
    FastIs(monitors);
    SortedHasAll(monitors);
    var s := Sorted(Fast(monitors));
    if |s| <= allowance {
      m :| m in Fast(monitors) && m.id == id;
      AheadIsFewer(monitors, m);
    } else {
      var kept := s[..Min(Max(0, allowance), |s|)];
      m :| m in kept && m.id == id;
      var i :| 0 <= i < |kept| && kept[i] == m;
      RankIsPlace(monitors, i);
      assert m in s;
    }
  }

  lemma SameId(monitors: seq<Monitor>, a: Monitor, b: Monitor)
    requires DistinctIds(monitors) && a in monitors && b in monitors && a.id == b.id
    ensures a == b
  {
  }

  /** A fast monitor is kept exactly when fewer than the allowance come before it; nothing else ever is. */
  lemma KeptByRank(monitors: seq<Monitor>, allowance: int, m: Monitor)
    requires DistinctIds(monitors) && m in monitors
    ensures m.id in KeptFastMonitorIds(monitors, allowance) <==> IsFastMonitor(m) && |Ahead(monitors, m)| < allowance
    ensures m.id in KeptFastMonitorIds(monitors, allowance)
       <==> Fast12(m) && |set x | x in monitors && Fast12(x) && ComesFirst(x, m)| < allowance
  {
    AheadAre(monitors, m);
    if m.id in KeptFastMonitorIds(monitors, allowance) {
      var kept := KeptIsRanked(monitors, allowance, m.id);
      SameId(monitors, kept, m);
    }
    if IsFastMonitor(m) && |Ahead(monitors, m)| < allowance {
      RankedIsKept(monitors, allowance, m);
    }
  }

  /** As many are kept as are fast or allowed, whichever is fewer. */
  lemma KeptCount(monitors: seq<Monitor>, allowance: int)
    requires DistinctIds(monitors)
    ensures |KeptFastMonitorIds(monitors, allowance)| == Min(|Fast(monitors)|, Max(0, allowance))
  {
    FastIs(monitors);
    SortedHasAll(monitors);
    SortedIsSorted(Fast(monitors));
    var fast := Fast(monitors);
    if |fast| <= allowance {
      IdCount(fast, |fast|);
      assert fast[..|fast|] == fast;
    } else {
      IdCount(Sorted(fast), Min(Max(0, allowance), |fast|));
    }
  }

  // ----- what the choice promises -----------------------------------------------------------

  /** The order the monitors come in does not matter. */
  lemma OrderDoesNotMatter(a: seq<Monitor>, b: seq<Monitor>, allowance: int)
    requires DistinctIds(a) && DistinctIds(b) && forall m :: m in a <==> m in b
    ensures KeptFastMonitorIds(a, allowance) == KeptFastMonitorIds(b, allowance)
  {
    forall id ensures id in KeptFastMonitorIds(a, allowance) <==> id in KeptFastMonitorIds(b, allowance) {
      KeptInOther(a, b, allowance, id);
      KeptInOther(b, a, allowance, id);
    }
  }

  lemma KeptInOther(a: seq<Monitor>, b: seq<Monitor>, allowance: int, id: string)
    requires DistinctIds(a) && DistinctIds(b) && forall m :: m in a <==> m in b
    ensures id in KeptFastMonitorIds(a, allowance) ==> id in KeptFastMonitorIds(b, allowance)
  {
    if id in KeptFastMonitorIds(a, allowance) {
      var m := KeptIsRanked(a, allowance, id);
      KeptByRank(b, allowance, m);
      assert Ahead(a, m) == Ahead(b, m);
    }
  }

  /** A larger allowance keeps every monitor a smaller one keeps. */
  lemma MoreAllowedKeepsMore(monitors: seq<Monitor>, less: int, more: int)
    requires DistinctIds(monitors) && less <= more
    ensures KeptFastMonitorIds(monitors, less) <= KeptFastMonitorIds(monitors, more)
  {
    forall id | id in KeptFastMonitorIds(monitors, less) ensures id in KeptFastMonitorIds(monitors, more) {
      var m := KeptIsRanked(monitors, less, id);
      KeptByRank(monitors, more, m);
    }
  }

  /** Nothing idle is kept over something active it drops, and nothing younger over something as active. */
  lemma NeverKeepsTheWorse(monitors: seq<Monitor>, allowance: int, kept: Monitor, dropped: Monitor)
    requires DistinctIds(monitors) && kept in monitors && dropped in monitors && IsFastMonitor(dropped)
    requires kept.id in KeptFastMonitorIds(monitors, allowance)
             && dropped.id !in KeptFastMonitorIds(monitors, allowance)
    ensures ComesFirst(kept, dropped)
    ensures IsIdle(kept) ==> IsIdle(dropped)
    ensures IsIdle(kept) == IsIdle(dropped) ==> kept.createdAt <= dropped.createdAt
  {
    KeptByRank(monitors, allowance, kept);
    KeptByRank(monitors, allowance, dropped);
    BeforeIsTotal(kept, dropped);
    BeforeIs(kept, dropped);
    FewerAhead(monitors, dropped, kept);
  }

  lemma FewerAhead(monitors: seq<Monitor>, a: Monitor, b: Monitor)
    requires a in monitors && IsFastMonitor(a)
    ensures Before(a, b) ==> |Ahead(monitors, a)| < |Ahead(monitors, b)|
  {
    if Before(a, b) {
      forall x | x in Ahead(monitors, a) ensures x in Ahead(monitors, b) {
        BeforeIsTransitive(x, a, b);
      }
      BeforeIsTotal(a, a);
      Smaller(Ahead(monitors, a), Ahead(monitors, b), a);
    }
  }

  lemma Smaller(s: set<Monitor>, t: set<Monitor>, extra: Monitor)
    requires s <= t && extra in t && extra !in s
    ensures |s| < |t|
  {
    assert t == s + (t - s) && |t - s| > 0;
  }
}
