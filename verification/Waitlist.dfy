/**
 * Collecting the entries of an uploaded list, and importing them
 * (platform/src/admin/waitlist.ts, collect and importWaitlist). An item comes
 * with its normalised address and its parsed join time, each or neither.
 */
module Waitlist {
  import opened Common

  datatype Item = Item(email: Option<string>, joinedAt: Option<int>)

  datatype Entry = Entry(email: string, joinedAt: Option<int>)

  /** The earliest join wins; a missing one loses to any. */
  function Earlier(a: Option<int>, b: Option<int>): Option<int> {
    if a.None? then b else if b.None? then a else Some(Min(a.value, b.value))
  }

  /** The earliest join an address has in a list. */
  function Earliest(entries: seq<Entry>, email: string): Option<int> {
    if entries == [] then None
    else
      var before := Earliest(entries[..|entries| - 1], email);
      var last := entries[|entries| - 1];
      if last.email == email then Earlier(before, last.joinedAt) else before
  }

  predicate Mentions(entries: seq<Entry>, email: string) { exists i | 0 <= i < |entries| :: entries[i].email == email }

  /** A join time of the address, in the list. */
  ghost predicate Joins(entries: seq<Entry>, email: string, at: int) {
    exists i | 0 <= i < |entries| :: entries[i] == Entry(email, Some(at))
  }

  /** The earliest is the least of them, and none is exactly when there is none. */
  lemma {:induction false} EarliestIsLeast(entries: seq<Entry>, email: string)
    ensures match Earliest(entries, email)
            case None => forall at :: !Joins(entries, email, at)
            case Some(least) => Joins(entries, email, least) && forall at | Joins(entries, email, at) :: least <= at
    decreases |entries|
  {
    if entries != [] {
      var n := |entries| - 1;
      var init, last := entries[..n], entries[n];
      EarliestIsLeast(init, email);
      forall at ensures Joins(entries, email, at) <==> Joins(init, email, at) || last == Entry(email, Some(at)) {
        if Joins(init, email, at) {
          var i :| 0 <= i < n && init[i] == Entry(email, Some(at));
          assert entries[i] == Entry(email, Some(at));
        }
        if Joins(entries, email, at) && last != Entry(email, Some(at)) {
          var i :| 0 <= i <= n && entries[i] == Entry(email, Some(at));
          assert init[i] == Entry(email, Some(at));
        }
        if last == Entry(email, Some(at)) { assert entries[n] == Entry(email, Some(at)); }
      }
    }
  }

  // ----- collect ------------------------------------------------------------------

  /** The items that hold an address, as entries, repeats and all. */
  function Usable(items: seq<Item>): seq<Entry> {
    if items == [] then []
    else
      var last := items[|items| - 1];
      Usable(items[..|items| - 1]) + if last.email.Some? then [Entry(last.email.value, last.joinedAt)] else []
  }

  /** Where the items without one are. */
  function Unusable(items: seq<Item>): seq<nat> {
    if items == [] then []
    else Unusable(items[..|items| - 1]) + if items[|items| - 1].email.None? then [|items| - 1] else []
  }

  /** Every item is one or the other. */
  lemma {:induction false} UsableOrNot(items: seq<Item>)
    ensures |Usable(items)| + |Unusable(items)| == |items|
    decreases |items|
  {
    if items != [] {
      UsableOrNot(items[..|items| - 1]);
    }
  }

  predicate Distinct(entries: seq<Entry>) {
    forall i, j | 0 <= i < j < |entries| :: entries[i].email != entries[j].email
  }

  /** Where an address occurs first; the length when it does not. */
  function FirstPlace(from: seq<Entry>, email: string): nat {
    if from == [] then 0
    else
      var k := FirstPlace(from[..|from| - 1], email);
      if k < |from| - 1 || from[|from| - 1].email == email then k else |from|
  }

  /** One entry for each address that occurs, in the order they first do, with its earliest join. */
  predicate Collected(entries: seq<Entry>, from: seq<Entry>) {
    && Distinct(entries)
    && (forall i, j | 0 <= i < j < |entries| :: FirstPlace(from, entries[i].email) < FirstPlace(from, entries[j].email))
    && (forall i | 0 <= i < |entries| :: Mentions(from, entries[i].email))
    && (forall i | 0 <= i < |from| :: Mentions(entries, from[i].email))
    && (forall i | 0 <= i < |entries| :: entries[i].joinedAt == Earliest(from, entries[i].email))
  }

  /** Map.get, over the entries in insertion order. */
  method Find(entries: seq<Entry>, email: string) returns (at: nat)
    ensures at <= |entries| && (at < |entries| ==> entries[at].email == email)
    ensures at == |entries| <==> !Mentions(entries, email)
  {
    at := 0;
    while at < |entries| && entries[at].email != email
      invariant at <= |entries|
      invariant forall i | 0 <= i < at :: entries[i].email != email
    {
      at := at + 1;
    }
  }

  lemma OneMore(entries: seq<Entry>, e: Entry, email: string)
    ensures Mentions(entries + [e], email) <==> Mentions(entries, email) || e.email == email
    ensures Earliest(entries + [e], email) == if e.email == email then Earlier(Earliest(entries, email), e.joinedAt)
            else Earliest(entries, email)
  {
    var all := entries + [e];
    assert all[..|all| - 1] == entries;
    if Mentions(entries, email) {
      var i :| 0 <= i < |entries| && entries[i].email == email;
      assert all[i].email == email;
    }
    if e.email == email {
      assert all[|entries|].email == email;
    }
  }

  lemma {:induction false} FirstPlaceIs(from: seq<Entry>, email: string)
    ensures var k := FirstPlace(from, email);
            && k <= |from| && (k < |from| <==> Mentions(from, email))
            && (k < |from| ==> from[k].email == email) && forall j | 0 <= j < k :: from[j].email != email
    decreases |from|
  {
    if from != [] {
      FirstPlaceIs(from[..|from| - 1], email);
    }
  }

  /** One more entry moves no first place that was there. */
  lemma FirstPlaceStays(from: seq<Entry>, e: Entry, email: string)
    ensures FirstPlace(from, email) <= |from|
    ensures Mentions(from, email) ==> FirstPlace(from + [e], email) == FirstPlace(from, email) < |from|
    ensures !Mentions(from, email) && e.email == email ==> FirstPlace(from + [e], email) == |from|
  {
    FirstPlaceIs(from, email);
    assert (from + [e])[..|from|] == from;
  }

  lemma {:induction false} NotMentioned(entries: seq<Entry>, email: string)
    requires !Mentions(entries, email)
    ensures Earliest(entries, email) == None
    decreases |entries|
  {
    if entries != [] {
      var n := |entries| - 1;
      assert entries[..n] + [entries[n]] == entries;
      OneMore(entries[..n], entries[n], email);
      NotMentioned(entries[..n], email);
      assert entries[n].email != email;
    }
  }

  lemma SameMentions(entries: seq<Entry>, from: seq<Entry>, email: string)
    requires Collected(entries, from)
    ensures Mentions(entries, email) <==> Mentions(from, email)
  {
  }

  /** A repeat gives its entry the earlier join. */
  lemma RepeatCollected(entries: seq<Entry>, at: nat, from: seq<Entry>, e: Entry)
    requires Collected(entries, from) && at < |entries| && entries[at].email == e.email
    ensures Collected(entries[at := Entry(e.email, Earlier(entries[at].joinedAt, e.joinedAt))], from + [e])
  {
    var now := entries[at := Entry(e.email, Earlier(entries[at].joinedAt, e.joinedAt))];
    var all := from + [e];
    forall i | 0 <= i < |all| ensures Mentions(now, all[i].email) {
      if i == |from| { assert entries[at].email == all[i].email; }
      SameAddresses(entries, now, all[i].email);
    }
    forall i | 0 <= i < |now|
      ensures Mentions(all, now[i].email) && now[i].joinedAt == Earliest(all, now[i].email)
      ensures FirstPlace(all, now[i].email) == FirstPlace(from, entries[i].email)
    {
      OneMore(from, e, now[i].email);
      FirstPlaceStays(from, e, now[i].email);
    }
  }

  /** A repeat that is no earlier changes nothing. */
  lemma LaterRepeat(entries: seq<Entry>, at: nat, from: seq<Entry>, e: Entry)
    requires Collected(entries, from) && at < |entries| && entries[at].email == e.email
    requires Earlier(entries[at].joinedAt, e.joinedAt) == entries[at].joinedAt
    ensures Collected(entries, from + [e])
  {
    RepeatCollected(entries, at, from, e);
    assert entries[at := Entry(e.email, entries[at].joinedAt)] == entries;
  }

  lemma SameAddresses(a: seq<Entry>, b: seq<Entry>, email: string)
    requires |a| == |b| && forall i | 0 <= i < |a| :: a[i].email == b[i].email
    ensures Mentions(a, email) ==> Mentions(b, email)
  {
    if Mentions(a, email) {
      var i :| 0 <= i < |a| && a[i].email == email;
      assert b[i].email == email;
    }
  }

  lemma FirstCollected(entries: seq<Entry>, from: seq<Entry>, e: Entry)
    requires Collected(entries, from) && !Mentions(entries, e.email)
    ensures Collected(entries + [e], from + [e])
  {
    SameMentions(entries, from, e.email);
    NotMentioned(from, e.email);
    OneMore(from, e, e.email);
    FirstPlaceStays(from, e, e.email);
    var all, now := from + [e], entries + [e];
    forall i | 0 <= i < |all| ensures Mentions(now, all[i].email) {
      OneMore(entries, e, all[i].email);
    }
    forall i | 0 <= i < |entries|
      ensures entries[i].email != e.email && Mentions(all, entries[i].email)
              && entries[i].joinedAt == Earliest(all, entries[i].email)
      ensures FirstPlace(all, entries[i].email) == FirstPlace(from, entries[i].email) < |from|
    {
      OneMore(from, e, entries[i].email);
      FirstPlaceStays(from, e, entries[i].email);
      assert Mentions(entries, entries[i].email);
    }
  }

  lemma NextItem(items: seq<Item>, k: nat)
    requires k < |items|
    ensures var item := items[k];
            if item.email.None? then
              Usable(items[..k + 1]) == Usable(items[..k]) && Unusable(items[..k + 1]) == Unusable(items[..k]) + [k]
            else
              Usable(items[..k + 1]) == Usable(items[..k]) + [Entry(item.email.value, item.joinedAt)]
                  && Unusable(items[..k + 1]) == Unusable(items[..k])
  {
    assert items[..k + 1][..k] == items[..k];
  }

  /** One usable item: a new entry, or a repeat, whose join counts when it is earlier. */
  method Add(ghost from: seq<Entry>, entries: seq<Entry>, e: Entry) returns (more: seq<Entry>, repeated: bool)
    requires Collected(entries, from)
    ensures Collected(more, from + [e])
    ensures |more| == |entries| + if repeated then 0 else 1
  {
    more, repeated := entries, false;
    var seen := Find(entries, e.email);
    if seen < |entries| {
      repeated := true;
      var joined := entries[seen].joinedAt;
      if e.joinedAt.Some? && (joined.None? || e.joinedAt.value < joined.value) {
        RepeatCollected(entries, seen, from, e);
        more := entries[seen := e];
      } else {
        LaterRepeat(entries, seen, from, e);
      }
    } else {
      FirstCollected(entries, from, e);
      more := entries + [e];
    }
  }

  datatype ParsedWaitlist = ParsedWaitlist(entries: seq<Entry>, invalid: seq<nat>, duplicates: nat)

  method Collect(items: seq<Item>) returns (list: ParsedWaitlist)
    ensures Collected(list.entries, Usable(items))
    ensures list.invalid == Unusable(items)
    ensures list.duplicates == |Usable(items)| - |list.entries|
  {
    var entries: seq<Entry>, invalid: seq<nat>, duplicates: nat := [], [], 0;
    for k := 0 to |items|
      invariant Collected(entries, Usable(items[..k]))
      invariant invalid == Unusable(items[..k])
      invariant duplicates == |Usable(items[..k])| - |entries|
    {
      NextItem(items, k);
      var item := items[k];
      if item.email.None? {
        invalid := invalid + [k];
        continue;
      }
      var repeated;
      entries, repeated := Add(Usable(items[..k]), entries, Entry(item.email.value, item.joinedAt));
      if repeated {
        duplicates := duplicates + 1;
      }
    }
    assert items[..|items|] == items;
    list := ParsedWaitlist(entries, invalid, duplicates);
  }

  // ----- the import's two statements ----------------------------------------------------

  datatype Row = Row(joined: Option<int>, importedAt: int)

  type Table = map<string, Row>

  /** INSERT ... ON CONFLICT(email) DO NOTHING, value by value. */
  function Inserted(t: Table, entries: seq<Entry>, now: int): Table
    decreases |entries|
  {
    if entries == [] then t
    else
      var e := entries[0];
      Inserted(if e.email in t then t else t[e.email := Row(e.joinedAt, now)], entries[1..], now)
  }

  /** Is an excluded join an earlier one? */
  predicate Moves(row: Row, joined: Option<int>) {
    joined.Some? && (row.joined.None? || joined.value < row.joined.value)
  }

  /** INSERT ... ON CONFLICT(email) DO UPDATE SET joined_at ... WHERE it is earlier. */
  function Upserted(t: Table, entries: seq<Entry>, now: int): Table
    decreases |entries|
  {
    if entries == [] then t
    else
      var e := entries[0];
      var t' := if e.email !in t then t[e.email := Row(e.joinedAt, now)]
                else if Moves(t[e.email], e.joinedAt) then t[e.email := t[e.email].(joined := e.joinedAt)]
                else t;
      Upserted(t', entries[1..], now)
  }

  /** One chunk's pair: a batch never splits it. */
  function Imported(t: Table, entries: seq<Entry>, now: int): Table {
    Upserted(Inserted(t, entries, now), entries, now)
  }

  /** A chunk of some import, with that import's time. */
  datatype Chunk = Chunk(entries: seq<Entry>, now: int)

  /** The chunks of any number of imports, in the order the database took them. */
  function ImportedAll(t: Table, chunks: seq<Chunk>): Table
    decreases |chunks|
  {
    if chunks == [] then t else ImportedAll(Imported(t, chunks[0].entries, chunks[0].now), chunks[1..])
  }

  function AllEntries(chunks: seq<Chunk>): seq<Entry> {
    if chunks == [] then [] else chunks[0].entries + AllEntries(chunks[1..])
  }

  // ----- what the statements leave --------------------------------------------------------

  function Joined(t: Table, email: string): Option<int> { if email in t then t[email].joined else None }

  lemma {:induction false} EarliestOfJoined(a: seq<Entry>, b: seq<Entry>, email: string)
    ensures Earliest(a + b, email) == Earlier(Earliest(a, email), Earliest(b, email))
    ensures Mentions(a + b, email) <==> Mentions(a, email) || Mentions(b, email)
    decreases |b|
  {
    if b == [] {
      assert a + b == a;
    } else {
      var n := |b| - 1;
      assert a + b == (a + b[..n]) + [b[n]] && b == b[..n] + [b[n]];
      EarliestOfJoined(a, b[..n], email);
      OneMore(a + b[..n], b[n], email);
      OneMore(b[..n], b[n], email);
    }
  }

  lemma FirstEntry(entries: seq<Entry>, email: string)
    requires entries != []
    ensures var e := entries[0];
            && Earliest(entries, email)
                == Earlier(if e.email == email then e.joinedAt else None, Earliest(entries[1..], email))
            && (Mentions(entries, email) <==> e.email == email || Mentions(entries[1..], email))
  {
    assert [entries[0]] + entries[1..] == entries;
    EarliestOfJoined([entries[0]], entries[1..], email);
    OneMore([], entries[0], email);
    assert [] + [entries[0]] == [entries[0]];
  }

  /** The insert: rows already there stay as they are; a new one is this import's, no earlier than its earliest. */
  lemma {:induction false} InsertedRow(t: Table, entries: seq<Entry>, now: int, email: string)
    ensures var v := Inserted(t, entries, now);
            && (email in v <==> email in t || Mentions(entries, email))
            && (email in t ==> v[email] == t[email])
            && (email in v && email !in t ==>
                  v[email].importedAt == now
                      && Earlier(v[email].joined, Earliest(entries, email)) == Earliest(entries, email))
    decreases |entries|
  {
    if entries != [] {
      FirstEntry(entries, email);
      var e := entries[0];
      InsertedRow(if e.email in t then t else t[e.email := Row(e.joinedAt, now)], entries[1..], now, email);
    }
  }

  lemma {:induction false} UpsertedRow(t: Table, entries: seq<Entry>, now: int, email: string)
    requires forall i | 0 <= i < |entries| :: entries[i].email in t
    ensures var v := Upserted(t, entries, now);
            && (email in v <==> email in t)
            && (email in t ==> v[email] == Row(Earlier(t[email].joined, Earliest(entries, email)), t[email].importedAt))
    decreases |entries|
  {
    if entries != [] {
      FirstEntry(entries, email);
      var e := entries[0];
      var t' := if Moves(t[e.email], e.joinedAt) then t[e.email := t[e.email].(joined := e.joinedAt)] else t;
      assert forall i | 0 <= i < |entries[1..]| :: entries[1..][i] == entries[i + 1];
      UpsertedRow(t', entries[1..], now, email);
    }
  }

  /**
   * A chunk adds exactly the addresses that were missing, and gives every address
   * the earliest join either side knows.
   */
  lemma ImportedRow(t: Table, entries: seq<Entry>, now: int, email: string)
    ensures var v := Imported(t, entries, now);
            && (email in v <==> email in t || Mentions(entries, email))
            && Joined(v, email) == Earlier(Joined(t, email), Earliest(entries, email))
            && (email in v ==> v[email].importedAt == if email in t then t[email].importedAt else now)
  {
    var u := Inserted(t, entries, now);
    forall i | 0 <= i < |entries| ensures entries[i].email in u {
      assert Mentions(entries, entries[i].email);
      InsertedRow(t, entries, now, entries[i].email);
    }
    InsertedRow(t, entries, now, email);
    UpsertedRow(u, entries, now, email);
    if !Mentions(entries, email) {
      NotMentioned(entries, email);
    }
  }

  /**
   * Any interleaving of any imports: who is on the list, and since when, depends
   * on what was imported and not on the order.
   */
  lemma {:induction false} OrderDoesNotMatter(t: Table, chunks: seq<Chunk>, email: string)
    ensures var v := ImportedAll(t, chunks);
            && (email in v <==> email in t || Mentions(AllEntries(chunks), email))
            && Joined(v, email) == Earlier(Joined(t, email), Earliest(AllEntries(chunks), email))
    decreases |chunks|
  {
    if chunks != [] {
      var c := chunks[0];
      ImportedRow(t, c.entries, c.now, email);
      OrderDoesNotMatter(Imported(t, c.entries, c.now), chunks[1..], email);
      EarliestOfJoined(c.entries, AllEntries(chunks[1..]), email);
    }
  }

  /** A part of what was imported before changes nothing at all. */
  lemma PartChangesNothing(t: Table, before: seq<Entry>, now: int, part: seq<Entry>, again: int)
    requires forall i | 0 <= i < |part| :: part[i] in before
    ensures var v := Imported(t, before, now); Imported(v, part, again) == v
  {
    var v := Imported(t, before, now);
    var u := Imported(v, part, again);
    forall email ensures (email in u <==> email in v) && (email in v ==> u[email] == v[email]) {
      ImportedRow(t, before, now, email);
      ImportedRow(v, part, again, email);
      PartIsNoEarlier(part, before, email);
    }
    assert u == v;
  }

  /** Importing a list again, in whatever chunks and at whatever time, changes nothing at all. */
  lemma {:induction false} AgainChangesNothing(t: Table, before: seq<Entry>, now: int, chunks: seq<Chunk>)
    requires forall i | 0 <= i < |AllEntries(chunks)| :: AllEntries(chunks)[i] in before
    ensures var v := Imported(t, before, now); ImportedAll(v, chunks) == v
    decreases |chunks|
  {
    if chunks != [] {
      var first, rest := chunks[0].entries, AllEntries(chunks[1..]);
      forall i | 0 <= i < |first| ensures first[i] in before { assert AllEntries(chunks)[i] == first[i]; }
      forall i | 0 <= i < |rest| ensures rest[i] in before { assert AllEntries(chunks)[|first| + i] == rest[i]; }
      PartChangesNothing(t, before, now, first, chunks[0].now);
      AgainChangesNothing(t, before, now, chunks[1..]);
    }
  }

  lemma {:induction false} EarliestBelow(entries: seq<Entry>, e: Entry)
    requires e in entries
    ensures Mentions(entries, e.email) && Earlier(Earliest(entries, e.email), e.joinedAt) == Earliest(entries, e.email)
    decreases |entries|
  {
    var n := |entries| - 1;
    assert entries == entries[..n] + [entries[n]];
    OneMore(entries[..n], entries[n], e.email);
    if e != entries[n] {
      EarliestBelow(entries[..n], e);
    }
  }

  lemma {:induction false} PartIsNoEarlier(part: seq<Entry>, all: seq<Entry>, email: string)
    requires forall i | 0 <= i < |part| :: part[i] in all
    ensures Mentions(part, email) ==> Mentions(all, email)
    ensures Earlier(Earliest(all, email), Earliest(part, email)) == Earliest(all, email)
    decreases |part|
  {
    if part != [] {
      var n := |part| - 1;
      assert part == part[..n] + [part[n]];
      OneMore(part[..n], part[n], email);
      PartIsNoEarlier(part[..n], all, email);
      EarliestBelow(all, part[n]);
    }
  }

  // ----- importWaitlist --------------------------------------------------------------------

  const ROWS_PER_STATEMENT := 50
  const STATEMENTS_PER_BATCH := 20

  datatype Statement = Insert(entries: seq<Entry>) | Upsert(entries: seq<Entry>)

  function Ran(t: Table, s: Statement, now: int): Table {
    match s
    case Insert(entries) => Inserted(t, entries, now)
    case Upsert(entries) => Upserted(t, entries, now)
  }

  /** The statements from number i on, one after another. */
  function RanFrom(t: Table, statements: seq<Statement>, i: nat, now: int): Table
    requires i <= |statements|
    decreases |statements| - i
  {
    if i == |statements| then t else RanFrom(Ran(t, statements[i], now), statements, i + 1, now)
  }

  /** In pairs, 50 entries each. */
  function Pairs(entries: seq<Entry>): seq<Statement>
    decreases |entries|
  {
    if entries == [] then []
    else
      var n := Min(ROWS_PER_STATEMENT, |entries|);
      [Insert(entries[..n]), Upsert(entries[..n])] + Pairs(entries[n..])
  }

  class WaitlistTable {
    var rows: Table

    /** One statement of a batch: an insert reports the rows it added, the other the rows it touched. */
    method Run(s: Statement, now: int) returns (changes: nat)
      modifies this
      ensures rows == Ran(old(rows), s, now)
      ensures s.Insert? ==> changes == |rows| - |old(rows)|
    {
      var t := rows;
      changes := 0;
      var i := 0;
      while i < |s.entries|
        invariant i <= |s.entries|
        invariant rows == old(rows)
        invariant Ran(t, if s.Insert? then Insert(s.entries[i..]) else Upsert(s.entries[i..]), now) == Ran(rows, s, now)
        invariant s.Insert? ==> changes == |t| - |rows|
      {
        var e := s.entries[i];
        assert s.entries[i..][1..] == s.entries[i + 1..];
        if e.email !in t {
          t := t[e.email := Row(e.joinedAt, now)];
          changes := changes + 1;
        } else if s.Upsert? && Moves(t[e.email], e.joinedAt) {
          t := t[e.email := t[e.email].(joined := e.joinedAt)];
          changes := changes + 1;
        }
        i := i + 1;
      }
      rows := t;
    }

    /** One batch, from statement i up to `end`; the even results are added up. */
    method Batch(statements: seq<Statement>, i: nat, end: nat, now: int) returns (added: nat)
      requires i <= end <= |statements| && i % 2 == 0 && EvenInserts(statements)
      modifies this
      ensures RanFrom(rows, statements, end, now) == RanFrom(old(rows), statements, i, now)
      ensures added == |rows| - |old(rows)|
    {
      added := 0;
      ghost var before := rows;
      var j := 0;
      while j < end - i
        invariant j <= end - i
        invariant RanFrom(rows, statements, i + j, now) == RanFrom(old(rows), statements, i, now)
        invariant added == |rows| - |old(rows)|
        invariant (i + j) % 2 == 1 ==> statements[i + j - 1].Insert? && rows == Ran(before, statements[i + j - 1], now)
      {
        assert PairAt(statements, (i + j) / 2);
        if (i + j) % 2 == 1 {
          SameRows(before, statements[i + j].entries, now);
        }
        before := rows;
        var changes := Run(statements[i + j], now);
        if (i + j) % 2 == 0 {
          added := added + changes;
        }
        j := j + 1;
      }
    }

    /** Adds what is missing; `added` is what the inserts themselves added. */
    method ImportWaitlist(entries: seq<Entry>, now: int) returns (added: int, existing: int)
      modifies this
      ensures rows == RanFrom(old(rows), Pairs(entries), 0, now)
      ensures added == |rows| - |old(rows)| && added + existing == |entries|
    {
      var statements := Statements(entries);
      added := 0;
      var i := 0;
      while i < |statements|
        invariant i <= |statements| && i % 2 == 0
        invariant RanFrom(rows, statements, i, now) == RanFrom(old(rows), statements, 0, now)
        invariant added == |rows| - |old(rows)|
      {
        var end := Min(i + STATEMENTS_PER_BATCH, |statements|);
        assert end % 2 == 0 && end > i;
        var changes := Batch(statements, i, end, now);
        added := added + changes;
        i := end;
      }
      existing := |entries| - added;
    }
  }

  /** The loop that builds the statements. */
  method Statements(entries: seq<Entry>) returns (statements: seq<Statement>)
    ensures statements == Pairs(entries) && EvenInserts(statements)
  {
    statements := [];
    var i := 0;
    while i < |entries|
      invariant i <= |entries|
      invariant statements + Pairs(entries[i..]) == Pairs(entries)
      invariant EvenInserts(statements)
    {
      var chunk := entries[i..Min(i + ROWS_PER_STATEMENT, |entries|)];
      FirstPair(statements, entries[i..]);
      assert entries[i..][..|chunk|] == chunk && entries[i..][|chunk|..] == entries[i + |chunk|..];
      EvenMore(statements, chunk);
      statements := statements + [Insert(chunk), Upsert(chunk)];
      i := i + |chunk|;
    }
  }

  /** An insert at an even place, with its upsert behind it. */
  predicate PairAt(statements: seq<Statement>, k: nat)
    requires 2 * k + 1 < |statements|
  {
    statements[2 * k].Insert? && statements[2 * k + 1] == Upsert(statements[2 * k].entries)
  }

  predicate EvenInserts(statements: seq<Statement>) {
    |statements| % 2 == 0 && forall k | 0 <= k < |statements| / 2 :: PairAt(statements, k)
  }

  lemma EvenMore(statements: seq<Statement>, entries: seq<Entry>)
    requires EvenInserts(statements)
    ensures EvenInserts(statements + [Insert(entries), Upsert(entries)])
  {
    var more := statements + [Insert(entries), Upsert(entries)];
    forall k | 0 <= k < |more| / 2 ensures PairAt(more, k) {
      if 2 * k + 1 < |statements| {
        assert PairAt(statements, k);
      }
    }
  }

  /** After its insert, an upsert adds no row, so the even results alone count the added ones. */
  lemma SameRows(t: Table, entries: seq<Entry>, now: int)
    ensures |Imported(t, entries, now)| == |Inserted(t, entries, now)|
  {
    var u, v := Inserted(t, entries, now), Imported(t, entries, now);
    forall email ensures email in v <==> email in u {
      InsertedRow(t, entries, now, email);
      ImportedRow(t, entries, now, email);
    }
    assert v.Keys == u.Keys && |v.Keys| == |v| && |u.Keys| == |u|;
  }

  function Chunks(entries: seq<Entry>, now: int): seq<Chunk>
    decreases |entries|
  {
    if entries == [] then []
    else
      var n := Min(ROWS_PER_STATEMENT, |entries|);
      [Chunk(entries[..n], now)] + Chunks(entries[n..], now)
  }

  lemma FirstPair(done: seq<Statement>, entries: seq<Entry>)
    requires entries != []
    ensures var n := Min(ROWS_PER_STATEMENT, |entries|);
            done + Pairs(entries) == done + [Insert(entries[..n]), Upsert(entries[..n])] + Pairs(entries[n..])
  {
    var n := Min(ROWS_PER_STATEMENT, |entries|);
    JoinThree(done, [Insert(entries[..n]), Upsert(entries[..n])], Pairs(entries[n..]));
  }

  lemma JoinThree(a: seq<Statement>, b: seq<Statement>, c: seq<Statement>)
    ensures a + (b + c) == a + b + c
  {
  }

  /** The statements of one import are its chunks. */
  lemma {:induction false} PairsAreChunks(t: Table, statements: seq<Statement>, i: nat, entries: seq<Entry>, now: int)
    requires i <= |statements| && statements[i..] == Pairs(entries)
    ensures RanFrom(t, statements, i, now) == ImportedAll(t, Chunks(entries, now))
    ensures AllEntries(Chunks(entries, now)) == entries
    decreases |entries|
  {
    if entries != [] {
      var n := Min(ROWS_PER_STATEMENT, |entries|);
      var chunk := entries[..n];
      assert statements[i] == statements[i..][0] == Insert(chunk)
          && statements[i + 1] == statements[i..][1] == Upsert(chunk);
      assert statements[i + 2..] == statements[i..][2..] == Pairs(entries[n..]);
      var u := Inserted(t, chunk, now);
      assert RanFrom(t, statements, i, now) == RanFrom(u, statements, i + 1, now);
      PairsAreChunks(Imported(t, chunk, now), statements, i + 2, entries[n..], now);
      var chunks := Chunks(entries, now);
      assert chunks[0] == Chunk(chunk, now) && chunks[1..] == Chunks(entries[n..], now);
    }
  }

  /** So one whole import gives every address the earliest join of the list and the file. */
  lemma ImportTakesTheEarliest(t: Table, entries: seq<Entry>, now: int, email: string)
    ensures var v := RanFrom(t, Pairs(entries), 0, now);
            (email in v <==> email in t || Mentions(entries, email))
                && Joined(v, email) == Earlier(Joined(t, email), Earliest(entries, email))
  {
    PairsAreChunks(t, Pairs(entries), 0, entries, now);
    OrderDoesNotMatter(t, Chunks(entries, now), email);
  }
}
