/**
 * The two per-isolate caches: tenants by slug (platform/src/tenants.ts,
 * cachedTenantBySlug) and call keys by tenant (platform/src/starter.ts,
 * tenantCallKeys). Both are a Map with the same rules and differ only in how
 * long a value may be kept, so the rules are stated once. The table behind a
 * cache is any function of key and time; a lookup reads it at some moment
 * after it started and stores at a later one, with other lookups and forgets
 * in between.
 */
module Caches {
  import opened Common

  const CACHE_MAX := 1_000

  /** One entry of the Map; the entries stand in insertion order. */
  datatype Entry<V> = Entry(key: string, value: V, until: int)

  function Place<V>(entries: seq<Entry<V>>, key: string): (p: nat)
    ensures p <= |entries| && (p < |entries| ==> entries[p].key == key)
    ensures p == |entries| ==> forall k | 0 <= k < |entries| :: entries[k].key != key
  {
    if entries == [] then 0
    else if entries[|entries| - 1].key == key then |entries| - 1
    else
      var p := Place(entries[..|entries| - 1], key);
      if p < |entries| - 1 then p else |entries|
  }

  /** Map.delete */
  function Without<V>(entries: seq<Entry<V>>, key: string): seq<Entry<V>> {
    var p := Place(entries, key);
    if p < |entries| then entries[..p] + entries[p + 1..] else entries
  }

  /** Map.set: a key already there keeps its place. */
  function With<V>(entries: seq<Entry<V>>, e: Entry<V>): seq<Entry<V>> {
    var p := Place(entries, e.key);
    if p < |entries| then entries[p := e] else entries + [e]
  }

  /** A hit: an entry whose time is not up. */
  function Hit<V>(entries: seq<Entry<V>>, key: string, now: int): Option<V> {
    var p := Place(entries, key);
    if p < |entries| && entries[p].until > now then Some(entries[p].value) else None
  }

  /**
   * What a finished lookup does: kept for its lifetime, counted from the lookup's
   * own start, the oldest entry making room; or dropped.
   */
  function Kept<V>(entries: seq<Entry<V>>, key: string, value: V, life: Option<int>, started: int): seq<Entry<V>> {
    if life.None? then Without(entries, key)
    else With(if |entries| >= CACHE_MAX then entries[1..] else entries, Entry(key, value, started + life.value))
  }

  // ----- how long each value is kept -------------------------------------------------

  const TENANT_CACHE_MS := 30_000
  const UNKNOWN_SLUG_CACHE_MS := 5_000
  const CALL_KEYS_CACHE_MS := 30_000
  const UNKNOWN_TENANT_CACHE_MS := 60_000

  datatype Tenant = Tenant(id: int, ready: bool)

  /** A ready tenant 30 seconds, an unknown slug 5, a tenant still being set up never. */
  function TenantLife(found: Option<Tenant>): Option<int> {
    if found.None? then Some(UNKNOWN_SLUG_CACHE_MS)
    else if found.value.ready then Some(TENANT_CACHE_MS)
    else None
  }

  datatype CallKeys = CallKeys(current: int, next: Option<int>)

  /** Keys 30 seconds, an id without any 60. */
  function KeysLife(keys: Option<CallKeys>): Option<int> {
    Some(if keys.Some? then CALL_KEYS_CACHE_MS else UNKNOWN_TENANT_CACHE_MS)
  }

  // ----- lookups and forgets, interleaved ------------------------------------------------

  /** A lookup under way: when it started, and what it read once it has. */
  datatype Lookup<V> = Lookup(key: string, started: int, read: Option<V>)

  datatype World<V> = World(now: int, entries: seq<Entry<V>>, lookups: map<nat, Lookup<V>>)

  datatype Event =
    | Time(to: int)
    | Start(id: nat, key: string)
    | Read(id: nat)
    | Finish(id: nat)
    | Forget(key: string)
    | Restart

  ghost predicate Enabled<V>(w: World<V>, e: Event) {
    match e
    case Time(to) => w.now <= to
    case Start(id, key) => id !in w.lookups && Hit(w.entries, key, w.now).None?
    case Read(id) => id in w.lookups && w.lookups[id].read.None?
    case Finish(id) => id in w.lookups && w.lookups[id].read.Some?
    case Forget(_) => true
    case Restart => true
  }

  /** The table: what it holds under a key at an instant. */
  type Db<!V> = (string, int) -> V

  type Life<!V> = V -> Option<int>

  ghost function Apply<V>(db: Db<V>, life: Life<V>, w: World<V>, e: Event): World<V>
    requires Enabled(w, e)
  {
    match e
    case Time(to) => w.(now := to)
    case Start(id, key) => w.(lookups := w.lookups[id := Lookup(key, w.now, None)])
    case Read(id) => w.(lookups := w.lookups[id := w.lookups[id].(read := Some(db(w.lookups[id].key, w.now)))])
    case Finish(id) =>
      var l := w.lookups[id];
      w.(entries := Kept(w.entries, l.key, l.read.value, life(l.read.value), l.started), lookups := w.lookups - {id})
    case Forget(key) => w.(entries := Without(w.entries, key))
    case Restart => w.(entries := [], lookups := map[])
  }

  ghost predicate Runs<V>(db: Db<V>, life: Life<V>, w: World<V>, events: seq<Event>)
    decreases |events|
  {
    events == [] || (Enabled(w, events[0]) && Runs(db, life, Apply(db, life, w, events[0]), events[1..]))
  }

  ghost function After<V>(db: Db<V>, life: Life<V>, w: World<V>, events: seq<Event>): World<V>
    requires Runs(db, life, w, events)
    decreases |events|
  {
    if events == [] then w else After(db, life, Apply(db, life, w, events[0]), events[1..])
  }

  // ----- what every step keeps -------------------------------------------------------------

  /** The table held the value at some instant from `from` up to `to`. */
  ghost predicate HeldBetween<V>(db: Db<V>, key: string, value: V, from: int, to: int) {
    exists t :: from <= t <= to && db(key, t) == value
  }

  /** A cached value may be kept, and was in the table once its lookup had started. */
  ghost predicate EntryOk<V>(db: Db<V>, life: Life<V>, now: int, e: Entry<V>) {
    life(e.value).Some? && HeldBetween(db, e.key, e.value, e.until - life(e.value).value, now)
  }

  ghost predicate LookupOk<V>(db: Db<V>, now: int, l: Lookup<V>) {
    l.started <= now && (l.read.Some? ==> HeldBetween(db, l.key, l.read.value, l.started, now))
  }

  predicate DistinctKeys<V>(entries: seq<Entry<V>>) {
    forall i, j | 0 <= i < j < |entries| :: entries[i].key != entries[j].key
  }

  ghost predicate EntriesOk<V>(db: Db<V>, life: Life<V>, now: int, entries: seq<Entry<V>>) {
    && DistinctKeys(entries) && |entries| <= CACHE_MAX
    && forall i | 0 <= i < |entries| :: EntryOk(db, life, now, entries[i])
  }

  ghost predicate Inv<V>(db: Db<V>, life: Life<V>, w: World<V>) {
    && EntriesOk(db, life, w.now, w.entries)
    && forall id | id in w.lookups :: LookupOk(db, w.now, w.lookups[id])
  }

  lemma LaterHeld<V>(db: Db<V>, key: string, value: V, from: int, to: int, later: int)
    requires HeldBetween(db, key, value, from, to) && to <= later
    ensures HeldBetween(db, key, value, from, later)
  {
    var t :| from <= t <= to && db(key, t) == value;
    assert t <= later;
  }

  lemma LaterOk<V>(db: Db<V>, life: Life<V>, now: int, entries: seq<Entry<V>>, later: int)
    requires EntriesOk(db, life, now, entries) && now <= later
    ensures EntriesOk(db, life, later, entries)
  {
    forall i | 0 <= i < |entries| ensures EntryOk(db, life, later, entries[i]) {
      var e := entries[i];
      assert EntryOk(db, life, now, e);
      LaterHeld(db, e.key, e.value, e.until - life(e.value).value, now, later);
    }
  }

  lemma TimeInv<V>(db: Db<V>, life: Life<V>, w: World<V>, to: int)
    requires Inv(db, life, w) && w.now <= to
    ensures Inv(db, life, w.(now := to))
  {
    LaterOk(db, life, w.now, w.entries, to);
    forall id | id in w.lookups ensures LookupOk(db, to, w.lookups[id]) {
      var l := w.lookups[id];
      assert LookupOk(db, w.now, l);
      if l.read.Some? {
        LaterHeld(db, l.key, l.read.value, l.started, w.now, to);
      }
    }
  }

  lemma WithoutOk<V>(db: Db<V>, life: Life<V>, now: int, entries: seq<Entry<V>>, key: string)
    requires EntriesOk(db, life, now, entries)
    ensures EntriesOk(db, life, now, Without(entries, key))
    ensures forall e | e in Without(entries, key) :: e in entries && e.key != key
  {
    var p := Place(entries, key);
    if p < |entries| {
      var v := Without(entries, key);
      forall i | 0 <= i < |v| ensures EntryOk(db, life, now, v[i]) && v[i].key != key {
        assert v[i] == entries[if i < p then i else i + 1];
      }
    }
  }

  lemma KeptOk<V>(db: Db<V>, life: Life<V>, now: int, entries: seq<Entry<V>>, l: Lookup<V>)
    requires EntriesOk(db, life, now, entries) && LookupOk(db, now, l) && l.read.Some?
    ensures EntriesOk(db, life, now, Kept(entries, l.key, l.read.value, life(l.read.value), l.started))
  {
    if life(l.read.value).None? {
      WithoutOk(db, life, now, entries, l.key);
    } else {
      var room := if |entries| >= CACHE_MAX then entries[1..] else entries;
      forall i | 0 <= i < |room| ensures EntryOk(db, life, now, room[i]) { assert room[i] in entries; }
      WithOk(db, life, now, room, Entry(l.key, l.read.value, l.started + life(l.read.value).value));
    }
  }

  lemma WithOk<V>(db: Db<V>, life: Life<V>, now: int, room: seq<Entry<V>>, e: Entry<V>)
    requires EntriesOk(db, life, now, room) && |room| < CACHE_MAX && EntryOk(db, life, now, e)
    ensures EntriesOk(db, life, now, With(room, e))
  {
    var v := With(room, e);
    forall i | 0 <= i < |v| ensures EntryOk(db, life, now, v[i]) {
      assert v[i] == e || v[i] == room[i];
    }
  }

  lemma StepInv<V>(db: Db<V>, life: Life<V>, w: World<V>, e: Event)
    requires Inv(db, life, w) && Enabled(w, e)
    ensures Inv(db, life, Apply(db, life, w, e))
  {
    match e
    case Time(to) => TimeInv(db, life, w, to);
    case Start(id, key) =>
    case Read(id) =>
      var l := w.lookups[id];
      assert LookupOk(db, w.now, l) && HeldBetween(db, l.key, db(l.key, w.now), l.started, w.now);
    case Finish(id) => KeptOk(db, life, w.now, w.entries, w.lookups[id]);
    case Forget(key) => WithoutOk(db, life, w.now, w.entries, key);
    case Restart =>
  }

  lemma {:induction false} RunInv<V>(db: Db<V>, life: Life<V>, w: World<V>, events: seq<Event>)
    requires Inv(db, life, w) && Runs(db, life, w, events)
    ensures Inv(db, life, After(db, life, w, events))
    decreases |events|
  {
    if events != [] {
      StepInv(db, life, w, events[0]);
      RunInv(db, life, Apply(db, life, w, events[0]), events[1..]);
    }
  }

  // ----- what is served ----------------------------------------------------------------------

  /** Served at `now`: the table held this at an instant less than `ms` ago. */
  ghost predicate HeldWithin<V>(db: Db<V>, key: string, value: V, now: int, ms: int) {
    exists t :: now - ms < t <= now && db(key, t) == value
  }

  /** A hit may be kept, and its value was in the table less than its lifetime ago. */
  lemma HitIsRecent<V>(db: Db<V>, life: Life<V>, now: int, entries: seq<Entry<V>>, key: string)
    requires EntriesOk(db, life, now, entries) && Hit(entries, key, now).Some?
    ensures var value := Hit(entries, key, now).value;
            life(value).Some? && HeldWithin(db, key, value, now, life(value).value)
  {
    var e := entries[Place(entries, key)];
    assert EntryOk(db, life, now, e);
    var t :| e.until - life(e.value).value <= t <= now && db(key, t) == e.value;
    assert now - life(e.value).value < t;
  }

  /**
   * Over any run from an empty cache: a hit is less than its lifetime old, a looked-up
   * answer was read since its lookup started, and there are never more than 1,000 entries.
   */
  lemma AnswersAreRecent<V>(db: Db<V>, life: Life<V>, start: World<V>, events: seq<Event>, key: string, id: nat)
    requires start.entries == [] && start.lookups == map[] && Runs(db, life, start, events)
    ensures var w := After(db, life, start, events);
            && |w.entries| <= CACHE_MAX
            && (var hit := Hit(w.entries, key, w.now);
                hit.Some? ==> life(hit.value).Some? && HeldWithin(db, key, hit.value, w.now, life(hit.value).value))
            && (id in w.lookups && w.lookups[id].read.Some? ==>
                  HeldBetween(db, w.lookups[id].key, w.lookups[id].read.value, w.lookups[id].started, w.now))
  {
    RunInv(db, life, start, events);
    var w := After(db, life, start, events);
    if Hit(w.entries, key, w.now).Some? {
      HitIsRecent(db, life, w.now, w.entries, key);
    }
    assert id in w.lookups ==> LookupOk(db, w.now, w.lookups[id]);
  }

  /**
   * Tenants: a cached one is ready and under 30 seconds old, a cached unknown slug
   * under 5; one being set up is never served from the cache.
   */
  lemma TenantAnswers(db: Db<Option<Tenant>>, start: World<Option<Tenant>>, events: seq<Event>, slug: string)
    requires start.entries == [] && start.lookups == map[] && Runs(db, TenantLife, start, events)
    ensures var w := After(db, TenantLife, start, events);
            var hit := Hit(w.entries, slug, w.now);
            && (hit == Some(None) ==> HeldWithin(db, slug, None, w.now, 5_000))
            && (hit.Some? && hit.value.Some? ==>
                hit.value.value.ready && HeldWithin(db, slug, hit.value, w.now, 30_000))
  {
    AnswersAreRecent(db, TenantLife, start, events, slug, 0);
  }

  /** Keys: under 30 seconds old, or 60 for an id without any. */
  lemma KeyAnswers(db: Db<Option<CallKeys>>, start: World<Option<CallKeys>>, events: seq<Event>, tenantId: string)
    requires start.entries == [] && start.lookups == map[] && Runs(db, KeysLife, start, events)
    ensures var w := After(db, KeysLife, start, events);
            var hit := Hit(w.entries, tenantId, w.now);
            && (hit == Some(None) ==> HeldWithin(db, tenantId, None, w.now, 60_000))
            && (hit.Some? && hit.value.Some? ==> HeldWithin(db, tenantId, hit.value, w.now, 30_000))
  {
    AnswersAreRecent(db, KeysLife, start, events, tenantId, 0);
  }

  // ----- forgetting -----------------------------------------------------------------------------

  /** A lookup that has read could still be served, once it finishes. */
  predicate Servable<V>(life: Life<V>, now: int, l: Lookup<V>) {
    l.read.Some? && life(l.read.value).Some? && now < l.started + life(l.read.value).value
  }

  /** Whatever may be served under the key, cached or read by a lookup under way, was in the table since an instant. */
  ghost predicate Since<V>(db: Db<V>, life: Life<V>, w: World<V>, key: string, since: int) {
    && since <= w.now
    && (forall e | e in w.entries && e.key == key && w.now < e.until :: HeldBetween(db, key, e.value, since, w.now))
    && (forall id | id in w.lookups && w.lookups[id].key == key && Servable(life, w.now, w.lookups[id]) ::
          HeldBetween(db, key, w.lookups[id].read.value, since, w.now))
  }

  lemma KeptSince<V>(life: Life<V>, entries: seq<Entry<V>>, l: Lookup<V>, e: Entry<V>)
    requires l.read.Some? && e in Kept(entries, l.key, l.read.value, life(l.read.value), l.started)
    ensures || e in entries
            || (e.key == l.key && e.value == l.read.value && life(e.value).Some?
                && e.until == l.started + life(e.value).value)
  {
  }

  lemma WithoutSince<V>(entries: seq<Entry<V>>, key: string, e: Entry<V>)
    requires e in Without(entries, key)
    ensures e in entries
  {
  }

  lemma TimeSince<V>(db: Db<V>, life: Life<V>, w: World<V>, to: int, key: string, since: int)
    requires Since(db, life, w, key, since) && w.now <= to
    ensures Since(db, life, w.(now := to), key, since)
  {
    forall e | e in w.entries && e.key == key && to < e.until ensures HeldBetween(db, key, e.value, since, to) {
      LaterHeld(db, key, e.value, since, w.now, to);
    }
    forall id | id in w.lookups && w.lookups[id].key == key && Servable(life, to, w.lookups[id])
      ensures HeldBetween(db, key, w.lookups[id].read.value, since, to)
    {
      LaterHeld(db, key, w.lookups[id].read.value, since, w.now, to);
    }
  }

  lemma StepSince<V>(db: Db<V>, life: Life<V>, w: World<V>, e: Event, key: string, since: int)
    requires Since(db, life, w, key, since) && Enabled(w, e)
    ensures Since(db, life, Apply(db, life, w, e), key, since)
  {
    match e
    case Time(to) => TimeSince(db, life, w, to, key, since);
    case Read(id) => assert HeldBetween(db, w.lookups[id].key, db(w.lookups[id].key, w.now), since, w.now);
    case Finish(id) =>
      var l := w.lookups[id];
      forall x | x in Apply(db, life, w, e).entries && x.key == key && w.now < x.until
        ensures HeldBetween(db, key, x.value, since, w.now)
      {
        KeptSince(life, w.entries, l, x);
      }
    case Forget(k) =>
      forall x | x in Without(w.entries, k) ensures x in w.entries { WithoutSince(w.entries, k, x); }
    case _ =>
  }

  lemma {:induction false} RunSince<V>(db: Db<V>, life: Life<V>, w: World<V>, events: seq<Event>, key: string,
                                       since: int)
    requires Since(db, life, w, key, since) && Runs(db, life, w, events)
    ensures Since(db, life, After(db, life, w, events), key, since)
    decreases |events|
  {
    if events != [] {
      StepSince(db, life, w, events[0], key, since);
      RunSince(db, life, Apply(db, life, w, events[0]), events[1..], key, since);
    }
  }

  /** From here on this isolate never serves from its cache, under the key, what the table held only before now. */
  ghost predicate ServesOnlySince<V(!new)>(db: Db<V>, life: Life<V>, w: World<V>, key: string) {
    forall later | Runs(db, life, w, later) ::
      var v := After(db, life, w, later);
      var hit := Hit(v.entries, key, v.now);
      hit.Some? ==> HeldBetween(db, key, hit.value, w.now, v.now)
  }

  lemma SinceMeansServed<V(!new)>(db: Db<V>, life: Life<V>, w: World<V>, key: string)
    requires Since(db, life, w, key, w.now)
    ensures ServesOnlySince(db, life, w, key)
  {
    forall later | Runs(db, life, w, later)
      ensures var v := After(db, life, w, later); var hit := Hit(v.entries, key, v.now);
              hit.Some? ==> HeldBetween(db, key, hit.value, w.now, v.now)
    {
      RunSince(db, life, w, later, key, w.now);
      var v := After(db, life, w, later);
      assert Hit(v.entries, key, v.now).Some? ==> v.entries[Place(v.entries, key)] in v.entries;
    }
  }

  /** A forget takes effect while no lookup of the key under way has read the table. */
  lemma ForgetTakesEffect<V(!new)>(db: Db<V>, life: Life<V>, start: World<V>, before: seq<Event>, key: string)
    requires start.entries == [] && start.lookups == map[] && Runs(db, life, start, before)
    requires var w := After(db, life, start, before);
             forall id | id in w.lookups && w.lookups[id].key == key :: w.lookups[id].read.None?
    ensures ServesOnlySince(db, life, Apply(db, life, After(db, life, start, before), Forget(key)), key)
  {
    ForgetTakesEffectIff(db, life, start, before, key);
  }

  /** Every lookup of the key under way that could still be served has read what the table holds now. */
  ghost predicate ReadsAreCurrent<V>(db: Db<V>, life: Life<V>, w: World<V>, key: string) {
    forall id | id in w.lookups && w.lookups[id].key == key && Servable(life, w.now, w.lookups[id]) ::
      w.lookups[id].read.value == db(key, w.now)
  }

  lemma CurrentReadsAreSince<V>(db: Db<V>, life: Life<V>, w: World<V>, key: string)
    requires ReadsAreCurrent(db, life, w, key) && forall e | e in w.entries :: e.key != key
    ensures Since(db, life, w, key, w.now)
  {
    forall id | id in w.lookups && w.lookups[id].key == key && Servable(life, w.now, w.lookups[id])
      ensures HeldBetween(db, key, w.lookups[id].read.value, w.now, w.now)
    {
      assert db(key, w.now) == w.lookups[id].read.value;
    }
  }

  lemma OldReadIsServed<V(!new)>(db: Db<V>, life: Life<V>, w: World<V>, id: nat)
    requires DistinctKeys(w.entries) && id in w.lookups && Servable(life, w.now, w.lookups[id])
    requires w.lookups[id].read.value != db(w.lookups[id].key, w.now)
    ensures !ServesOnlySince(db, life, w, w.lookups[id].key)
  {
    FinishServes(db, life, w, id);
    var hit := Hit(After(db, life, w, [Finish(id)]).entries, w.lookups[id].key, w.now);
    assert hit.Some? && !HeldBetween(db, w.lookups[id].key, hit.value, w.now, w.now);
  }

  /**
   * Exactly when a forget takes effect: from every reachable state, a lookup under
   * way that read an older value undoes it.
   */
  lemma ForgetTakesEffectIff<V(!new)>(db: Db<V>, life: Life<V>, start: World<V>, before: seq<Event>, key: string)
    requires start.entries == [] && start.lookups == map[] && Runs(db, life, start, before)
    ensures var w := After(db, life, start, before);
            ServesOnlySince(db, life, Apply(db, life, w, Forget(key)), key) <==> ReadsAreCurrent(db, life, w, key)
  {
    RunInv(db, life, start, before);
    var w := After(db, life, start, before);
    var u := Apply(db, life, w, Forget(key));
    WithoutOk(db, life, w.now, w.entries, key);
    if ReadsAreCurrent(db, life, u, key) {
      CurrentReadsAreSince(db, life, u, key);
      SinceMeansServed(db, life, u, key);
    } else {
      var id :| id in u.lookups && u.lookups[id].key == key && Servable(life, u.now, u.lookups[id])
             && u.lookups[id].read.value != db(key, u.now);
      OldReadIsServed(db, life, u, id);
    }
  }

  /** A lookup that finishes while its value may be served is served next. */
  lemma FinishServes<V(!new)>(db: Db<V>, life: Life<V>, w: World<V>, id: nat)
    requires DistinctKeys(w.entries) && id in w.lookups && Servable(life, w.now, w.lookups[id])
    ensures Runs(db, life, w, [Finish(id)])
    ensures var v := After(db, life, w, [Finish(id)]);
            v.now == w.now && Hit(v.entries, w.lookups[id].key, w.now) == w.lookups[id].read
  {
    var l := w.lookups[id];
    var v := Apply(db, life, w, Finish(id));
    assert [Finish(id)][1..] == [] && Runs(db, life, v, []);
    assert After(db, life, w, [Finish(id)]) == v;
    var room := if |w.entries| >= CACHE_MAX then w.entries[1..] else w.entries;
    StoredIsServed(room, Entry(l.key, l.read.value, l.started + life(l.read.value).value));
  }

  /** With one under way that has read, it can: the lookup stores what it read before the change. */
  lemma RacingLookupOutlivesForget<V>(db: Db<V>, life: Life<V>, key: string, now: int)
    requires var value := db(key, now); life(value).Some? && life(value).value > 0
    ensures var events := [Start(0, key), Read(0), Forget(key), Finish(0)];
            var start := World(now, [], map[]);
            Runs(db, life, start, events) && Hit(After(db, life, start, events).entries, key, now) == Some(db(key, now))
  {
    var value := db(key, now);
    var start: World<V> := World(now, [], map[]);
    var events := [Start(0, key), Read(0), Forget(key), Finish(0)];
    var w1 := Apply(db, life, start, events[0]);
    var w2 := Apply(db, life, w1, Read(0));
    var w3 := Apply(db, life, w2, Forget(key));
    assert w3.entries == [] && w3.lookups[0] == Lookup(key, now, Some(value));
    var w4 := Apply(db, life, w3, Finish(0));
    assert w4.entries == [Entry(key, value, now + life(value).value)];
    assert events[1..] == [Read(0), Forget(key), Finish(0)] && events[1..][1..] == [Forget(key), Finish(0)];
    assert events[1..][1..][1..] == [Finish(0)] && events[1..][1..][1..][1..] == [];
    assert Runs(db, life, w3, [Finish(0)]) && After(db, life, w3, [Finish(0)]) == w4;
    assert Runs(db, life, w2, [Forget(key), Finish(0)]) && After(db, life, w2, [Forget(key), Finish(0)]) == w4;
  }

  // ----- the Map in place -------------------------------------------------------------

  /** A Map holds a key once, and the caches keep it at 1,000 entries. */
  predicate MapOk<V>(entries: seq<Entry<V>>) { DistinctKeys(entries) && |entries| <= CACHE_MAX }

  /** Which entry a hit comes from, when keys are distinct. */
  lemma HitIs<V>(entries: seq<Entry<V>>, i: nat, t: int)
    requires DistinctKeys(entries) && i < |entries|
    ensures Hit(entries, entries[i].key, t) == if t < entries[i].until then Some(entries[i].value) else None
  {
  }

  lemma ForgottenAlone<V>(entries: seq<Entry<V>>, key: string, other: string, t: int)
    requires DistinctKeys(entries) && DistinctKeys(Without(entries, key)) && other != key
    ensures Hit(Without(entries, key), other, t) == Hit(entries, other, t)
  {
    var p, v := Place(entries, key), Without(entries, key);
    var q := Place(entries, other);
    if p < |entries| && q < |entries| {
      HitIs(v, if q < p then q else q - 1, t);
    } else if p < |entries| {
      forall i | 0 <= i < |v| ensures v[i].key != other { assert v[i] == entries[if i < p then i else i + 1]; }
    }
  }

  lemma ForgottenIsGone<V(!new)>(entries: seq<Entry<V>>, key: string)
    requires DistinctKeys(entries)
    ensures DistinctKeys(Without(entries, key))
    ensures forall t: int :: Hit(Without(entries, key), key, t).None?
    ensures forall other, t: int | other != key :: Hit(Without(entries, key), other, t) == Hit(entries, other, t)
  {
    var p, v := Place(entries, key), Without(entries, key);
    if p < |entries| {
      forall i | 0 <= i < |v| ensures v[i] == entries[if i < p then i else i + 1] && v[i].key != key {}
    }
    forall other, t: int | other != key ensures Hit(v, other, t) == Hit(entries, other, t) {
      ForgottenAlone(entries, key, other, t);
    }
  }

  lemma StoredAlone<V>(entries: seq<Entry<V>>, e: Entry<V>, other: string, t: int)
    requires DistinctKeys(entries) && DistinctKeys(With(entries, e)) && other != e.key
    ensures Hit(With(entries, e), other, t) == Hit(entries, other, t)
  {
    var p, v := Place(entries, e.key), With(entries, e);
    var q := Place(entries, other);
    assert forall i | 0 <= i < |entries| && i != p :: v[i] == entries[i];
    if q < |entries| {
      HitIs(v, q, t);
    } else {
      forall i | 0 <= i < |v| ensures v[i].key != other { assert i == p || v[i] == entries[i]; }
    }
  }

  lemma StoredIsServed<V(!new)>(entries: seq<Entry<V>>, e: Entry<V>)
    requires DistinctKeys(entries)
    ensures DistinctKeys(With(entries, e))
    ensures forall t: int :: Hit(With(entries, e), e.key, t) == if t < e.until then Some(e.value) else None
    ensures forall other, t: int | other != e.key :: Hit(With(entries, e), other, t) == Hit(entries, other, t)
  {
    var p, v := Place(entries, e.key), With(entries, e);
    assert forall i | 0 <= i < |entries| && i != p :: v[i] == entries[i];
    assert v[p] == e;
    forall t: int ensures Hit(v, e.key, t) == if t < e.until then Some(e.value) else None { HitIs(v, p, t); }
    forall other, t: int | other != e.key
      ensures Hit(v, other, t) == Hit(entries, other, t)
    {
      StoredAlone(entries, e, other, t);
    }
  }

  /** Storing under a key that is there keeps every place; a new key goes last. */
  predicate KeepsPlaces<V>(before: seq<Entry<V>>, after: seq<Entry<V>>, key: string) {
    && |before| <= |after| && (forall i | 0 <= i < |before| :: after[i].key == before[i].key)
    && (|after| == |before| || (|after| == |before| + 1 && after[|before|].key == key
                                && forall i | 0 <= i < |before| :: before[i].key != key))
  }

  lemma StoringKeepsPlaces<V>(entries: seq<Entry<V>>, e: Entry<V>)
    ensures KeepsPlaces(entries, With(entries, e), e.key)
  {
  }

  lemma EvictedAlone<V(!new)>(entries: seq<Entry<V>>)
    requires DistinctKeys(entries) && entries != []
    ensures DistinctKeys(entries[1..])
    ensures forall other, t: int | other != entries[0].key :: Hit(entries[1..], other, t) == Hit(entries, other, t)
  {
    assert forall i | 0 < i < |entries| :: entries[i] == entries[1..][i - 1];
  }

  /** What another request of the isolate does to the Map while a lookup awaits its read. */
  datatype Other<V> = Stores(lookup: Lookup<V>) | Forgets(key: string)

  class Cache<V(!new)> {
    var entries: seq<Entry<V>>

    constructor ()
      ensures entries == []
    {
      entries := [];
    }

    /** The start of a lookup: it answers the key's value while that may still be served. */
    method Get(key: string, now: int) returns (hit: Option<V>)
      requires MapOk(entries)
      ensures hit == Hit(entries, key, now)
      ensures hit.None? <==> forall e | e in entries && e.key == key :: e.until <= now
    {
      var p := Place(entries, key);
      if p < |entries| && entries[p].until > now {
        return Some(entries[p].value);
      }
      hit := None;
    }

    /**
     * Its end, with what the table answered: served from now on for the
     * lifetime counted from its start, or not at all; nobody else's value
     * changes, but the oldest may go.
     */
    method Keep(key: string, value: V, life: Option<int>, started: int)
      requires MapOk(entries)
      modifies this
      ensures MapOk(entries) && entries == Kept(old(entries), key, value, life, started)
      ensures forall t: int ::
                Hit(entries, key, t) == if life.Some? && t < started + life.value then Some(value) else None
      ensures forall other, t: int | other != key ::
                || Hit(entries, other, t) == Hit(old(entries), other, t)
                || (life.Some? && |old(entries)| == CACHE_MAX && other == old(entries)[0].key)
      ensures life.Some? ==>
                KeepsPlaces(if |old(entries)| == 1_000 then old(entries)[1..] else old(entries), entries, key)
    {
      if life.Some? {
        if |entries| >= CACHE_MAX {
          EvictedAlone(entries);
          entries := entries[1..];
        }
        StoredIsServed(entries, Entry(key, value, started + life.value));
        StoringKeepsPlaces(entries, Entry(key, value, started + life.value));
        entries := With(entries, Entry(key, value, started + life.value));
      } else {
        Forget(key);
      }
    }

    /** The key is served no more, and every other key as before. */
    method Forget(key: string)
      requires MapOk(entries)
      modifies this
      ensures MapOk(entries) && entries == Without(old(entries), key)
      ensures forall t: int :: Hit(entries, key, t).None?
      ensures forall other, t: int | other != key :: Hit(entries, other, t) == Hit(old(entries), other, t)
    {
      ForgottenIsGone(entries, key);
      entries := Without(entries, key);
    }

    /** Other requests' stores and forgets, in their order. */
    method Meanwhile(db: Db<V>, life: Life<V>, now: int, others: seq<Other<V>>)
      requires EntriesOk(db, life, now, entries)
      requires forall o | o in others && o.Stores? :: LookupOk(db, now, o.lookup) && o.lookup.read.Some?
      modifies this
      ensures EntriesOk(db, life, now, entries)
    {
      for i := 0 to |others|
        invariant EntriesOk(db, life, now, entries)
      {
        match others[i]
        case Stores(l) =>
          assert others[i] in others;
          KeptOk(db, life, now, entries, l);
          Keep(l.key, l.read.value, life(l.read.value), l.started);
        case Forgets(key) =>
          WithoutOk(db, life, now, entries, key);
          Forget(key);
      }
    }

    /**
     * A whole lookup: started and answered from the Map, or read from the table
     * at `readAt` and stored at `done`, other requests in between. Its answer
     * was in the table since it started, or within its lifetime before; and
     * what it read is what is served next.
     */
    method Find(db: Db<V>, life: Life<V>, key: string, started: int, readAt: int, done: int, others: seq<Other<V>>)
      returns (answer: V)
      requires started <= readAt <= done && EntriesOk(db, life, started, entries)
      requires forall o | o in others && o.Stores? :: LookupOk(db, done, o.lookup) && o.lookup.read.Some?
      modifies this
      ensures EntriesOk(db, life, done, entries)
      ensures var hit := Hit(old(entries), key, started);
              if hit.Some? then entries == old(entries) && answer == hit.value else answer == db(key, readAt)
      ensures || HeldBetween(db, key, answer, started, done)
              || (life(answer).Some? && HeldWithin(db, key, answer, started, life(answer).value))
      ensures Hit(old(entries), key, started).None? ==>
                forall t: int ::
                  Hit(entries, key, t) ==
                  if life(answer).Some? && t < started + life(answer).value then Some(answer) else None
    {
      LaterOk(db, life, started, entries, done);
      var hit := Get(key, started);
      if hit.Some? {
        HitIsRecent(db, life, started, entries, key);
        return hit.value;
      }
      answer := db(key, readAt);
      assert HeldBetween(db, key, answer, started, done);
      Meanwhile(db, life, done, others);
      KeptOk(db, life, done, entries, Lookup(key, started, Some(answer)));
      Keep(key, answer, life(answer), started);
    }
  }

  /** A tenant by its slug: one still being set up, and only a cached one can be old, comes from the table itself. */
  method CachedTenantBySlug(cache: Cache<Option<Tenant>>, db: Db<Option<Tenant>>, slug: string, started: int,
                            readAt: int, done: int,
                            others: seq<Other<Option<Tenant>>>) returns (tenant: Option<Tenant>)
    requires started <= readAt <= done && EntriesOk(db, TenantLife, started, cache.entries)
    requires forall o | o in others && o.Stores? :: LookupOk(db, done, o.lookup) && o.lookup.read.Some?
    modifies cache
    ensures EntriesOk(db, TenantLife, done, cache.entries)
    ensures || HeldBetween(db, slug, tenant, started, done)
            || HeldWithin(db, slug, tenant, started, if tenant.Some? then 30_000 else 5_000)
    ensures tenant.Some? && !tenant.value.ready ==>
              HeldBetween(db, slug, tenant, started, done) && forall t: int :: Hit(cache.entries, slug, t).None?
    ensures Hit(old(cache.entries), slug, started).None? ==>
              tenant == db(slug, readAt)
              && forall t: int ::
                   Hit(cache.entries, slug, t) ==
                   if (tenant.None? && t < started + 5_000)
                      || (tenant.Some? && tenant.value.ready && t < started + 30_000)
                   then Some(tenant) else None
    ensures Hit(old(cache.entries), slug, started).Some? ==>
              cache.entries == old(cache.entries) && Some(tenant) == Hit(old(cache.entries), slug, started)
  {
    tenant := cache.Find(db, TenantLife, slug, started, readAt, done, others);
    if tenant.Some? && !tenant.value.ready {
      if Hit(old(cache.entries), slug, started).Some? {
        HitIsRecent(db, TenantLife, started, old(cache.entries), slug);
      }
      assert db(slug, readAt) == tenant;
    }
  }

  /** A tenant's call keys, or that it has none. */
  method TenantCallKeys(cache: Cache<Option<CallKeys>>, db: Db<Option<CallKeys>>, tenantId: string, started: int,
                        readAt: int, done: int,
                        others: seq<Other<Option<CallKeys>>>) returns (keys: Option<CallKeys>)
    requires started <= readAt <= done && EntriesOk(db, KeysLife, started, cache.entries)
    requires forall o | o in others && o.Stores? :: LookupOk(db, done, o.lookup) && o.lookup.read.Some?
    modifies cache
    ensures EntriesOk(db, KeysLife, done, cache.entries)
    ensures || HeldBetween(db, tenantId, keys, started, done)
            || HeldWithin(db, tenantId, keys, started, if keys.Some? then 30_000 else 60_000)
    ensures Hit(old(cache.entries), tenantId, started).None? ==>
              keys == db(tenantId, readAt)
              && forall t: int ::
                   Hit(cache.entries, tenantId, t) ==
                   if t < started + (if keys.Some? then 30_000 else 60_000) then Some(keys) else None
    ensures Hit(old(cache.entries), tenantId, started).Some? ==>
              cache.entries == old(cache.entries) && Some(keys) == Hit(old(cache.entries), tenantId, started)
  {
    keys := cache.Find(db, KeysLife, tenantId, started, readAt, done, others);
  }
}
