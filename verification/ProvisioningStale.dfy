/**
 * Two runs of the provisioning protocol in which a run outlives its lease
 * (platform/src/provisioning.ts, addresses.ts, keys.ts): its intent to attach
 * is marked over somebody else's domain, and its call secret is stored after
 * the tenant was erased. Neither statement names the run's lease token.
 */
module ProvisioningStale {
  import opened Common
  import opened Provisioning

  const KEY := 7
  const SECRET := 9
  const SERVICE := 1

  /** A world with one run, and nobody else's domain. */
  function With(row: Row, key: Option<int>, secret: Option<int>, databases: seq<nat>, script: Option<int>,
                nextId: nat, run: Run): World
  {
    World(0, Some(row), key, secret, databases, script, None, SERVICE, nextId, map[0 := run])
  }

  function Held(state: ProvisionState, d1Id: Option<nat>): Row {
    Row(state, 0, false, None, Some(LEASE_MS), Some(0), d1Id, NoDomain)
  }

  const Start: World :=
    World(0, Some(Row(Requested, 0, false, None, None, None, None, NoDomain)), None, None, [], None, None, SERVICE,
        0, map[])

  const First: Loaded := Loaded(Requested, 0, None, NoDomain)
  const Second: Loaded := Loaded(DbCreated, 0, Some(1), NoDomain)

  /** The world while the first step runs, and the key is escrowed or not. */
  function Creating(key: Option<int>, pc: Pc, obtained: Option<int>): World {
    With(Held(Requested, None), key, None, [], None, 1, Run(pc, First, obtained, 1))
  }

  lemma KeyMissing()
    ensures Leads(Start, Creating(None, InsertingKey, None))
  {
    var w1 := With(Held(Requested, None), None, None, [], None, 1, Run(Renewing, First, None, 0));
    var w2 := With(Held(Requested, None), None, None, [], None, 1, Run(Loading, First, None, 0));
    LeadsHere(Start);
    LeadsOn(Start, Start, Acquire(0, false), w1);
    LeadsOn(Start, w1, Renew(0), w2);
    LeadsOn(Start, w2, Load(0), Creating(None, ReadingKey, None));
    LeadsOn(Start, Creating(None, ReadingKey, None), ReadKey(0), Creating(None, InsertingKey, None));
  }

  lemma KeyObtained()
    ensures Leads(Start, Creating(Some(KEY), CreatingDb, Some(KEY)))
  {
    KeyMissing();
    LeadsOn(Start, Creating(None, InsertingKey, None), InsertKey(0, KEY), Creating(Some(KEY), RereadingKey, None));
    LeadsOn(Start, Creating(Some(KEY), RereadingKey, None), RereadKey(0), Creating(Some(KEY), FindingDb, Some(KEY)));
    LeadsOn(Start, Creating(Some(KEY), FindingDb, Some(KEY)), FindDb(0), Creating(Some(KEY), CreatingDb, Some(KEY)));
  }

  /** The database is made, and about to be recorded. */
  const Created: World :=
    With(Held(Requested, None), Some(KEY), None, [1], None, 2, Run(Advancing(Some(1), None), First, Some(KEY), 1))

  lemma DatabaseCreated()
    ensures Leads(Start, Created)
  {
    KeyObtained();
    assert [] + [1] == [1];
    LeadsOn(Start, Creating(Some(KEY), CreatingDb, Some(KEY)), CreateDb(0, true), Created);
  }

  lemma DatabaseRecorded()
    ensures Leads(Start, With(Held(DbCreated, Some(1)), Some(KEY), None, [1], None, 2,
            Run(Renewing, First, Some(KEY), 1)))
  {
    DatabaseCreated();
    LeadsOn(Start, Created, Advance(0, false),
            With(Held(DbCreated, Some(1)), Some(KEY), None, [1], None, 2, Run(Renewing, First, Some(KEY), 1)));
  }

  /** Where a run may stall and still store the call secret: at its script's deletion, and right after. */
  predicate BeforeStoring(pc: Pc) { pc == CleaningScript || pc == EnsuringSecret }

  function Stalled(pc: Pc): World {
    With(Held(DbCreated, Some(1)), Some(KEY), None, [1], None, 2, Run(pc, Second, Some(KEY), 2))
  }

  lemma StalledReached(pc: Pc)
    requires BeforeStoring(pc)
    ensures Leads(Start, Stalled(pc))
  {
    var row := Held(DbCreated, Some(1));
    var w1 := With(row, Some(KEY), None, [1], None, 2, Run(Renewing, First, Some(KEY), 1));
    var w2 := With(row, Some(KEY), None, [1], None, 2, Run(Loading, First, Some(KEY), 1));
    var w3 := With(row, Some(KEY), None, [1], None, 2, Run(ReadingKey, Second, None, 2));
    DatabaseRecorded();
    LeadsOn(Start, w1, Renew(0), w2);
    LeadsOn(Start, w2, Load(0), w3);
    LeadsOn(Start, w3, ReadKey(0), Stalled(CleaningScript));
    LeadsOn(Start, Stalled(CleaningScript), CleanScript(0, true), Stalled(EnsuringSecret));
  }

  /** The world between storing the call secret and attaching. */
  function Uploading(script: Option<int>, pc: Pc): World {
    With(Held(DbCreated, Some(1)), Some(KEY), Some(SECRET), [1], script, 2, Run(pc, Second, Some(KEY), 2))
  }

  lemma NoDomainFound()
    ensures Leads(Start, Uploading(Some(KEY), CheckingDns))
  {
    StalledReached(EnsuringSecret);
    LeadsOn(Start, Stalled(EnsuringSecret), EnsureSecret(0, SECRET), Uploading(None, UploadingScript));
    LeadsOn(Start, Uploading(None, UploadingScript), Upload(0, true), Uploading(Some(KEY), FindingDomain));
    LeadsOn(Start, Uploading(Some(KEY), FindingDomain), FindDomain(0), Uploading(Some(KEY), CheckingDns));
  }

  /** The run stalls before its intent to attach, and its lease ends. */
  const Late: World := Uploading(Some(KEY), MarkingPending).(now := LEASE_MS)

  lemma LeaseEnds()
    ensures Leads(Start, Late)
  {
    NoDomainFound();
    LeadsOn(Start, Uploading(Some(KEY), CheckingDns), CheckDns(0, false), Uploading(Some(KEY), MarkingPending));
    LeadsOn(Start, Uploading(Some(KEY), MarkingPending), Time(LEASE_MS), Late);
  }

  /** Somebody maps the hostname to the same Worker, and the stalled run may mark its intent over it. */
  lemma StaleMarkIsReached() returns (w: World)
    ensures Initial(Start) && Leads(Start, w) && Enabled(w, MarkPending(0)) && !Careful(w, MarkPending(0))
  {
    LeaseEnds();
    w := DoForeignMaps(Late, SERVICE);
    LeadsOn(Start, Late, ForeignMaps(SERVICE), w);
  }

  /** The tenant is being removed by a second run, the first still at `stale`. */
  function Removing(databases: seq<nat>, pc: Pc, stale: Pc): World {
    World(LEASE_MS, Some(Row(Deleting, 0, false, None, Some(2 * LEASE_MS), Some(2), Some(1), NoDomain)), Some(KEY),
        None, databases, None,
          None, SERVICE, 3,
          map[0 := Run(stale, Second, Some(KEY), 2),
              2 := Run(pc, Loaded(Deleting, 0, Some(1), NoDomain), None, 1)])
  }

  /** Marked for removal while the run stalls, its lease just over. */
  function Marked(stale: Pc): World {
    Stalled(stale).(now := LEASE_MS,
        row := Some(Row(Deleting, 0, false, None, Some(LEASE_MS), Some(0), Some(1), NoDomain)))
  }

  lemma MarkedForTeardown(stale: Pc)
    requires BeforeStoring(stale)
    ensures Leads(Start, Marked(stale))
  {
    StalledReached(stale);
    LeadsOn(Start, Stalled(stale), MarkForRemoval(false), Marked(stale).(now := 0));
    LeadsOn(Start, Marked(stale).(now := 0), Time(LEASE_MS), Marked(stale));
  }

  /** The second run before it loads the row. */
  function Beginning(pc: Pc, stale: Pc): World {
    Removing([1], Leaving, stale)
        .(runs := Stalled(stale).runs[2 := Run(pc, Loaded(Requested, 0, None, NoDomain), None, 0)])
  }

  lemma RemovalStarts(stale: Pc)
    requires BeforeStoring(stale)
    ensures Leads(Start, Removing([1], FindingOwnDomain, stale))
  {
    MarkedForTeardown(stale);
    LeadsOn(Start, Marked(stale), Acquire(2, false), Beginning(Renewing, stale));
    LeadsOn(Start, Beginning(Renewing, stale), Renew(2), Beginning(Loading, stale));
    LeadsOn(Start, Beginning(Loading, stale), Load(2), Removing([1], FindingOwnDomain, stale));
  }

  lemma ScriptDeleted(stale: Pc)
    requires BeforeStoring(stale)
    ensures Leads(Start, Removing([1], FindingOwnDb, stale))
  {
    RemovalStarts(stale);
    LeadsOn(Start, Removing([1], FindingOwnDomain, stale), FindOwnDomain(2), Removing([1], DeletingScript, stale));
    LeadsOn(Start, Removing([1], DeletingScript, stale), DeleteScript(2, true), Removing([1], FindingOwnDb, stale));
  }

  lemma DatabaseDeleted(stale: Pc)
    requires BeforeStoring(stale)
    ensures Leads(Start, Removing([], Erasing, stale))
  {
    ScriptDeleted(stale);
    LeadsOn(Start, Removing([1], FindingOwnDb, stale), FindOwnDb(2), Removing([1], DeletingDb(1), stale));
    assert [1][..0] == [] && WithoutDb([], 1) == [] && WithoutDb([1], 1) == [];
    LeadsOn(Start, Removing([1], DeletingDb(1), stale), DeleteDb(2, true), Removing([], Erasing, stale));
  }

  /**
   * Its teardown erases everything there is, the first run still about to store
   * the call secret, or still at the deletion of its script before that.
   */
  lemma StaleSecretIsReached(stale: Pc) returns (w: World)
    requires BeforeStoring(stale)
    ensures Initial(Start) && Leads(Start, w) && w.row.None? && w.secret.None? && At(w, 0, stale) && !NoneStoring(w)
  {
    DatabaseDeleted(stale);
    w := DoErase(Removing([], Erasing, stale), 2);
    LeadsOn(Start, Removing([], Erasing, stale), Erase(2), w);
    assert 0 in w.runs && w.runs[0].pc == stale;
  }
}
