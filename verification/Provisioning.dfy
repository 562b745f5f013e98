/**
 * Provisioning and tearing down one tenant (platform/src/provisioning.ts,
 * addresses.ts, keys.ts), as a state machine over the tenant's row, its keys
 * and what it has at Cloudflare. Every SQL statement and every API call is one
 * step; runs, removals, pauses and the clock interleave freely, an API call's
 * answer may be lost after it took effect, and a run may die anywhere.
 *
 * Environment the code relies on, written into the guards:
 *   - a run's API calls change something only while its lease lasts (`Live`);
 *     its reads, its SQL statements and its deletes of what is already gone,
 *     which succeed, may land at any time later;
 *   - nobody else maps the tenant's hostname while its attach is under way
 *     (`ForeignMaps`); at any other time anybody may map or unmap it.
 * The tenant's addresses are Custom Domains; it runs in one runtime throughout.
 */
module Provisioning {
  import opened Common

  const MAX_ATTEMPTS: nat := 6
  const LEASE_MS: int := 2 * 60_000

  datatype ProvisionState = Requested | DbCreated | Uploaded | Migrated | Ready | Deleting

  /** tenants.custom_domain_id: null, the intent marker, or a domain's id. */
  datatype DomainColumn = NoDomain | Pending | Recorded(id: nat)

  /** The tenant row's provisioning columns. */
  datatype Row = Row(
    state: ProvisionState, attempts: nat, paused: bool, nextAt: Option<int>,
    leaseUntil: Option<int>, token: Option<nat>, d1Id: Option<nat>, domain: DomainColumn)

  // ----- the statements -----------------------------------------------------

  function BackoffMs(attempts: nat): int {
    if attempts <= 1 then 10_000
    else if attempts == 2 then 30_000
    else if attempts == 3 then 120_000
    else if attempts == 4 then 600_000
    else 1_800_000
  }

  function Next(s: ProvisionState): ProvisionState {
    match s case Requested => DbCreated case DbCreated => Uploaded case Uploaded => Migrated case _ => Ready
  }

  predicate AcquireMatches(r: Row, now: int, force: bool) {
    && r.state != Ready && !r.paused
    && (r.leaseUntil.None? || r.leaseUntil.value <= now)
    && (force || r.nextAt.None? || r.nextAt.value <= now)
  }

  function Acquired(r: Row, token: nat, now: int): Row { r.(leaseUntil := Some(now + LEASE_MS), token := Some(token)) }

  function Renewed(r: Row, token: nat, now: int): Row {
    if r.token == Some(token) then r.(leaseUntil := Some(now + LEASE_MS)) else r
  }

  function Released(r: Row, token: nat): Row {
    if r.token == Some(token) then r.(leaseUntil := None, token := None) else r
  }

  /** `advance`: only from the state the step started in, only by the run that holds the lease. */
  function Advanced(r: Row, token: nat, from: ProvisionState, d1Id: Option<nat>, domain: Option<nat>): Row {
    if r.token == Some(token) && r.state == from then
      r.(state := Next(from), attempts := 0, nextAt := None,
         d1Id := if d1Id.Some? then d1Id else r.d1Id,
         domain := if domain.Some? then Recorded(domain.value) else r.domain)
    else r
  }

  predicate Pauses(state: ProvisionState, attempts: nat, permanent: bool) {
    state != Deleting && (permanent || attempts >= MAX_ATTEMPTS)
  }

  function FailureRecorded(r: Row, token: nat, from: ProvisionState, attemptsBefore: nat, permanent: bool,
                           now: int): Row
  {
    if r.token == Some(token) && r.state == from then
      var attempts := attemptsBefore + 1;
      var pause := Pauses(from, attempts, permanent);
      r.(attempts := attempts, nextAt := if pause then None else Some(now + BackoffMs(attempts)), paused := pause)
    else r
  }

  function Unpaused(r: Row): Row { if r.paused then r.(paused := false, attempts := 0, nextAt := None) else r }

  function MarkedForRemoval(r: Row, onlyIfPaused: bool): Row {
    if !onlyIfPaused || (r.paused && r.state != Ready)
    then r.(state := Deleting, attempts := 0, nextAt := None, paused := false) else r
  }

  // ----- the world -----------------------------------------------------------

  /** A Custom Domain at the tenant's hostname; `mine` when one of its own runs attached it. */
  datatype Domain = Domain(id: nat, service: int, mine: bool)

  /** What a run read of the row at the start of its step. */
  datatype Loaded = Loaded(state: ProvisionState, attempts: nat, d1Id: Option<nat>, domain: DomainColumn)

  /** Where a run is: what it does next. */
  datatype Pc =
    | Renewing | Loading
    | ReadingKey | InsertingKey | RereadingKey
    | FindingDb | CreatingDb | RefindingDb
    | CleaningScript | EnsuringSecret | UploadingScript | FindingDomain | CheckingDns | MarkingPending | Attaching
    | CallingTenant
    | Advancing(d1Id: Option<nat>, domain: Option<nat>)
    | Failing(permanent: bool)
    | FindingOwnDomain | Detaching(id: nat) | DeletingScript | FindingOwnDb | DeletingDb(id: nat) | Erasing
    | Leaving

  /** One runProvisioning: its step's snapshot, the key it obtained, and how many steps it has loaded. */
  datatype Run = Run(pc: Pc, t: Loaded, key: Option<int>, loads: nat)

  datatype World = World(
    now: int,
    row: Option<Row>,
    key: Option<int>,
    secret: Option<int>,
    databases: seq<nat>,
    script: Option<int>,
    domain: Option<Domain>,
    service: int,
    nextId: nat,
    runs: map<nat, Run>)

  datatype Event =
    | Time(to: int)
    | Acquire(run: nat, force: bool)
    | Renew(run: nat)
    | Load(run: nat)
    | ReadKey(run: nat)
    | InsertKey(run: nat, candidate: int)
    | RereadKey(run: nat)
    | FindDb(run: nat)
    | CreateDb(run: nat, answered: bool)
    | CreateRefused(run: nat)
    | RefindDb(run: nat)
    | CleanScript(run: nat, answered: bool)
    | EnsureSecret(run: nat, candidate: int)
    | Upload(run: nat, answered: bool)
    | FindDomain(run: nat)
    | CheckDns(run: nat, found: bool)
    | MarkPending(run: nat)
    | Attach(run: nat, answered: bool)
    | CallTenant(run: nat)
    | Advance(run: nat, auditFails: bool)
    | StepFails(run: nat, permanent: bool)
    | RecordFailure(run: nat)
    | FindOwnDomain(run: nat)
    | Detach(run: nat, answered: bool)
    | DeleteScript(run: nat, answered: bool)
    | FindOwnDb(run: nat)
    | DeleteDb(run: nat, answered: bool)
    | Erase(run: nat)
    | Release(run: nat)
    | Dies(run: nat)
    | MarkForRemoval(onlyIfPaused: bool)
    | Unpause
    | ForeignMaps(byService: int)
    | Unmaps

  predicate Holds(w: World, k: nat) { w.row.Some? && w.row.value.token == Some(k) && k in w.runs }

  predicate Live(w: World, k: nat) {
    Holds(w, k) && w.row.value.leaseUntil.Some? && w.now < w.row.value.leaseUntil.value
  }

  predicate DomainIs(w: World, id: nat) { w.domain.Some? && w.domain.value.id == id }

  predicate At(w: World, k: nat, pc: Pc) { k in w.runs && w.runs[k].pc == pc }

  predicate InAttachWindow(pc: Pc) { pc == CheckingDns || pc == MarkingPending || pc == Attaching }

  predicate AttachUnderWay(w: World) {
    w.row.Some? &&
    (w.row.value.domain == Pending
     || (w.row.value.token.Some? && Live(w, w.row.value.token.value)
         && InAttachWindow(w.runs[w.row.value.token.value].pc)))
  }

  predicate InStep(pc: Pc) { !(pc == Renewing || pc == Loading || pc.Failing? || pc == Leaving || pc.Advancing?) }

  ghost predicate Enabled(w: World, e: Event) {
    match e
    case Time(to) => w.now <= to
    case Acquire(k, force) => w.row.Some? && k !in w.runs && k >= w.nextId && AcquireMatches(w.row.value, w.now, force)
    case Renew(k) => At(w, k, Renewing)
    case Load(k) => At(w, k, Loading)
    case ReadKey(k) => At(w, k, ReadingKey)
    case InsertKey(k, _) => At(w, k, InsertingKey)
    case RereadKey(k) => At(w, k, RereadingKey)
    case FindDb(k) => At(w, k, FindingDb)
    case CreateDb(k, _) => At(w, k, CreatingDb) && Live(w, k)
    case CreateRefused(k) => At(w, k, CreatingDb)
    case RefindDb(k) => At(w, k, RefindingDb)
    case CleanScript(k, _) => At(w, k, CleaningScript) && (Live(w, k) || w.script.None?)
    case EnsureSecret(k, _) => At(w, k, EnsuringSecret)
    case Upload(k, _) => At(w, k, UploadingScript) && Live(w, k)
    case FindDomain(k) => At(w, k, FindingDomain)
    case CheckDns(k, _) => At(w, k, CheckingDns)
    case MarkPending(k) => At(w, k, MarkingPending)
    case Attach(k, _) => At(w, k, Attaching) && Live(w, k)
    case CallTenant(k) => At(w, k, CallingTenant)
    case Advance(k, _) => k in w.runs && w.runs[k].pc.Advancing?
    case StepFails(k, _) => k in w.runs && InStep(w.runs[k].pc)
    case RecordFailure(k) => k in w.runs && w.runs[k].pc.Failing?
    case FindOwnDomain(k) => At(w, k, FindingOwnDomain)
    case Detach(k, _) => k in w.runs && w.runs[k].pc.Detaching? && (Live(w, k) || !DomainIs(w, w.runs[k].pc.id))
    case DeleteScript(k, _) => At(w, k, DeletingScript) && (Live(w, k) || w.script.None?)
    case FindOwnDb(k) => At(w, k, FindingOwnDb)
    case DeleteDb(k, _) => k in w.runs && w.runs[k].pc.DeletingDb? && (Live(w, k) || w.runs[k].pc.id !in w.databases)
    case Erase(k) => At(w, k, Erasing)
    case Release(k) => At(w, k, Leaving)
    case Dies(k) => k in w.runs
    case MarkForRemoval(_) => w.row.Some?
    case Unpause => w.row.Some?
    case ForeignMaps(_) => w.domain.None? && !AttachUnderWay(w)
    case Unmaps => w.domain.Some?
  }

  /** Where a loaded step starts. */
  function FirstPc(t: Loaded): Pc {
    match t.state
    case Requested => ReadingKey
    case DbCreated => if t.d1Id.None? then Failing(true) else ReadingKey
    case Uploaded => CallingTenant
    case Migrated => CallingTenant
    case Ready => Leaving
    case Deleting => FindingOwnDomain
  }

  function AfterKey(t: Loaded): Pc { if t.state == Requested then FindingDb else CleaningScript }

  function Goto(w: World, k: nat, pc: Pc): World
    requires k in w.runs
  {
    w.(runs := w.runs[k := w.runs[k].(pc := pc)])
  }

  function Obtain(w: World, k: nat): World
    requires k in w.runs
  {
    if w.key.Some? then w.(runs := w.runs[k := w.runs[k].(pc := AfterKey(w.runs[k].t), key := w.key)])
    else Goto(w, k, Failing(false))
  }

  /** Looking a database up by name: the API answers one of that name, if any. */
  function FoundDb(databases: seq<nat>): Option<nat> { if databases == [] then None else Some(databases[0]) }

  function WithoutDb(databases: seq<nat>, id: nat): seq<nat> {
    if databases == [] then []
    else WithoutDb(databases[..|databases| - 1], id)
         + (if databases[|databases| - 1] == id then [] else [databases[|databases| - 1]])
  }

  // ----- the steps ---------------------------------------------------------

  function DoAcquire(w: World, k: nat): World
    requires w.row.Some?
  {
    w.(row := Some(Acquired(w.row.value, k, w.now)), nextId := k + 1,
       runs := w.runs[k := Run(Renewing, Loaded(Requested, 0, None, NoDomain), None, 0)])
  }

  function DoRenew(w: World, k: nat): World
    requires k in w.runs
  {
    if Holds(w, k) then Goto(w.(row := Some(Renewed(w.row.value, k, w.now))), k, Loading) else Goto(w, k, Leaving)
  }

  function DoLoad(w: World, k: nat): World
    requires k in w.runs
  {
    if w.row.None? then Goto(w, k, Leaving)
    else
      var r := w.row.value;
      var t := Loaded(r.state, r.attempts, r.d1Id, r.domain);
      w.(runs := w.runs[k := Run(FirstPc(t), t, None, w.runs[k].loads + 1)])
  }

  /** The foreign key refuses a key once the row is gone; a key already there stays (ON CONFLICT DO NOTHING). */
  function DoInsertKey(w: World, k: nat, candidate: int): World
    requires k in w.runs
  {
    if w.row.None? then Goto(w, k, Failing(false))
    else Goto(if w.key.None? then w.(key := Some(candidate)) else w, k, RereadingKey)
  }

  function DoFindDb(w: World, k: nat, otherwise: Pc): World
    requires k in w.runs
  {
    Goto(w, k, if FoundDb(w.databases).Some? then Advancing(FoundDb(w.databases), None) else otherwise)
  }

  function DoCreateDb(w: World, k: nat, answered: bool): World
    requires k in w.runs
  {
    Goto(w.(databases := w.databases + [w.nextId], nextId := w.nextId + 1), k,
         if answered then Advancing(Some(w.nextId), None) else RefindingDb)
  }

  /** No foreign key ties a call secret to its tenant: the insert lands even after the row is gone. */
  function DoEnsureSecret(w: World, k: nat, candidate: int): World
    requires k in w.runs
  {
    Goto(if w.secret.None? then w.(secret := Some(candidate)) else w, k, UploadingScript)
  }

  function DoSetScript(w: World, k: nat, script: Option<int>, then_: Pc): World
    requires k in w.runs
  {
    Goto(w.(script := script), k, then_)
  }

  /**
   * An existing domain is kept only when its id is the recorded one, or an attach
   * was under way, and it routes here.
   */
  function DoFindDomain(w: World, k: nat): World
    requires k in w.runs
  {
    if w.domain.None? then Goto(w, k, CheckingDns)
    else
      var d := w.domain.value;
      var recorded := w.runs[k].t.domain;
      if !(recorded == Recorded(d.id) || recorded == Pending) || d.service != w.service then Goto(w, k, Failing(true))
      else Goto(w, k, Advancing(None, Some(d.id)))
  }

  /** The statement names the tenant only: it marks the row whoever holds it. */
  function DoMarkPending(w: World, k: nat): World
    requires k in w.runs
  {
    Goto(if w.row.Some? then w.(row := Some(w.row.value.(domain := Pending))) else w, k, Attaching)
  }

  function DoAttach(w: World, k: nat, answered: bool): World
    requires k in w.runs
  {
    Goto(w.(domain := Some(Domain(w.nextId, w.service, true)), nextId := w.nextId + 1), k,
         if answered then Advancing(None, Some(w.nextId)) else Failing(false))
  }

  function DoAdvance(w: World, k: nat, auditFails: bool): World
    requires k in w.runs && w.runs[k].pc.Advancing?
  {
    var r := w.runs[k];
    var row := if w.row.Some? then Some(Advanced(w.row.value, k, r.t.state, r.pc.d1Id, r.pc.domain)) else None;
    Goto(w.(row := row), k, if auditFails then Failing(false) else Renewing)
  }

  function DoRecordFailure(w: World, k: nat): World
    requires k in w.runs && w.runs[k].pc.Failing?
  {
    var r := w.runs[k];
    var row :=
      if w.row.Some? then Some(FailureRecorded(w.row.value, k, r.t.state, r.t.attempts, r.pc.permanent, w.now))
      else None;
    Goto(w.(row := row), k, Leaving)
  }

  function DoFindOwnDomain(w: World, k: nat): World
    requires k in w.runs
  {
    var recorded := w.runs[k].t.domain;
    if recorded.NoDomain? then Goto(w, k, DeletingScript)
    else if recorded.Recorded? then Goto(w, k, Detaching(recorded.id))
    else if w.domain.Some? && w.domain.value.service == w.service then Goto(w, k, Detaching(w.domain.value.id))
    else Goto(w, k, DeletingScript)
  }

  function DoDetach(w: World, k: nat, answered: bool): World
    requires k in w.runs && w.runs[k].pc.Detaching?
  {
    var id := w.runs[k].pc.id;
    var v := if DomainIs(w, id) then w.(domain := None) else w;
    Goto(v, k, if answered then DeletingScript else Failing(false))
  }

  function DoFindOwnDb(w: World, k: nat): World
    requires k in w.runs
  {
    var id := if w.runs[k].t.d1Id.Some? then w.runs[k].t.d1Id else FoundDb(w.databases);
    Goto(w, k, if id.Some? then DeletingDb(id.value) else Erasing)
  }

  function DoDeleteDb(w: World, k: nat, answered: bool): World
    requires k in w.runs && w.runs[k].pc.DeletingDb?
  {
    Goto(w.(databases := WithoutDb(w.databases, w.runs[k].pc.id)), k, if answered then Erasing else Failing(false))
  }

  /** The final batch, all of it guarded by the run's lease. */
  function DoErase(w: World, k: nat): World
    requires k in w.runs
  {
    Goto(if Holds(w, k) then w.(row := None, key := None, secret := None) else w, k, Leaving)
  }

  function DoRelease(w: World, k: nat): World {
    w.(row := if w.row.Some? then Some(Released(w.row.value, k)) else None, runs := w.runs - {k})
  }

  function DoForeignMaps(w: World, byService: int): World {
    w.(domain := Some(Domain(w.nextId, byService, false)), nextId := w.nextId + 1)
  }

  ghost function Apply(w: World, e: Event): World
    requires Enabled(w, e)
  {
    match e
    case Time(to) => w.(now := to)
    case Acquire(k, _) => DoAcquire(w, k)
    case Renew(k) => DoRenew(w, k)
    case Load(k) => DoLoad(w, k)
    case ReadKey(k) => if w.key.Some? then Obtain(w, k) else Goto(w, k, InsertingKey)
    case InsertKey(k, candidate) => DoInsertKey(w, k, candidate)
    case RereadKey(k) => Obtain(w, k)
    case FindDb(k) => DoFindDb(w, k, CreatingDb)
    case CreateDb(k, answered) => DoCreateDb(w, k, answered)
    case CreateRefused(k) => Goto(w, k, RefindingDb)
    case RefindDb(k) => DoFindDb(w, k, Failing(false))
    case CleanScript(k, answered) => DoSetScript(w, k, None, if answered then EnsuringSecret else Failing(false))
    case EnsureSecret(k, candidate) => DoEnsureSecret(w, k, candidate)
    case Upload(k, answered) => DoSetScript(w, k, w.runs[k].key, if answered then FindingDomain else Failing(false))
    case FindDomain(k) => DoFindDomain(w, k)
    case CheckDns(k, found) => Goto(w, k, if found then Failing(true) else MarkingPending)
    case MarkPending(k) => DoMarkPending(w, k)
    case Attach(k, answered) => DoAttach(w, k, answered)
    case CallTenant(k) => Goto(w, k, Advancing(None, None))
    case Advance(k, auditFails) => DoAdvance(w, k, auditFails)
    case StepFails(k, permanent) => Goto(w, k, Failing(permanent))
    case RecordFailure(k) => DoRecordFailure(w, k)
    case FindOwnDomain(k) => DoFindOwnDomain(w, k)
    case Detach(k, answered) => DoDetach(w, k, answered)
    case DeleteScript(k, answered) => DoSetScript(w, k, None, if answered then FindingOwnDb else Failing(false))
    case FindOwnDb(k) => DoFindOwnDb(w, k)
    case DeleteDb(k, answered) => DoDeleteDb(w, k, answered)
    case Erase(k) => DoErase(w, k)
    case Release(k) => DoRelease(w, k)
    case Dies(k) => w.(runs := w.runs - {k})
    case MarkForRemoval(onlyIfPaused) => w.(row := Some(MarkedForRemoval(w.row.value, onlyIfPaused)))
    case Unpause => w.(row := Some(Unpaused(w.row.value)))
    case ForeignMaps(byService) => DoForeignMaps(w, byService)
    case Unmaps => w.(domain := None)
  }

  /** A tenant just requested: a row, and nothing else anywhere. */
  predicate Initial(w: World) {
    && w.row.Some? && w.row.value == Row(Requested, 0, false, None, None, None, None, NoDomain)
    && w.key.None? && w.secret.None? && w.databases == [] && w.script.None?
    && (w.domain.Some? ==> !w.domain.value.mine && w.domain.value.id < w.nextId) && w.runs == map[]
  }

  // ----- what every step keeps -------------------------------------------------

  function Rank(s: ProvisionState): nat {
    match s
    case Requested => 1
    case DbCreated => 2
    case Uploaded => 3
    case Migrated => 4
    case Ready => 5
    case Deleting => 6
  }

  predicate SetUp(s: ProvisionState) { s != Ready && s != Deleting }

  /**
   * A paused tenant is being set up; one that is not paused, nor being removed,
   * has failed fewer than 6 times in a row.
   */
  predicate RowOk(r: Row) {
    && (r.paused ==> SetUp(r.state))
    && (!r.paused && r.state != Deleting ==> r.attempts < MAX_ATTEMPTS)
    && (r.leaseUntil.Some? ==> r.token.Some?)
    && (r.state == Requested ==> r.d1Id.None?)
  }

  predicate IdsOk(w: World) {
    && (forall k | k in w.runs :: k < w.nextId)
    && (forall i | 0 <= i < |w.databases| :: w.databases[i] < w.nextId)
    && (w.domain.Some? ==> w.domain.value.id < w.nextId)
    && (w.row.Some? ==>
          && (w.row.value.token.Some? ==> w.row.value.token.value < w.nextId)
          && (w.row.value.domain.Recorded? ==> w.row.value.domain.id < w.nextId))
  }

  /** The database recorded is the one there is, and there is at most one. */
  predicate DatabasesOk(w: World) {
    && |w.databases| <= 1
    && (w.row.Some? && w.row.value.d1Id.Some? ==> AllAre(w.databases, w.row.value.d1Id.value))
  }

  /** A domain column names the tenant's own Custom Domain, if it has one. */
  predicate NamesOwn(w: World, column: DomainColumn) {
    w.domain.Some? && w.domain.value.mine ==> column == Pending || column == Recorded(w.domain.value.id)
  }

  /** The row names the tenant's own Custom Domain whenever it has one, and that routes to its Worker. */
  predicate DomainOk(w: World) {
    w.row.Some? ==>
      && NamesOwn(w, w.row.value.domain)
      && (w.domain.Some? && w.domain.value.mine ==> w.domain.value.service == w.service)
  }

  /** What is uploaded is what is escrowed. */
  predicate ScriptOk(w: World) { w.row.Some? && w.script.Some? ==> w.script == w.key }

  predicate CleanDomain(w: World) { w.domain.Some? ==> !w.domain.value.mine }

  /** Nothing the tenant had is left, but for a call secret. */
  predicate NothingButSecret(w: World) {
    w.databases == [] && w.script.None? && w.key.None? && CleanDomain(w)
  }

  /** Nothing of the tenant is left. */
  predicate NothingLeft(w: World) { NothingButSecret(w) && w.secret.None? }

  predicate GoneMeansClean(w: World) { w.row.None? ==> NothingButSecret(w) }

  predicate InTeardown(pc: Pc) {
    pc == FindingOwnDomain || pc.Detaching? || pc == DeletingScript || pc == FindingOwnDb || pc.DeletingDb?
      || pc == Erasing
  }

  /** The step a program point belongs to. */
  predicate PcFits(pc: Pc, s: ProvisionState) {
    match pc
    case ReadingKey => s == Requested || s == DbCreated
    case InsertingKey => s == Requested || s == DbCreated
    case RereadingKey => s == Requested || s == DbCreated
    case FindingDb => s == Requested
    case CreatingDb => s == Requested
    case RefindingDb => s == Requested
    case CallingTenant => s == Uploaded || s == Migrated
    case Advancing(d1Id, domain) => s != Ready && s != Deleting && (d1Id.Some? <==> s == Requested)
        && (domain.Some? <==> s == DbCreated)
    case Renewing => true
    case Loading => true
    case Failing(_) => s != Ready
    case Leaving => true
    case _ => if InTeardown(pc) then s == Deleting else s == DbCreated
  }

  /** What holds of any run, lease or no lease: its step count, and the key it obtained is the stored one. */
  predicate RunOk(w: World, r: Run) {
    && PcFits(r.pc, r.t.state)
    && r.loads <= 6
    && (r.pc == Loading ==> r.loads <= 5)
    && (w.row.Some? && r.key.Some? ==> w.key == r.key)
    && (r.pc == RereadingKey && w.row.Some? ==> w.key.Some?)
    && (r.pc == CleaningScript || r.pc == EnsuringSecret || r.pc == UploadingScript ==> r.key.Some?)
  }

  /** Inside a step: between loading the row and leaving or renewing. */
  predicate Working(pc: Pc) { InStep(pc) || pc.Advancing? || pc.Failing? }

  /** What the run that holds the lease knows of the row: its turns, and what it read. */
  predicate HolderTurn(row: Row, r: Run) {
    && (r.pc != Leaving ==> !row.paused)
    && (r.pc == Renewing || r.pc == Loading ==> r.loads < Rank(row.state))
    && (InStep(r.pc) || r.pc.Advancing? ==>
          && r.loads <= Rank(r.t.state)
          && (row.state == r.t.state || row.state == Deleting)
          && r.t.d1Id == row.d1Id
          && (r.t.state == Requested ==> r.t.d1Id.None?))
    && (Working(r.pc) && row.state == r.t.state && row.state != Deleting ==> r.t.attempts == row.attempts)
  }

  predicate AllAre(databases: seq<nat>, id: nat) { forall i | 0 <= i < |databases| :: databases[i] == id }

  /** What it knows of the databases and the script. */
  predicate HolderResources(w: World, r: Run) {
    && (r.pc == CreatingDb || r.pc == Erasing ==> w.databases == [])
    && (r.pc.Advancing? && r.pc.d1Id.Some? ==> AllAre(w.databases, r.pc.d1Id.value))
    && (r.pc.DeletingDb? ==> AllAre(w.databases, r.pc.id))
    && (r.pc == FindingOwnDb || r.pc.DeletingDb? || r.pc == Erasing ==> w.script.None?)
  }

  /** What it knows of the Custom Domain. */
  predicate HolderDomain(w: World, row: Row, r: Run) {
    && (InStep(r.pc) ==>
          && (r.t.domain == row.domain || row.domain == Pending)
          && (r.t.domain.Recorded? ==> r.t.domain.id < w.nextId)
          && (r.pc != Attaching ==> NamesOwn(w, r.t.domain)))
    && (InAttachWindow(r.pc) && Live0(w, row) ==> w.domain.None?)
    && (r.pc == Attaching ==> row.domain == Pending)
    && (r.pc.Advancing? && r.pc.domain.Some? ==>
        r.pc.domain.value < w.nextId && NamesOwn(w, Recorded(r.pc.domain.value)))
    && (r.pc.Detaching? ==> r.pc.id < w.nextId && NamesOwn(w, Recorded(r.pc.id)))
    && (InTeardown(r.pc) && r.pc != FindingOwnDomain && !r.pc.Detaching? ==> CleanDomain(w))
  }

  /** What the run that holds the lease knows at each point of its step. */
  predicate HolderOk(w: World, row: Row, r: Run) {
    HolderTurn(row, r) && HolderResources(w, r) && HolderDomain(w, row, r)
  }

  predicate Live0(w: World, row: Row) { row.leaseUntil.Some? && w.now < row.leaseUntil.value }

  ghost predicate RunsOk(w: World) { forall k | k in w.runs :: RunOk(w, w.runs[k]) }

  predicate TheHolderOk(w: World) {
    w.row.Some? && w.row.value.token.Some? && w.row.value.token.value in w.runs
    ==> HolderOk(w, w.row.value, w.runs[w.row.value.token.value])
  }

  ghost predicate Inv(w: World) {
    && (w.row.Some? ==> RowOk(w.row.value))
    && IdsOk(w) && DatabasesOk(w) && DomainOk(w) && ScriptOk(w) && GoneMeansClean(w) && RunsOk(w) && TheHolderOk(w)
  }

  lemma InitialInv(w: World)
    requires Initial(w)
    ensures Inv(w)
  {
  }

  /** Everything but what the runs themselves know. */
  predicate TablesOk(w: World) {
    (w.row.Some? ==> RowOk(w.row.value)) && IdsOk(w) && DatabasesOk(w) && DomainOk(w) && ScriptOk(w)
        && GoneMeansClean(w)
  }

  predicate TokenIs(w: World, k: nat) { w.row.Some? && w.row.value.token == Some(k) }

  /** One run moves on, keys and the row's being there unchanged: what other runs know is untouched. */
  lemma RunsKept(w: World, v: World, k: nat)
    requires RunsOk(w) && k in w.runs && k in v.runs && v.runs == w.runs[k := v.runs[k]]
    requires v.key == w.key && (v.row.Some? ==> w.row.Some?) && RunOk(v, v.runs[k])
    ensures RunsOk(v)
  {
    forall j | j in v.runs ensures RunOk(v, v.runs[j]) {
      if j != k { assert RunOk(w, w.runs[j]); }
    }
  }

  /** A move of run k that touches no table. */
  lemma MoveInv(w: World, v: World, k: nat)
    requires TablesOk(w) && RunsOk(w) && (TokenIs(w, k) || TheHolderOk(w))
    requires k in w.runs && k in v.runs && v == w.(runs := w.runs[k := v.runs[k]])
    requires RunOk(w, v.runs[k])
    requires TokenIs(w, k) ==> HolderOk(w, w.row.value, v.runs[k])
    ensures Inv(v)
  {
    RunsKept(w, v, k);
  }

  lemma KeyMoveInv(w: World, k: nat)
    requires Inv(w) && k in w.runs && (w.runs[k].pc == ReadingKey || w.runs[k].pc == RereadingKey)
    ensures Inv(Obtain(w, k))
  {
    assert RunOk(w, w.runs[k]);
    MoveInv(w, Obtain(w, k), k);
  }

  lemma InsertKeyInv(w: World, k: nat, candidate: int)
    requires Inv(w) && At(w, k, InsertingKey)
    ensures Inv(DoInsertKey(w, k, candidate))
  {
    assert RunOk(w, w.runs[k]);
    var v := DoInsertKey(w, k, candidate);
    var u := w.(key := v.key);
    forall j | j in u.runs ensures RunOk(u, u.runs[j]) { assert RunOk(w, w.runs[j]); }
    MoveInv(u, v, k);
  }

  /** Plain moves between a step's points. */
  lemma GotoInv(w: World, k: nat, pc: Pc)
    requires Inv(w) && k in w.runs
    requires PcFits(pc, w.runs[k].t.state) && pc != Loading && pc != RereadingKey
    requires pc == CleaningScript || pc == EnsuringSecret || pc == UploadingScript ==> w.runs[k].key.Some?
    requires TokenIs(w, k) ==> HolderOk(w, w.row.value, w.runs[k].(pc := pc))
    ensures Inv(Goto(w, k, pc))
  {
    assert RunOk(w, w.runs[k]);
    MoveInv(w, Goto(w, k, pc), k);
  }

  lemma FailInv(w: World, k: nat, permanent: bool)
    requires Inv(w) && k in w.runs && InStep(w.runs[k].pc)
    ensures Inv(Goto(w, k, Failing(permanent)))
  {
    assert RunOk(w, w.runs[k]);
    GotoInv(w, k, Failing(permanent));
  }

  /** What a run knows of the row stays as it moves within its step. */
  lemma TurnMoves(row: Row, r: Run, pc: Pc)
    requires HolderTurn(row, r) && InStep(r.pc) && pc != Renewing && pc != Loading
    ensures HolderTurn(row, r.(pc := pc))
  {
  }

  /** A database found by name, which the next write records, is the one there is. */
  lemma FoundDbResources(w: World, r: Run, id: nat)
    requires DatabasesOk(w) && FoundDb(w.databases) == Some(id)
    ensures HolderResources(w, r.(pc := Advancing(Some(id), None)))
  {
  }

  lemma FoundDbDomain(w: World, row: Row, r: Run, id: nat)
    ensures HolderDomain(w, row, r.(pc := Advancing(Some(id), None)))
  {
  }

  lemma FoundDbKnown(w: World, row: Row, r: Run)
    requires DatabasesOk(w) && HolderTurn(row, r) && (r.pc == FindingDb || r.pc == RefindingDb)
    requires FoundDb(w.databases).Some?
    ensures HolderOk(w, row, r.(pc := Advancing(FoundDb(w.databases), None)))
  {
    var id := FoundDb(w.databases).value;
    TurnMoves(row, r, Advancing(Some(id), None));
    FoundDbResources(w, r, id);
    FoundDbDomain(w, row, r, id);
  }

  lemma FoundDbInv(w: World, k: nat)
    requires Inv(w) && k in w.runs && (w.runs[k].pc == FindingDb || w.runs[k].pc == RefindingDb)
             && FoundDb(w.databases).Some?
    ensures Inv(Goto(w, k, Advancing(FoundDb(w.databases), None)))
  {
    var v := Goto(w, k, Advancing(FoundDb(w.databases), None));
    assert RunOk(w, w.runs[k]);
    assert RunOk(w, v.runs[k]);
    if TokenIs(w, k) {
      FoundDbKnown(w, w.row.value, w.runs[k]);
    }
    MoveInv(w, v, k);
  }

  lemma FindDbInv(w: World, k: nat, otherwise: Pc)
    requires Inv(w) && k in w.runs
    requires (w.runs[k].pc == FindingDb && otherwise == CreatingDb)
             || (w.runs[k].pc == RefindingDb && otherwise == Failing(false))
    ensures Inv(DoFindDb(w, k, otherwise))
  {
    if FoundDb(w.databases).Some? {
      FoundDbInv(w, k);
    } else if otherwise == CreatingDb {
      assert RunOk(w, w.runs[k]);
      GotoInv(w, k, CreatingDb);
    } else {
      FailInv(w, k, false);
    }
  }

  lemma SmallMoveInv(w: World, k: nat, pc: Pc)
    requires Inv(w) && k in w.runs
    requires (w.runs[k].pc == ReadingKey && pc == InsertingKey) || (w.runs[k].pc == CreatingDb && pc == RefindingDb)
             || (w.runs[k].pc == CheckingDns && pc == MarkingPending)
             || (w.runs[k].pc == CallingTenant && pc == Advancing(None, None))
    ensures Inv(Goto(w, k, pc))
  {
    assert RunOk(w, w.runs[k]);
    GotoInv(w, k, pc);
  }

  lemma FindDomainInv(w: World, k: nat)
    requires Inv(w) && At(w, k, FindingDomain)
    ensures Inv(DoFindDomain(w, k))
  {
    assert RunOk(w, w.runs[k]);
    if w.domain.None? {
      GotoInv(w, k, CheckingDns);
    } else {
      var d := w.domain.value;
      var recorded := w.runs[k].t.domain;
      if !(recorded == Recorded(d.id) || recorded == Pending) || d.service != w.service {
        FailInv(w, k, true);
      } else {
        GotoInv(w, k, Advancing(None, Some(d.id)));
      }
    }
  }

  /**
   * Detaching by the recorded id, or by the pending one found routed here, takes
   * the tenant's own domain if it has one.
   */
  lemma DetachingKnown(w: World, k: nat, id: nat)
    requires Inv(w) && At(w, k, FindingOwnDomain) && TokenIs(w, k)
    requires var t := w.runs[k].t.domain;
             t == Recorded(id) || (t == Pending && w.domain.Some? && w.domain.value.id == id)
    ensures HolderOk(w, w.row.value, w.runs[k].(pc := Detaching(id)))
  {
  }

  lemma NothingToDetach(w: World, k: nat)
    requires Inv(w) && At(w, k, FindingOwnDomain) && TokenIs(w, k)
    requires var t := w.runs[k].t.domain;
             t == NoDomain || (t == Pending && (w.domain.None? || w.domain.value.service != w.service))
    ensures HolderOk(w, w.row.value, w.runs[k].(pc := DeletingScript))
  {
  }

  lemma DetachNextInv(w: World, k: nat, id: nat)
    requires Inv(w) && At(w, k, FindingOwnDomain)
    requires var t := w.runs[k].t.domain;
             t == Recorded(id) || (t == Pending && w.domain.Some? && w.domain.value.id == id)
    ensures Inv(Goto(w, k, Detaching(id)))
  {
    assert RunOk(w, w.runs[k]);
    if TokenIs(w, k) { DetachingKnown(w, k, id); }
    GotoInv(w, k, Detaching(id));
  }

  lemma FindOwnDomainInv(w: World, k: nat)
    requires Inv(w) && At(w, k, FindingOwnDomain)
    ensures Inv(DoFindOwnDomain(w, k))
  {
    var recorded := w.runs[k].t.domain;
    if recorded.Recorded? {
      DetachNextInv(w, k, recorded.id);
    } else if recorded.Pending? && w.domain.Some? && w.domain.value.service == w.service {
      DetachNextInv(w, k, w.domain.value.id);
    } else {
      assert RunOk(w, w.runs[k]);
      if TokenIs(w, k) { NothingToDetach(w, k); }
      GotoInv(w, k, DeletingScript);
    }
  }

  lemma OwnDbKnown(w: World, row: Row, r: Run)
    requires DatabasesOk(w) && w.row == Some(row) && HolderOk(w, row, r)
    requires r.pc == FindingOwnDb && r.t.state == Deleting
    ensures var id := if r.t.d1Id.Some? then r.t.d1Id else FoundDb(w.databases);
            HolderOk(w, row, r.(pc := if id.Some? then DeletingDb(id.value) else Erasing))
  {
    TurnMoves(row, r, if r.t.d1Id.Some? then DeletingDb(r.t.d1Id.value) else Erasing);
  }

  lemma FindOwnDbInv(w: World, k: nat)
    requires Inv(w) && At(w, k, FindingOwnDb)
    ensures Inv(DoFindOwnDb(w, k))
  {
    assert RunOk(w, w.runs[k]);
    var id := if w.runs[k].t.d1Id.Some? then w.runs[k].t.d1Id else FoundDb(w.databases);
    if TokenIs(w, k) { OwnDbKnown(w, w.row.value, w.runs[k]); }
    GotoInv(w, k, if id.Some? then DeletingDb(id.value) else Erasing);
  }

  /** A live run's step with an effect: the tables stay right, and what it knows next is right. */
  lemma EffectInv(w: World, v: World, k: nat)
    requires Inv(w) && k in w.runs && k in v.runs && v.runs == w.runs[k := v.runs[k]] && TokenIs(w, k)
    requires v.key == w.key && w.row.Some? && v.row.Some? && v.row.value.token == w.row.value.token
    requires TablesOk(v) && RunOk(v, v.runs[k]) && HolderOk(v, v.row.value, v.runs[k])
    ensures Inv(v)
  {
    RunsKept(w, v, k);
  }

  lemma CreatedTables(w: World, k: nat, answered: bool)
    requires TablesOk(w) && k in w.runs && TokenIs(w, k) && w.databases == []
    requires w.row.value.d1Id.None?
    ensures TablesOk(DoCreateDb(w, k, answered))
  {
  }

  lemma CreateDbInv(w: World, k: nat, answered: bool)
    requires Inv(w) && At(w, k, CreatingDb) && Live(w, k)
    ensures Inv(DoCreateDb(w, k, answered))
  {
    assert RunOk(w, w.runs[k]);
    CreatedTables(w, k, answered);
    EffectInv(w, DoCreateDb(w, k, answered), k);
  }

  lemma SecretStored(w: World, candidate: int)
    requires Inv(w)
    ensures Inv(w.(secret := Some(candidate)))
  {
    SameRunsKept(w, w.(secret := Some(candidate)));
  }

  lemma SecretInv(w: World, k: nat, candidate: int)
    requires Inv(w) && At(w, k, EnsuringSecret)
    ensures Inv(DoEnsureSecret(w, k, candidate))
  {
    assert RunOk(w, w.runs[k]);
    if w.secret.None? {
      SecretStored(w, candidate);
      GotoInv(w.(secret := Some(candidate)), k, UploadingScript);
    } else {
      GotoInv(w, k, UploadingScript);
    }
  }

  /** A script that is gone deleted again, by a run that has lost its lease. */
  lemma GoneScriptInv(w: World, k: nat, then_: Pc)
    requires Inv(w) && k in w.runs && !TokenIs(w, k) && w.script.None?
    requires PcFits(then_, w.runs[k].t.state) && then_ != Loading && then_ != RereadingKey
    requires then_ == CleaningScript || then_ == EnsuringSecret || then_ == UploadingScript ==> w.runs[k].key.Some?
    ensures Inv(DoSetScript(w, k, None, then_))
  {
    assert DoSetScript(w, k, None, then_) == Goto(w, k, then_);
    GotoInv(w, k, then_);
  }

  lemma CleanScriptInv(w: World, k: nat, then_: Pc)
    requires Inv(w) && At(w, k, CleaningScript) && TokenIs(w, k) && (then_ == EnsuringSecret || then_ == Failing(false))
    ensures Inv(DoSetScript(w, k, None, then_))
  {
    assert RunOk(w, w.runs[k]);
    EffectInv(w, DoSetScript(w, k, None, then_), k);
  }

  lemma UploadInv(w: World, k: nat, then_: Pc)
    requires Inv(w) && At(w, k, UploadingScript) && Live(w, k) && (then_ == FindingDomain || then_ == Failing(false))
    ensures Inv(DoSetScript(w, k, w.runs[k].key, then_))
  {
    assert RunOk(w, w.runs[k]);
    EffectInv(w, DoSetScript(w, k, w.runs[k].key, then_), k);
  }

  lemma DeleteScriptInv(w: World, k: nat, then_: Pc)
    requires Inv(w) && At(w, k, DeletingScript) && TokenIs(w, k) && (then_ == FindingOwnDb || then_ == Failing(false))
    ensures Inv(DoSetScript(w, k, None, then_))
  {
    assert RunOk(w, w.runs[k]);
    EffectInv(w, DoSetScript(w, k, None, then_), k);
  }

  /** Either deletion of the script. */
  lemma ScriptStepInv(w: World, e: Event)
    requires Inv(w) && Enabled(w, e) && (e.CleanScript? || e.DeleteScript?)
    ensures Inv(Apply(w, e))
  {
    var k := e.run;
    var then_ := if !e.answered then Failing(false) else if e.CleanScript? then EnsuringSecret else FindingOwnDb;
    if !TokenIs(w, k) {
      assert RunOk(w, w.runs[k]);
      GoneScriptInv(w, k, then_);
    } else if e.CleanScript? {
      CleanScriptInv(w, k, then_);
    } else {
      DeleteScriptInv(w, k, then_);
    }
  }

  lemma Marked(w: World)
    requires Inv(w) && w.row.Some?
    ensures Inv(w.(row := Some(w.row.value.(domain := Pending))))
  {
    SameRunsKept(w, w.(row := Some(w.row.value.(domain := Pending))));
  }

  lemma MarkPendingInv(w: World, k: nat)
    requires Inv(w) && At(w, k, MarkingPending)
    ensures Inv(DoMarkPending(w, k))
  {
    assert RunOk(w, w.runs[k]);
    if w.row.Some? {
      Marked(w);
      GotoInv(w.(row := Some(w.row.value.(domain := Pending))), k, Attaching);
    } else {
      GotoInv(w, k, Attaching);
    }
  }

  lemma AttachInv(w: World, k: nat, answered: bool)
    requires Inv(w) && At(w, k, Attaching) && Live(w, k)
    ensures Inv(DoAttach(w, k, answered))
  {
    assert RunOk(w, w.runs[k]);
    EffectInv(w, DoAttach(w, k, answered), k);
  }

  lemma DetachTables(w: World, k: nat, answered: bool)
    requires TablesOk(w) && k in w.runs && w.runs[k].pc.Detaching?
    ensures TablesOk(DoDetach(w, k, answered))
  {
  }

  lemma DetachKnown(w: World, k: nat, answered: bool)
    requires w.row.Some? && k in w.runs && w.runs[k].pc.Detaching? && HolderOk(w, w.row.value, w.runs[k])
    ensures HolderOk(DoDetach(w, k, answered), w.row.value, DoDetach(w, k, answered).runs[k])
  {
  }

  /** A run that has lost its lease moves on within its teardown. */
  lemma StaleTeardownInv(w: World, k: nat, pc: Pc)
    requires Inv(w) && k in w.runs && InTeardown(w.runs[k].pc) && !TokenIs(w, k) && (InTeardown(pc) || pc.Failing?)
    ensures Inv(Goto(w, k, pc))
  {
    assert RunOk(w, w.runs[k]);
    GotoInv(w, k, pc);
  }

  lemma DetachInv(w: World, k: nat, answered: bool)
    requires Inv(w) && k in w.runs && w.runs[k].pc.Detaching? && TokenIs(w, k)
    ensures Inv(DoDetach(w, k, answered))
  {
    assert RunOk(w, w.runs[k]);
    DetachTables(w, k, answered);
    DetachKnown(w, k, answered);
    EffectInv(w, DoDetach(w, k, answered), k);
  }

  lemma DetachStepInv(w: World, k: nat, answered: bool)
    requires Inv(w) && Enabled(w, Detach(k, answered))
    ensures Inv(DoDetach(w, k, answered))
  {
    if TokenIs(w, k) {
      DetachInv(w, k, answered);
    } else {
      StaleTeardownInv(w, k, if answered then DeletingScript else Failing(false));
    }
  }

  lemma {:induction false} OneDbDropped(databases: seq<nat>, id: nat)
    requires |databases| <= 1
    ensures |WithoutDb(databases, id)| <= 1
    ensures forall i | 0 <= i < |WithoutDb(databases, id)| ::
            WithoutDb(databases, id)[i] != id && databases == WithoutDb(databases, id)
    ensures databases == [id] ==> WithoutDb(databases, id) == []
  {
    if databases != [] {
      assert databases[..0] == [];
      assert WithoutDb(databases[..0], id) == [];
    }
  }

  lemma DeletedTables(w: World, k: nat, answered: bool)
    requires TablesOk(w) && k in w.runs && w.runs[k].pc.DeletingDb? && AllAre(w.databases, w.runs[k].pc.id)
    ensures TablesOk(DoDeleteDb(w, k, answered)) && DoDeleteDb(w, k, answered).databases == []
  {
    var id := w.runs[k].pc.id;
    OneDbDropped(w.databases, id);
    if |w.databases| == 1 { assert w.databases == [id]; }
  }

  lemma {:induction false} NoDbDropped(databases: seq<nat>, id: nat)
    requires id !in databases
    ensures WithoutDb(databases, id) == databases
  {
    if databases != [] {
      NoDbDropped(databases[..|databases| - 1], id);
    }
  }

  lemma DeleteDbInv(w: World, k: nat, answered: bool)
    requires Inv(w) && k in w.runs && w.runs[k].pc.DeletingDb? && TokenIs(w, k)
    ensures Inv(DoDeleteDb(w, k, answered))
  {
    assert RunOk(w, w.runs[k]);
    DeletedTables(w, k, answered);
    EffectInv(w, DoDeleteDb(w, k, answered), k);
  }

  lemma DeleteDbStepInv(w: World, k: nat, answered: bool)
    requires Inv(w) && Enabled(w, DeleteDb(k, answered))
    ensures Inv(DoDeleteDb(w, k, answered))
  {
    if TokenIs(w, k) {
      DeleteDbInv(w, k, answered);
    } else {
      NoDbDropped(w.databases, w.runs[k].pc.id);
      assert DoDeleteDb(w, k, answered) == Goto(w, k, if answered then Erasing else Failing(false));
      StaleTeardownInv(w, k, if answered then Erasing else Failing(false));
    }
  }

  lemma AdvancedTables(w: World, k: nat, auditFails: bool)
    requires TablesOk(w) && k in w.runs && w.runs[k].pc.Advancing? && TokenIs(w, k)
    requires RunOk(w, w.runs[k]) && HolderOk(w, w.row.value, w.runs[k])
    ensures TablesOk(DoAdvance(w, k, auditFails))
  {
  }

  lemma AdvancedKnown(w: World, k: nat, auditFails: bool)
    requires TablesOk(w) && k in w.runs && w.runs[k].pc.Advancing? && TokenIs(w, k)
    requires RunOk(w, w.runs[k]) && HolderOk(w, w.row.value, w.runs[k])
    ensures var v := DoAdvance(w, k, auditFails); HolderOk(v, v.row.value, v.runs[k])
  {
  }

  lemma HolderAdvanceInv(w: World, k: nat, auditFails: bool)
    requires Inv(w) && k in w.runs && w.runs[k].pc.Advancing? && TokenIs(w, k)
    ensures Inv(DoAdvance(w, k, auditFails))
  {
    assert RunOk(w, w.runs[k]);
    AdvancedTables(w, k, auditFails);
    AdvancedKnown(w, k, auditFails);
    EffectInv(w, DoAdvance(w, k, auditFails), k);
  }

  /** `advance` by the run that holds the lease; by any other run it changes no column. */
  lemma AdvanceInv(w: World, k: nat, auditFails: bool)
    requires Inv(w) && k in w.runs && w.runs[k].pc.Advancing?
    ensures Inv(DoAdvance(w, k, auditFails))
  {
    if TokenIs(w, k) {
      HolderAdvanceInv(w, k, auditFails);
    } else {
      assert RunOk(w, w.runs[k]);
      MoveInv(w, DoAdvance(w, k, auditFails), k);
    }
  }

  /** A recorded failure counts one more, and pauses a set-up at its sixth or when retrying can't fix it. */
  lemma FailureKeepsRow(r: Row, token: nat, from: ProvisionState, before: nat, permanent: bool, now: int)
    requires RowOk(r) && from != Ready && (r.state == from && from != Deleting ==> before == r.attempts)
    ensures RowOk(FailureRecorded(r, token, from, before, permanent, now))
    ensures var f := FailureRecorded(r, token, from, before, permanent, now);
            f.token == r.token && f.d1Id == r.d1Id && f.domain == r.domain && f.leaseUntil == r.leaseUntil
                && f.state == r.state
  {
  }

  /**
   * A recorded failure that does not pause the tenant is tried again after 10 s,
   * 30 s, 2 and 10 minutes, then every half hour, by how often it has failed.
   */
  lemma FailureWaits(r: Row, token: nat, before: nat, permanent: bool, now: int)
    requires r.token == Some(token)
    ensures var f := FailureRecorded(r, token, r.state, before, permanent, now);
            && f.attempts == before + 1
            && (f.paused <==> r.state != Deleting && (permanent || before >= 5))
            && f.nextAt == if f.paused then None
                           else Some(now + 1000 * if before == 0 then 10 else if before == 1 then 30
                                                  else if before == 2 then 120 else if before == 3 then 600 else 1800)
  {
  }

  /** And no sooner: a paused tenant waits for its owner, any other for its time, unless it is forced. */
  lemma FailedTriesAgain(r: Row, token: nat, before: nat, permanent: bool, now: int, later: int, force: bool)
    requires r.token == Some(token) && r.state != Ready
    ensures var f := FailureRecorded(r, token, r.state, before, permanent, now);
            AcquireMatches(Released(f, token), later, force)
            <==> !f.paused && (force || later >= f.nextAt.value)
  {
  }

  /** Whoever gets the lease has it to itself for two minutes, and for two more from every renewal. */
  lemma LeaseHolds(r: Row, token: nat, now: int, later: int, force: bool)
    requires r.state != Ready && !r.paused
    ensures AcquireMatches(Acquired(r, token, now), later, true) <==> later >= now + 120_000
    ensures r.token == Some(token) ==> (AcquireMatches(Renewed(r, token, now), later, true) <==> later >= now + 120_000)
    ensures r.token != Some(token) ==> Renewed(r, token, now) == r && Released(r, token) == r
    ensures r.token == Some(token) ==> AcquireMatches(Released(r, token), later, true)
  {
  }

  lemma RowEdited(w: World, row: Row)
    requires TablesOk(w) && w.row.Some? && RowOk(row)
    requires row.token == w.row.value.token && row.d1Id == w.row.value.d1Id && row.domain == w.row.value.domain
    ensures TablesOk(w.(row := Some(row)))
  {
  }

  lemma LeavingIsFine(w: World, row: Row, r: Run)
    requires r.pc == Leaving
    ensures HolderOk(w, row, r)
  {
  }

  lemma HolderLeavesInv(w: World, k: nat, row: Row)
    requires TablesOk(w) && RunsOk(w) && k in w.runs && TokenIs(w, k) && RowOk(row)
    requires row.token == w.row.value.token && row.d1Id == w.row.value.d1Id && row.domain == w.row.value.domain
    ensures Inv(Goto(w.(row := Some(row)), k, Leaving))
  {
    RowEdited(w, row);
    var u := w.(row := Some(row));
    SameRunsKept(w, u);
    var r := w.runs[k].(pc := Leaving);
    assert RunOk(u, r) by { assert RunOk(u, u.runs[k]); }
    LeavingIsFine(u, row, r);
    MoveInv(u, Goto(u, k, Leaving), k);
  }

  lemma RecordFailureInv(w: World, k: nat)
    requires Inv(w) && k in w.runs && w.runs[k].pc.Failing?
    ensures Inv(DoRecordFailure(w, k))
  {
    var r := w.runs[k];
    assert RunOk(w, r);
    var v := DoRecordFailure(w, k);
    if TokenIs(w, k) {
      var row := FailureRecorded(w.row.value, k, r.t.state, r.t.attempts, r.pc.permanent, w.now);
      FailureKeepsRow(w.row.value, k, r.t.state, r.t.attempts, r.pc.permanent, w.now);
      HolderLeavesInv(w, k, row);
    } else {
      MoveInv(w, v, k);
    }
  }

  lemma HolderErasesAll(w: World, k: nat)
    requires TablesOk(w) && TheHolderOk(w) && At(w, k, Erasing) && TokenIs(w, k)
    ensures NothingLeft(DoErase(w, k)) && TablesOk(DoErase(w, k)) && DoErase(w, k).row.None?
  {
    assert HolderOk(w, w.row.value, w.runs[k]);
  }

  lemma EraseInv(w: World, k: nat)
    requires Inv(w) && At(w, k, Erasing)
    ensures Inv(DoErase(w, k))
  {
    assert RunOk(w, w.runs[k]);
    var v := DoErase(w, k);
    if TokenIs(w, k) {
      HolderErasesAll(w, k);
      forall j | j in v.runs ensures RunOk(v, v.runs[j]) {
        assert RunOk(w, w.runs[j]);
        assert j != k ==> v.runs[j] == w.runs[j];
      }
    } else {
      MoveInv(w, v, k);
    }
  }

  lemma AcquireInv(w: World, k: nat, force: bool)
    requires Inv(w) && Enabled(w, Acquire(k, force))
    ensures Inv(DoAcquire(w, k))
  {
    var v := DoAcquire(w, k);
    forall j | j in v.runs ensures RunOk(v, v.runs[j]) {
      if j in w.runs { assert RunOk(w, w.runs[j]); }
    }
  }

  lemma RenewInv(w: World, k: nat)
    requires Inv(w) && At(w, k, Renewing)
    ensures Inv(DoRenew(w, k))
  {
    assert RunOk(w, w.runs[k]);
    var v := DoRenew(w, k);
    if TokenIs(w, k) {
      EffectInv(w, v, k);
    } else {
      MoveInv(w, v, k);
    }
  }

  lemma LoadInv(w: World, k: nat)
    requires Inv(w) && At(w, k, Loading)
    ensures Inv(DoLoad(w, k))
  {
    assert RunOk(w, w.runs[k]);
    MoveInv(w, DoLoad(w, k), k);
  }

  lemma FewerRunsOk(w: World, v: World, k: nat)
    requires RunsOk(w) && v.runs == w.runs - {k} && v.key == w.key && (v.row.Some? ==> w.row.Some?)
    ensures RunsOk(v)
  {
    forall j | j in v.runs ensures RunOk(v, v.runs[j]) { assert RunOk(w, w.runs[j]); }
  }

  lemma DiesInv(w: World, k: nat)
    requires Inv(w) && k in w.runs
    ensures Inv(w.(runs := w.runs - {k}))
  {
    FewerRunsOk(w, w.(runs := w.runs - {k}), k);
  }

  lemma ReleaseInv(w: World, k: nat)
    requires Inv(w) && k in w.runs
    ensures Inv(DoRelease(w, k))
  {
    FewerRunsOk(w, DoRelease(w, k), k);
  }

  lemma SameRunsKept(w: World, v: World)
    requires RunsOk(w) && v.runs == w.runs && v.key == w.key && (v.row.Some? ==> w.row.Some?)
    ensures RunsOk(v)
  {
    forall j | j in v.runs ensures RunOk(v, v.runs[j]) { assert RunOk(w, w.runs[j]); }
  }

  lemma RemovalInv(w: World, onlyIfPaused: bool)
    requires Inv(w) && w.row.Some?
    ensures Inv(w.(row := Some(MarkedForRemoval(w.row.value, onlyIfPaused))))
  {
    SameRunsKept(w, w.(row := Some(MarkedForRemoval(w.row.value, onlyIfPaused))));
  }

  lemma UnpauseInv(w: World)
    requires Inv(w) && w.row.Some?
    ensures Inv(w.(row := Some(Unpaused(w.row.value))))
  {
    SameRunsKept(w, w.(row := Some(Unpaused(w.row.value))));
  }

  /** A domain somebody else makes has a new id, so no run takes it for the tenant's. */
  lemma ForeignDomainKnown(w: World, row: Row, r: Run, byService: int)
    requires w.domain.None? && HolderOk(w, row, r) && row.domain != Pending
    requires InAttachWindow(r.pc) ==> !Live0(w, row)
    requires r.pc.Detaching? ==> r.pc.id < w.nextId
    ensures HolderOk(DoForeignMaps(w, byService), row, r)
  {
  }

  lemma ForeignMapsInv(w: World, byService: int)
    requires Inv(w) && w.domain.None? && !AttachUnderWay(w)
    ensures Inv(DoForeignMaps(w, byService))
  {
    var v := DoForeignMaps(w, byService);
    SameRunsKept(w, v);
    assert TablesOk(v);
    if w.row.Some? && w.row.value.token.Some? && w.row.value.token.value in w.runs {
      ForeignDomainKnown(w, w.row.value, w.runs[w.row.value.token.value], byService);
    }
  }

  lemma TimeInv(w: World, to: int)
    requires Inv(w) && w.now <= to
    ensures Inv(w.(now := to))
  {
    SameRunsKept(w, w.(now := to));
  }

  lemma UnmapsInv(w: World)
    requires Inv(w)
    ensures Inv(w.(domain := None))
  {
    SameRunsKept(w, w.(domain := None));
  }

  /** A step of setting a tenant up. */
  predicate OfSetUp(e: Event) {
    || e.ReadKey? || e.InsertKey? || e.RereadKey? || e.FindDb? || e.CreateDb? || e.CreateRefused? || e.RefindDb?
    || e.CleanScript?
    || e.EnsureSecret? || e.Upload? || e.FindDomain? || e.CheckDns? || e.MarkPending? || e.Attach? || e.CallTenant?
  }

  lemma KeyStepInv(w: World, e: Event)
    requires Inv(w) && Enabled(w, e) && (e.ReadKey? || e.InsertKey? || e.RereadKey? || e.EnsureSecret?)
    ensures Inv(Apply(w, e))
  {
    if e.InsertKey? {
      InsertKeyInv(w, e.run, e.candidate);
    } else if e.EnsureSecret? {
      SecretInv(w, e.run, e.candidate);
    } else if w.key.Some? || e.RereadKey? {
      KeyMoveInv(w, e.run);
    } else {
      SmallMoveInv(w, e.run, InsertingKey);
    }
  }

  lemma ResourceStepInv(w: World, e: Event)
    requires Inv(w) && Enabled(w, e) && OfSetUp(e) && !(e.ReadKey? || e.InsertKey? || e.RereadKey? || e.EnsureSecret?)
    ensures Inv(Apply(w, e))
  {
    match e
    case FindDb(k) => FindDbInv(w, k, CreatingDb);
    case CreateDb(k, answered) => CreateDbInv(w, k, answered);
    case CreateRefused(k) => SmallMoveInv(w, k, RefindingDb);
    case RefindDb(k) => FindDbInv(w, k, Failing(false));
    case CleanScript(_, _) => ScriptStepInv(w, e);
    case Upload(k, answered) => UploadInv(w, k, if answered then FindingDomain else Failing(false));
    case FindDomain(k) => FindDomainInv(w, k);
    case CheckDns(k, found) => if found { FailInv(w, k, true); } else { SmallMoveInv(w, k, MarkingPending); }
    case MarkPending(k) => MarkPendingInv(w, k);
    case Attach(k, answered) => AttachInv(w, k, answered);
    case CallTenant(k) => SmallMoveInv(w, k, Advancing(None, None));
  }

  /** A run's own bookkeeping and its teardown. */
  predicate OfTeardown(e: Event) {
    e.FindOwnDomain? || e.Detach? || e.DeleteScript? || e.FindOwnDb? || e.DeleteDb? || e.Erase?
  }

  lemma TeardownStepInv(w: World, e: Event)
    requires Inv(w) && Enabled(w, e) && OfTeardown(e)
    ensures Inv(Apply(w, e))
  {
    match e
    case FindOwnDomain(k) => FindOwnDomainInv(w, k);
    case Detach(k, answered) => DetachStepInv(w, k, answered);
    case DeleteScript(_, _) => ScriptStepInv(w, e);
    case FindOwnDb(k) => FindOwnDbInv(w, k);
    case DeleteDb(k, answered) => DeleteDbStepInv(w, k, answered);
    case Erase(k) => EraseInv(w, k);
  }

  predicate OfRow(e: Event) {
    e.Acquire? || e.Renew? || e.Load? || e.Advance? || e.StepFails? || e.RecordFailure? || e.Release? || e.Dies?
  }

  lemma RowStepInv(w: World, e: Event)
    requires Inv(w) && Enabled(w, e) && OfRow(e)
    ensures Inv(Apply(w, e))
  {
    match e
    case Acquire(k, force) => AcquireInv(w, k, force);
    case Renew(k) => RenewInv(w, k);
    case Load(k) => LoadInv(w, k);
    case Advance(k, auditFails) => AdvanceInv(w, k, auditFails);
    case StepFails(k, permanent) => FailInv(w, k, permanent);
    case RecordFailure(k) => RecordFailureInv(w, k);
    case Release(k) => ReleaseInv(w, k);
    case Dies(k) => DiesInv(w, k);
  }

  predicate OfOthers(e: Event) { e.Time? || e.MarkForRemoval? || e.Unpause? || e.ForeignMaps? || e.Unmaps? }

  lemma OtherStepInv(w: World, e: Event)
    requires Inv(w) && Enabled(w, e) && OfOthers(e)
    ensures Inv(Apply(w, e))
  {
    match e
    case Time(to) => TimeInv(w, to);
    case MarkForRemoval(onlyIfPaused) => RemovalInv(w, onlyIfPaused);
    case Unpause => UnpauseInv(w);
    case ForeignMaps(byService) => ForeignMapsInv(w, byService);
    case Unmaps => UnmapsInv(w);
  }

  /** Every statement and every API call, interleaved any way, keeps the invariant. */
  lemma StepInv(w: World, e: Event)
    requires Inv(w) && Enabled(w, e)
    ensures Inv(Apply(w, e))
  {
    if OfOthers(e) {
      OtherStepInv(w, e);
    } else if OfRow(e) {
      RowStepInv(w, e);
    } else if OfTeardown(e) {
      TeardownStepInv(w, e);
    } else if e.ReadKey? || e.InsertKey? || e.RereadKey? || e.EnsureSecret? {
      KeyStepInv(w, e);
    } else {
      ResourceStepInv(w, e);
    }
  }

  /** The run that makes a step, if one does. */
  function RunOf(e: Event): Option<nat> {
    match e
    case Time(_) => None
    case MarkForRemoval(_) => None
    case Unpause => None
    case ForeignMaps(_) => None
    case Unmaps => None
    case Acquire(_, _) => None
    case _ => Some(e.run)
  }

  // ----- over whole runs ---------------------------------------------------------

  ghost predicate Runs(w: World, events: seq<Event>)
    decreases |events|
  {
    events == [] || (Enabled(w, events[0]) && Runs(Apply(w, events[0]), events[1..]))
  }

  ghost function After(w: World, events: seq<Event>): World
    requires Runs(w, events)
    decreases |events|
  {
    if events == [] then w else After(Apply(w, events[0]), events[1..])
  }

  lemma {:induction false} RunInv(w: World, events: seq<Event>)
    requires Inv(w) && Runs(w, events)
    ensures Inv(After(w, events))
    decreases |events|
  {
    if events != [] {
      StepInv(w, events[0]);
      RunInv(Apply(w, events[0]), events[1..]);
    }
  }

  lemma Reachable(start: World, events: seq<Event>)
    requires Initial(start) && Runs(start, events)
    ensures Inv(After(start, events))
  {
    InitialInv(start);
    RunInv(start, events);
  }

  /**
   * Over every interleaving, with lost answers, crashes and removals landing
   * mid-step: once a teardown that keeps its lease has erased the row, no
   * script, database, key or Custom Domain of the tenant is left, nor, at the
   * step that erased it, its call secret.
   */
  lemma TornDownLeavesNothing(start: World, events: seq<Event>, e: Event)
    requires Initial(start) && Runs(start, events) && Enabled(After(start, events), e)
    ensures var w, v := After(start, events), Apply(After(start, events), e);
            v.row.None? ==> NothingButSecret(v) && (w.row.Some? ==> NothingLeft(v))
  {
    Reachable(start, events);
    StepInv(After(start, events), e);
  }

  /** No run is about to store the tenant's call secret: at the insert, or at the script's deletion just before it. */
  ghost predicate NoneStoring(w: World) {
    forall k | k in w.runs :: w.runs[k].pc != CleaningScript && w.runs[k].pc != EnsuringSecret
  }

  lemma GoneStep(w: World, e: Event)
    requires w.row.None? && Enabled(w, e)
    ensures Apply(w, e).row.None?
    ensures Apply(w, e).secret == w.secret || (e.EnsureSecret? && w.secret.None?)
  {
  }

  /** With the master key erased, no run gets as far as deleting the script. */
  lemma NoSetUpStartsStoring(w: World, e: Event)
    requires w.row.None? && w.key.None? && NoneStoring(w) && Enabled(w, e) && OfSetUp(e)
    ensures NoneStoring(Apply(w, e)) && !e.EnsureSecret?
  {
  }

  lemma NoneStartsStoring(w: World, e: Event)
    requires w.row.None? && w.key.None? && NoneStoring(w) && Enabled(w, e)
    ensures NoneStoring(Apply(w, e)) && !e.EnsureSecret?
  {
    if OfSetUp(e) { NoSetUpStartsStoring(w, e); }
  }

  lemma {:induction false} GoneStaysGone(w: World, events: seq<Event>)
    requires Inv(w) && w.row.None? && (NoneStoring(w) || w.secret.Some?) && Runs(w, events)
    ensures After(w, events).row.None? && After(w, events).secret == w.secret
    decreases |events|
  {
    if events != [] {
      GoneStep(w, events[0]);
      StepInv(w, events[0]);
      if NoneStoring(w) { NoneStartsStoring(w, events[0]); }
      GoneStaysGone(Apply(w, events[0]), events[1..]);
    }
  }

  /** The world a run leads to keeps the tenant's call secret for good. */
  ghost predicate SecretIsBack(w: World, events: seq<Event>) {
    && Runs(w, events) && After(w, events).secret.Some?
    && forall more | Runs(After(w, events), more) :: After(After(w, events), more).secret.Some?
  }

  lemma RunsOneMore(w: World, e: Event, events: seq<Event>)
    requires Enabled(w, e) && Runs(Apply(w, e), events)
    ensures Runs(w, [e] + events) && After(w, [e] + events) == After(Apply(w, e), events)
  {
    assert ([e] + events)[1..] == events;
  }

  /** A run still about to store the call secret can, and then it stays for ever. */
  lemma StaleSecretStays(w: World, k: nat)
    requires Inv(w) && w.row.None? && w.secret.None? && At(w, k, EnsuringSecret)
    ensures SecretIsBack(w, [EnsureSecret(k, 0)])
  {
    var e := EnsureSecret(k, 0);
    var v := Apply(w, e);
    StepInv(w, e);
    forall more | Runs(v, more) ensures After(v, more).secret.Some? { GoneStaysGone(v, more); }
    assert Runs(v, []);
    RunsOneMore(w, e, []);
    assert [e] + [] == [e];
  }

  /** So can one that has yet to delete the script: it is already gone, and deleting it again succeeds. */
  lemma StaleCleaningStays(w: World, k: nat)
    requires Inv(w) && w.row.None? && w.secret.None? && At(w, k, CleaningScript)
    ensures SecretIsBack(w, [CleanScript(k, true), EnsureSecret(k, 0)])
  {
    var e := CleanScript(k, true);
    StepInv(w, e);
    StaleSecretStays(Apply(w, e), k);
    RunsOneMore(w, e, [EnsureSecret(k, 0)]);
    assert [e] + [EnsureSecret(k, 0)] == [e, EnsureSecret(k, 0)];
  }

  /** Nothing that can follow stores the call secret. */
  ghost predicate SecretStaysGone(w: World) { forall more | Runs(w, more) :: After(w, more).secret.None? }

  /** Something that can follow stores it for good. */
  ghost predicate SecretComesBack(w: World) { exists more :: SecretIsBack(w, more) }

  lemma StaleRunStores(w: World)
    requires Inv(w) && w.row.None? && w.secret.None? && !NoneStoring(w)
    ensures SecretComesBack(w) && !SecretStaysGone(w)
  {
    var k :| k in w.runs && (w.runs[k].pc == CleaningScript || w.runs[k].pc == EnsuringSecret);
    if w.runs[k].pc == EnsuringSecret {
      StaleSecretStays(w, k);
    } else {
      StaleCleaningStays(w, k);
    }
  }

  lemma NobodyStores(w: World)
    requires Inv(w) && w.row.None? && w.secret.None? && NoneStoring(w)
    ensures SecretStaysGone(w) && !SecretComesBack(w)
  {
    forall more | Runs(w, more) ensures After(w, more).secret.None? && !SecretIsBack(w, more) {
      GoneStaysGone(w, more);
    }
  }

  /**
   * Exactly when an erased tenant's call secret stays gone, from every state a
   * run can reach: when no run that lost its lease is still at the insert that
   * stores it or at the script's deletion before. Neither is stopped by the
   * erase, and nothing ever deletes what the insert stores.
   */
  lemma SecretStaysGoneIff(start: World, events: seq<Event>)
    requires Initial(start) && Runs(start, events)
    requires After(start, events).row.None? && After(start, events).secret.None?
    ensures var w := After(start, events);
            (SecretStaysGone(w) <==> NoneStoring(w)) && (SecretComesBack(w) <==> !NoneStoring(w))
  {
    var w := After(start, events);
    Reachable(start, events);
    if NoneStoring(w) {
      NobodyStores(w);
    } else {
      StaleRunStores(w);
    }
  }

  // ----- other people's domains -------------------------------------------------

  /** Somebody else's Custom Domain is at the hostname. */
  predicate Foreign(w: World) { w.domain.Some? && !w.domain.value.mine }

  /** And it routes to the very Worker the tenant's own would. */
  predicate ForeignHere(w: World) { Foreign(w) && w.domain.value.service == w.service }

  /** An intent is marked while nobody else's domain at the hostname routes to the tenant's Worker. */
  predicate Careful(w: World, e: Event) { e.MarkPending? && w.row.Some? ==> !ForeignHere(w) }

  ghost predicate AllCareful(w: World, events: seq<Event>)
    requires Runs(w, events)
    decreases |events|
  {
    events == [] || (Careful(w, events[0]) && AllCareful(Apply(w, events[0]), events[1..]))
  }

  /** A step takes somebody else's domain: it goes, or the row names it as the tenant's. */
  ghost predicate Takes(w: World, e: Event)
    requires Enabled(w, e)
  {
    var v := Apply(w, e);
    Foreign(w) && ((!e.Unmaps? && v.domain != w.domain)
        || (v.row.Some? && v.row.value.domain == Recorded(w.domain.value.id)))
  }

  /** A domain column by which no run takes the domain that is there. */
  predicate LeavesIt(w: World, column: DomainColumn) {
    Foreign(w) ==> column != Recorded(w.domain.value.id) && (column == Pending ==> w.domain.value.service != w.service)
  }

  predicate RunLeavesIt(w: World, r: Run) {
    && (InStep(r.pc) ==> LeavesIt(w, r.t.domain))
    && (r.pc.Advancing? && r.pc.domain.Some? ==> LeavesIt(w, Recorded(r.pc.domain.value)))
    && (r.pc.Detaching? ==> LeavesIt(w, Recorded(r.pc.id)))
  }

  predicate ForeignOk(w: World) {
    w.row.Some? ==>
      && LeavesIt(w, w.row.value.domain)
      && (w.row.value.token.Some? && w.row.value.token.value in w.runs ==>
          RunLeavesIt(w, w.runs[w.row.value.token.value]))
  }

  /** Only an attach, a detach, or other hands change what is at the hostname. */
  predicate TouchesDomain(e: Event) { e.Attach? || e.Detach? || e.ForeignMaps? || e.Unmaps? }

  lemma OthersLeaveDomain(w: World, e: Event)
    requires Enabled(w, e) && !TouchesDomain(e)
    ensures Apply(w, e).domain == w.domain && Apply(w, e).service == w.service
  {
  }

  lemma ForeignAtAttach(w: World, e: Event)
    requires Inv(w) && ForeignOk(w) && Enabled(w, e) && (e.Attach? || e.Detach?)
    ensures ForeignOk(Apply(w, e)) && !Takes(w, e)
  {
  }

  lemma ForeignAtMapping(w: World, e: Event)
    requires Inv(w) && ForeignOk(w) && Enabled(w, e) && (e.ForeignMaps? || e.Unmaps?)
    ensures ForeignOk(Apply(w, e)) && !Takes(w, e)
  {
  }

  /** One run moves on at the domain that is there, the row as it was. */
  lemma ForeignMove(w: World, v: World, k: nat)
    requires ForeignOk(w) && k in w.runs && k in v.runs && v.runs == w.runs[k := v.runs[k]]
    requires v.domain == w.domain && v.service == w.service && v.row == w.row
    requires RunLeavesIt(w, w.runs[k]) ==> RunLeavesIt(v, v.runs[k])
    ensures ForeignOk(v)
  {
  }

  /** A step that neither looks a domain up nor marks one. */
  predicate PlainStep(e: Event) {
    (OfSetUp(e) && !e.FindDomain? && !e.MarkPending?) || (OfTeardown(e) && !e.FindOwnDomain? && !e.Erase?)
  }

  /** The run moves within its step, the row as it was. */
  ghost predicate Moves(w: World, e: Event)
    requires Enabled(w, e) && PlainStep(e)
  {
    var v := Apply(w, e);
    && v.row == w.row && e.run in v.runs && v.runs == w.runs[e.run := v.runs[e.run]]
    && v.runs[e.run].t == w.runs[e.run].t && InStep(w.runs[e.run].pc)
    && !v.runs[e.run].pc.Detaching? && (v.runs[e.run].pc.Advancing? ==> v.runs[e.run].pc.domain.None?)
  }

  lemma KeyMoves(w: World, e: Event)
    requires Enabled(w, e) && (e.ReadKey? || e.InsertKey? || e.RereadKey?)
    ensures Moves(w, e)
  {
  }

  lemma DbMoves(w: World, e: Event)
    requires Enabled(w, e) && (e.FindDb? || e.CreateDb? || e.CreateRefused? || e.RefindDb?)
    ensures Moves(w, e)
  {
  }

  lemma ScriptMoves(w: World, e: Event)
    requires Enabled(w, e) && (e.CleanScript? || e.EnsureSecret? || e.Upload? || e.CheckDns? || e.CallTenant?)
    ensures Moves(w, e)
  {
  }

  lemma SetUpMoves(w: World, e: Event)
    requires Enabled(w, e) && PlainStep(e) && OfSetUp(e) && !TouchesDomain(e)
    ensures Moves(w, e)
  {
    if e.ReadKey? || e.InsertKey? || e.RereadKey? {
      KeyMoves(w, e);
    } else if e.FindDb? || e.CreateDb? || e.CreateRefused? || e.RefindDb? {
      DbMoves(w, e);
    } else {
      ScriptMoves(w, e);
    }
  }

  lemma TeardownMoves(w: World, e: Event)
    requires Enabled(w, e) && PlainStep(e) && OfTeardown(e) && !TouchesDomain(e)
    ensures Moves(w, e)
  {
  }

  lemma ForeignAtPlainStep(w: World, e: Event)
    requires ForeignOk(w) && Enabled(w, e) && PlainStep(e) && !TouchesDomain(e)
    ensures ForeignOk(Apply(w, e)) && !Takes(w, e)
  {
    OthersLeaveDomain(w, e);
    if OfSetUp(e) { SetUpMoves(w, e); } else { TeardownMoves(w, e); }
    ForeignMove(w, Apply(w, e), e.run);
  }

  lemma ForeignAtLookup(w: World, e: Event)
    requires ForeignOk(w) && Enabled(w, e) && (e.FindDomain? || e.FindOwnDomain?)
    ensures ForeignOk(Apply(w, e)) && !Takes(w, e)
  {
    OthersLeaveDomain(w, e);
    ForeignMove(w, Apply(w, e), e.run);
  }

  lemma ForeignAtWrite(w: World, e: Event)
    requires ForeignOk(w) && Enabled(w, e) && (e.MarkPending? || e.Erase?) && Careful(w, e)
    ensures ForeignOk(Apply(w, e)) && !Takes(w, e)
  {
    OthersLeaveDomain(w, e);
  }

  lemma ForeignAtRowStep(w: World, e: Event)
    requires ForeignOk(w) && Enabled(w, e) && OfRow(e)
    ensures ForeignOk(Apply(w, e)) && !Takes(w, e)
  {
    OthersLeaveDomain(w, e);
  }

  lemma ForeignAtOthers(w: World, e: Event)
    requires ForeignOk(w) && Enabled(w, e) && OfOthers(e) && !TouchesDomain(e)
    ensures ForeignOk(Apply(w, e)) && !Takes(w, e)
  {
  }

  lemma StepForeign(w: World, e: Event)
    requires Inv(w) && ForeignOk(w) && Enabled(w, e) && Careful(w, e)
    ensures ForeignOk(Apply(w, e)) && !Takes(w, e)
  {
    if e.Attach? || e.Detach? {
      ForeignAtAttach(w, e);
    } else if e.ForeignMaps? || e.Unmaps? {
      ForeignAtMapping(w, e);
    } else if PlainStep(e) {
      ForeignAtPlainStep(w, e);
    } else if OfRow(e) {
      ForeignAtRowStep(w, e);
    } else if OfOthers(e) {
      ForeignAtOthers(w, e);
    } else if e.MarkPending? || e.Erase? {
      ForeignAtWrite(w, e);
    } else {
      ForeignAtLookup(w, e);
    }
  }

  lemma {:induction false} RunForeign(w: World, events: seq<Event>)
    requires Inv(w) && ForeignOk(w) && Runs(w, events) && AllCareful(w, events)
    ensures Inv(After(w, events)) && ForeignOk(After(w, events))
    decreases |events|
  {
    if events != [] {
      StepInv(w, events[0]);
      StepForeign(w, events[0]);
      RunForeign(Apply(w, events[0]), events[1..]);
    }
  }

  /** At most one database, and everything ever uploaded carries the one escrowed key. */
  lemma OneDatabaseOneKey(start: World, events: seq<Event>)
    requires Initial(start) && Runs(start, events)
    ensures var w := After(start, events);
            && |w.databases| <= 1
            && (w.row.Some? && w.script.Some? ==> w.script == w.key)
            && (forall k | k in w.runs && w.row.Some? && w.runs[k].key.Some? :: w.runs[k].key == w.key)
  {
    Reachable(start, events);
    var w := After(start, events);
    forall k | k in w.runs && w.row.Some? && w.runs[k].key.Some? ensures w.runs[k].key == w.key {
      assert RunOk(w, w.runs[k]);
    }
  }

  /**
   * A paused tenant is being set up, and an unpaused one that is not being removed
   * has failed fewer than six times in a row.
   */
  lemma PausesAreBounded(start: World, events: seq<Event>)
    requires Initial(start) && Runs(start, events) && After(start, events).row.Some?
    ensures var r := After(start, events).row.value;
            (r.paused ==> SetUp(r.state)) && (!r.paused && r.state != Deleting ==> r.attempts < MAX_ATTEMPTS)
  {
    Reachable(start, events);
  }

  // ----- the state only moves forward ------------------------------------------

  /** The statements that write provision_state, and who runs them. */
  predicate WritesState(e: Event) { e.Advance? || e.MarkForRemoval? || e.Erase? }

  lemma OthersLeaveState(w: World, e: Event)
    requires Enabled(w, e) && !WritesState(e) && w.row.Some?
    ensures Apply(w, e).row.Some? && Apply(w, e).row.value.state == w.row.value.state
  {
  }

  lemma AdvanceMovesForward(w: World, e: Event)
    requires Inv(w) && Enabled(w, e) && w.row.Some? && e.Advance?
    ensures var s := w.row.value.state; var after := Apply(w, e).row;
            after.Some? && (after.value.state == s || (TokenIs(w, e.run) && SetUp(s) && after.value.state == Next(s)))
  {
    assert RunOk(w, w.runs[e.run]);
    if TokenIs(w, e.run) { assert HolderOk(w, w.row.value, w.runs[e.run]); }
  }

  lemma EraseEndsRow(w: World, e: Event)
    requires Inv(w) && Enabled(w, e) && w.row.Some? && e.Erase?
    ensures var after := Apply(w, e).row;
            if after.None? then TokenIs(w, e.run) && w.row.value.state == Deleting else after == w.row
  {
    assert RunOk(w, w.runs[e.run]);
    if TokenIs(w, e.run) { assert HolderOk(w, w.row.value, w.runs[e.run]); }
  }

  /**
   * A step of the world moves provision_state one place along its order, or
   * into deleting, which only the row's end leaves; and only the run holding
   * the lease moves it along or ends the row.
   */
  lemma StateMovesForward(w: World, e: Event)
    requires Inv(w) && Enabled(w, e) && w.row.Some?
    ensures var s := w.row.value.state; var after := Apply(w, e).row;
            if after.None? then e.Erase? && TokenIs(w, e.run) && s == Deleting
            else
              || after.value.state == s
              || (e.MarkForRemoval? && after.value.state == Deleting)
              || (e.Advance? && TokenIs(w, e.run) && SetUp(s) && after.value.state == Next(s))
  {
    if !WritesState(e) {
      OthersLeaveState(w, e);
    } else if e.Advance? {
      AdvanceMovesForward(w, e);
    } else if e.Erase? {
      EraseEndsRow(w, e);
    }
  }

  /**
   * What a run without the lease may do to the row: mark the intent to attach, the
   * one statement that names no token.
   */
  function StaleMark(w: World, e: Event): Option<Row> {
    if e.MarkPending? && w.row.Some? then Some(w.row.value.(domain := Pending)) else w.row
  }

  lemma StaleSetUpStep(w: World, e: Event)
    requires Enabled(w, e) && OfSetUp(e) && !TokenIs(w, e.run)
    ensures Apply(w, e).row == StaleMark(w, e)
  {
  }

  lemma StaleOtherStep(w: World, e: Event)
    requires Enabled(w, e) && !OfSetUp(e) && RunOf(e).Some? && !TokenIs(w, RunOf(e).value)
    ensures Apply(w, e).row == w.row
  {
  }

  /**
   * A run that lost its lease changes no column of the row, whatever it was
   * about to write, but for one: its intent to attach lands all the same.
   */
  lemma LostLeaseChangesNothing(w: World, e: Event)
    requires Enabled(w, e) && RunOf(e).Some? && !TokenIs(w, RunOf(e).value)
    ensures Apply(w, e).row == StaleMark(w, e)
  {
    if OfSetUp(e) { StaleSetUpStep(w, e); } else { StaleOtherStep(w, e); }
  }

  // ----- every run settles --------------------------------------------------------

  /** The loop's bound: PROVISION_STATES.length + 1 turns. */
  const LOOP_BOUND: nat := 7

  /**
   * No run ever uses up its loop: a run about to take another turn has taken
   * fewer than the bound, even with a removal landing between any two steps.
   */
  lemma EveryRunSettles(start: World, events: seq<Event>, k: nat)
    requires Initial(start) && Runs(start, events) && k in After(start, events).runs
    ensures After(start, events).runs[k].loads < LOOP_BOUND
  {
    Reachable(start, events);
    assert RunOk(After(start, events), After(start, events).runs[k]);
  }

  /** Each turn the holder completes leaves the tenant strictly further on, or being removed. */
  lemma TurnRaisesRank(w: World, k: nat, auditFails: bool)
    requires Inv(w) && k in w.runs && w.runs[k].pc.Advancing? && TokenIs(w, k)
    ensures var v := DoAdvance(w, k, auditFails);
            v.row.Some? && Rank(v.row.value.state) > Rank(w.runs[k].t.state)
  {
    assert RunOk(w, w.runs[k]);
    assert HolderOk(w, w.row.value, w.runs[k]);
  }

  // ----- nothing is taken over -----------------------------------------------------

  /** The run makes a step that brings it to a point. */
  ghost predicate Reaches(w: World, e: Event, pc: Pc) {
    Enabled(w, e) && RunOf(e).Some? && RunOf(e).value in w.runs && w.runs[RunOf(e).value].pc != pc
        && At(Apply(w, e), RunOf(e).value, pc)
  }

  /** A step of looking at the hostname before an attach. */
  predicate LooksAtHostname(e: Event) { e.FindDomain? || e.CheckDns? || e.MarkPending? }

  lemma SetUpStaysAway(w: World, e: Event, pc: Pc)
    requires InAttachWindow(pc) && OfSetUp(e) && !LooksAtHostname(e)
    ensures !Reaches(w, e, pc)
  {
  }

  lemma OthersStayAway(w: World, e: Event, pc: Pc)
    requires InAttachWindow(pc) && !OfSetUp(e)
    ensures !Reaches(w, e, pc)
  {
  }

  lemma LookingLeadsOn(w: World, e: Event)
    requires LooksAtHostname(e)
    ensures Reaches(w, e, Attaching) ==> e.MarkPending?
    ensures Reaches(w, e, MarkingPending) ==> e.CheckDns? && !e.found
    ensures Reaches(w, e, CheckingDns) ==> e.FindDomain? && w.domain.None?
  {
  }

  /** An attach comes after its intent, and that after looking and finding neither a domain nor a DNS record. */
  lemma AttachComesLast(w: World, e: Event)
    ensures Reaches(w, e, Attaching) ==> e.MarkPending?
    ensures Reaches(w, e, MarkingPending) ==> e.CheckDns? && !e.found
    ensures Reaches(w, e, CheckingDns) ==> e.FindDomain? && w.domain.None?
  {
    if LooksAtHostname(e) {
      LookingLeadsOn(w, e);
    } else if OfSetUp(e) {
      SetUpStaysAway(w, e, Attaching);
      SetUpStaysAway(w, e, MarkingPending);
      SetUpStaysAway(w, e, CheckingDns);
    } else {
      OthersStayAway(w, e, Attaching);
      OthersStayAway(w, e, MarkingPending);
      OthersStayAway(w, e, CheckingDns);
    }
  }

  /**
   * What a set-up finds at its hostname is kept as the tenant's own exactly when it
   * routes to its Worker and is the recorded domain, or an attach was under way.
   * Anything else, or a DNS record, is never taken over: the step fails for good,
   * which pauses the tenant for its owner.
   */
  lemma FoundIsOwnIff(w: World, k: nat)
    requires At(w, k, FindingDomain) && w.domain.Some?
    ensures var d, v := w.domain.value, DoFindDomain(w, k);
            && k in v.runs
            && v.runs[k].pc == if d.service == w.service && (w.runs[k].t.domain == Recorded(d.id)
                                   || w.runs[k].t.domain == Pending)
                               then Advancing(None, Some(d.id)) else Failing(true)
  {
  }

  lemma RecordFoundFails(w: World, k: nat, found: bool)
    requires At(w, k, CheckingDns)
    ensures At(Apply(w, CheckDns(k, found)), k, if found then Failing(true) else MarkingPending)
  {
  }

  lemma GoodReasonPauses(w: World, k: nat)
    requires Inv(w) && At(w, k, Failing(true)) && TokenIs(w, k) && w.row.value.state == w.runs[k].t.state
    ensures var v := DoRecordFailure(w, k);
            v.row.Some? && (v.row.value.paused <==> w.row.value.state != Deleting)
  {
  }

  /** A run that ends gives its lease up, and changes nothing else; one that dies leaves it to run out. */
  lemma EndsLetGo(w: World, k: nat)
    requires At(w, k, Leaving) && w.row.Some?
    ensures Apply(w, Release(k)).row == if TokenIs(w, k) then Some(w.row.value.(leaseUntil := None, token := None))
                                        else w.row
    ensures Apply(w, Dies(k)).row == w.row
    ensures k !in Apply(w, Release(k)).runs && k !in Apply(w, Dies(k)).runs
  {
  }

  /** A call that takes effect without its answer arriving. */
  predicate LosesAnswer(e: Event) {
    (e.CleanScript? || e.Upload? || e.Attach? || e.Detach? || e.DeleteScript? || e.DeleteDb?) && !e.answered
  }

  lemma LostSetUpAnswerFails(w: World, e: Event)
    requires Enabled(w, e) && LosesAnswer(e) && OfSetUp(e)
    ensures At(Apply(w, e), e.run, Failing(false)) && Apply(w, e).row == w.row
  {
  }

  lemma LostTeardownAnswerFails(w: World, e: Event)
    requires Enabled(w, e) && LosesAnswer(e) && !OfSetUp(e)
    ensures At(Apply(w, e), e.run, Failing(false)) && Apply(w, e).row == w.row
  {
  }

  /** The step then fails like any other, to be tried again: nothing is recorded that was not answered. */
  lemma LostAnswersAreRetried(w: World, e: Event)
    requires Enabled(w, e) && LosesAnswer(e)
    ensures At(Apply(w, e), e.run, Failing(false)) && Apply(w, e).row == w.row
  {
    if OfSetUp(e) { LostSetUpAnswerFails(w, e); } else { LostTeardownAnswerFails(w, e); }
  }

  /** A step whose state moved on but whose audit entry failed has failed, and its failure changes no column. */
  lemma LateFailureChangesNothing(w: World, k: nat)
    requires Inv(w) && k in w.runs && w.runs[k].pc.Advancing?
    ensures var v := DoAdvance(w, k, true);
            && At(v, k, Failing(false))
            && (TokenIs(w, k) && w.row.value.state == w.runs[k].t.state ==>
                v.row.value.state == Next(w.row.value.state) && DoRecordFailure(v, k).row == v.row)
  {
    assert RunOk(w, w.runs[k]);
  }

  /** A teardown deletes the database on record, or, with none on record, the one of the tenant's name. */
  lemma TeardownFindsDatabase(w: World, k: nat)
    requires At(w, k, FindingOwnDb)
    ensures var t := w.runs[k].t;
            At(DoFindOwnDb(w, k), k, if t.d1Id.Some? then DeletingDb(t.d1Id.value)
                                     else if w.databases == [] then Erasing else DeletingDb(w.databases[0]))
  {
  }

  // ----- what can follow ----------------------------------------------------------

  /** Some careful run leads from one world to another. */
  ghost predicate Leads(w: World, v: World) {
    exists events :: Runs(w, events) && AllCareful(w, events) && After(w, events) == v
  }

  lemma {:induction false} RunsThen(w: World, events: seq<Event>, e: Event)
    requires Runs(w, events) && AllCareful(w, events) && Enabled(After(w, events), e) && Careful(After(w, events), e)
    ensures Runs(w, events + [e]) && AllCareful(w, events + [e])
    ensures After(w, events + [e]) == Apply(After(w, events), e)
    decreases |events|
  {
    if events == [] {
      assert Runs(Apply(w, e), []) && AllCareful(Apply(w, e), []);
    } else {
      RunsThen(Apply(w, events[0]), events[1..], e);
      assert (events + [e])[1..] == events[1..] + [e];
    }
  }

  lemma LeadsHere(w: World)
    ensures Leads(w, w)
  {
    assert Runs(w, []) && AllCareful(w, []) && After(w, []) == w;
  }

  lemma LeadsOn(u: World, w: World, e: Event, v: World)
    requires Leads(u, w) && Enabled(w, e) && Careful(w, e) && Apply(w, e) == v
    ensures Leads(u, v)
  {
    var events :| Runs(u, events) && AllCareful(u, events) && After(u, events) == w;
    RunsThen(u, events, e);
  }

  /**
   * From wherever earlier tries left the tenant, a teardown whose calls are
   * answered within its lease ends with nothing left.
   */
  lemma TeardownFinishes(w: World, k: nat)
    requires Inv(w) && At(w, k, FindingOwnDomain) && Live(w, k)
    ensures exists v :: Leads(w, v) && v.row.None? && NothingLeft(v)
  {
    LeadsHere(w);
    var detached := DetachTurn(w, k);
    var deleted := DeleteTurn(w, detached, k);
    LeadsOn(w, deleted, Erase(k), DoErase(deleted, k));
    HolderErasesAll(deleted, k);
  }

  lemma DetachIfFound(u: World, w: World, k: nat) returns (v: World)
    requires Leads(u, w) && Inv(w) && Live(w, k) && (w.runs[k].pc.Detaching? || w.runs[k].pc == DeletingScript)
    ensures Leads(u, v) && Inv(v) && At(v, k, DeletingScript) && Live(v, k)
  {
    v := w;
    if w.runs[k].pc.Detaching? {
      v := DoDetach(w, k, true);
      LeadsOn(u, w, Detach(k, true), v);
      DetachInv(w, k, true);
    }
  }

  lemma DetachTurn(w: World, k: nat) returns (v: World)
    requires Inv(w) && At(w, k, FindingOwnDomain) && Live(w, k)
    ensures Leads(w, v) && Inv(v) && At(v, k, DeletingScript) && Live(v, k)
  {
    LeadsHere(w);
    var found := DoFindOwnDomain(w, k);
    LeadsOn(w, w, FindOwnDomain(k), found);
    FindOwnDomainInv(w, k);
    v := DetachIfFound(w, found, k);
  }

  lemma DeleteIfFound(u: World, w: World, k: nat) returns (v: World)
    requires Leads(u, w) && Inv(w) && Live(w, k) && (w.runs[k].pc.DeletingDb? || w.runs[k].pc == Erasing)
    ensures Leads(u, v) && Inv(v) && At(v, k, Erasing) && Live(v, k)
  {
    v := w;
    if w.runs[k].pc.DeletingDb? {
      v := DoDeleteDb(w, k, true);
      LeadsOn(u, w, DeleteDb(k, true), v);
      DeleteDbInv(w, k, true);
    }
  }

  lemma DeleteTurn(u: World, w: World, k: nat) returns (v: World)
    requires Leads(u, w) && Inv(w) && At(w, k, DeletingScript) && Live(w, k)
    ensures Leads(u, v) && Inv(v) && At(v, k, Erasing) && Live(v, k)
  {
    var bare := DoSetScript(w, k, None, FindingOwnDb);
    LeadsOn(u, w, DeleteScript(k, true), bare);
    DeleteScriptInv(w, k, FindingOwnDb);
    var found := DoFindOwnDb(bare, k);
    LeadsOn(u, bare, FindOwnDb(k), found);
    FindOwnDbInv(bare, k);
    v := DeleteIfFound(u, found, k);
  }

  // ----- a stale intent to attach -----------------------------------------------------

  /**
   * Over every run in which intents are marked with care: nobody else's Custom
   * Domain is detached, or recorded as the tenant's.
   */
  lemma ForeignDomainsUntouched(start: World, events: seq<Event>, e: Event)
    requires Initial(start) && Runs(start, events) && AllCareful(start, events)
    requires Enabled(After(start, events), e) && Careful(After(start, events), e)
    ensures !Takes(After(start, events), e)
    ensures var w, v := After(start, events), Apply(After(start, events), e);
            v.row.Some? ==> LeavesIt(v, v.row.value.domain)
  {
    InitialInv(start);
    RunForeign(start, events);
    StepForeign(After(start, events), e);
  }

  /** A run whose lease lasts marks its intent with care, so only a stale one can fail to. */
  lemma LiveMarksAreCareful(w: World, k: nat)
    requires Inv(w) && At(w, k, MarkingPending) && Live(w, k)
    ensures Careful(w, MarkPending(k))
  {
  }

  /** A holder about to tear down a tenant whose row says an attach was under way takes what routes to its Worker. */
  lemma HolderDetaches(u: World, w: World, k: nat)
    requires Leads(u, w) && At(w, k, FindingOwnDomain) && Live(w, k) && w.runs[k].t.domain == Pending && ForeignHere(w)
    ensures exists v, f :: Leads(u, v) && Enabled(v, f) && Careful(v, f) && Takes(v, f)
  {
    var found := DoFindOwnDomain(w, k);
    LeadsOn(u, w, FindOwnDomain(k), found);
    assert found.runs[k].pc == Detaching(w.domain.value.id);
    assert Takes(found, Detach(k, true));
  }

  lemma NextRunDetaches(u: World, w: World, k: nat)
    requires Leads(u, w) && w.row.Some? && w.row.value.domain == Pending && w.row.value.state == Deleting
             && ForeignHere(w)
    requires At(w, k, Renewing) && TokenIs(w, k)
    ensures exists v, f :: Leads(u, v) && Enabled(v, f) && Careful(v, f) && Takes(v, f)
  {
    var renewed := DoRenew(w, k);
    LeadsOn(u, w, Renew(k), renewed);
    LeadsOn(u, renewed, Load(k), DoLoad(renewed, k));
    HolderDetaches(u, DoLoad(renewed, k), k);
  }

  /**
   * The removal of a tenant whose row says an attach was under way detaches what
   * routes to its Worker, whosever it is.
   */
  lemma TeardownTakesForeign(w: World)
    requires Inv(w) && w.row.Some? && w.row.value.domain == Pending && ForeignHere(w)
    ensures exists v, f :: Leads(w, v) && Enabled(v, f) && Careful(v, f) && Takes(v, f)
  {
    var k := w.nextId;
    var removing := w.(row := Some(MarkedForRemoval(w.row.value, false)));
    var free := removing.(now := LeaseEnd(w));
    LeadsHere(w);
    LeadsOn(w, w, MarkForRemoval(false), removing);
    LeadsOn(w, removing, Time(LeaseEnd(w)), free);
    LeadsOn(w, free, Acquire(k, true), DoAcquire(free, k));
    NextRunDetaches(w, DoAcquire(free, k), k);
  }

  function LeaseEnd(w: World): int {
    if w.row.Some? && w.row.value.leaseUntil.Some? && w.row.value.leaseUntil.value > w.now
    then w.row.value.leaseUntil.value else w.now
  }

  /**
   * Exactly when a step leaves other people's domains safe: no run after it,
   * careful itself, takes one if and only if the step was careful. A stale
   * intent that lands while somebody else's domain routes to the tenant's
   * Worker makes the tenant's removal detach that domain.
   */
  lemma CarefulIff(start: World, events: seq<Event>, e: Event)
    requires Initial(start) && Runs(start, events) && AllCareful(start, events) && Enabled(After(start, events), e)
    ensures var w := After(start, events);
            Careful(w, e) <==> forall v, f | Leads(Apply(w, e), v) && Enabled(v, f) && Careful(v, f) :: !Takes(v, f)
  {
    InitialInv(start);
    RunForeign(start, events);
    var w := After(start, events);
    StepInv(w, e);
    if Careful(w, e) {
      StepForeign(w, e);
      forall v, f | Leads(Apply(w, e), v) && Enabled(v, f) && Careful(v, f) ensures !Takes(v, f) {
        var more :| Runs(Apply(w, e), more) && AllCareful(Apply(w, e), more) && After(Apply(w, e), more) == v;
        RunForeign(Apply(w, e), more);
        StepForeign(v, f);
      }
    } else {
      TeardownTakesForeign(Apply(w, e));
    }
  }
}
