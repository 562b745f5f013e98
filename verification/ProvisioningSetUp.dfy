/**
 * What setting a tenant up comes to (platform/src/provisioning.ts, addresses.ts,
 * keys.ts): on every run of the machine each state means what it says, and from
 * wherever earlier tries left the tenant, a run that keeps its lease and has its
 * calls answered takes it to ready.
 */
module ProvisioningSetUp {
  import opened Common
  import opened Provisioning

  // ----- what a tenant has at each state -----------------------------------------

  /** From db_created on there is the one database recorded, from uploaded on the script. */
  predicate Placed(w: World, row: Row) {
    && (row.state in {DbCreated, Uploaded, Migrated, Ready} ==> row.d1Id.Some? && w.databases == [row.d1Id.value])
    && (row.state in {Uploaded, Migrated, Ready} ==> w.script.Some?)
  }

  /** Past the upload of its step. */
  predicate PastUpload(r: Run) {
    InAttachWindow(r.pc) || r.pc == FindingDomain || (r.pc.Advancing? && r.t.state == DbCreated)
  }

  /** What a run that holds the lease has made and not yet recorded. */
  predicate HolderPlaced(w: World, r: Run) {
    && (r.pc.Advancing? && r.t.state == Requested ==> r.pc.d1Id.Some? && w.databases == [r.pc.d1Id.value])
    && (PastUpload(r) ==> w.script.Some?)
    && (r.pc == EnsuringSecret || r.pc == UploadingScript ==> w.script.None?)
  }

  predicate TheHolderPlaced(w: World) {
    w.row.Some? && w.row.value.token.Some? && w.row.value.token.value in w.runs
    ==> HolderPlaced(w, w.runs[w.row.value.token.value])
  }

  predicate Built(w: World) { w.row.Some? ==> Placed(w, w.row.value) && TheHolderPlaced(w) }

  /** A run moves on, the row's state and what is there as they were. */
  lemma BuiltMove(w: World, v: World, k: nat)
    requires Built(w) && k in w.runs && k in v.runs && v.runs == w.runs[k := v.runs[k]]
    requires v.databases == w.databases && v.script == w.script && (v.row.Some? ==> w.row.Some?)
    requires v.row.Some? ==> var r, s := v.row.value, w.row.value;
             r.state == s.state && r.d1Id == s.d1Id && r.token == s.token
    requires TokenIs(w, k) ==> HolderPlaced(v, v.runs[k])
    ensures Built(v)
  {
  }

  lemma StepFits(w: World, k: nat)
    requires Inv(w) && k in w.runs
    ensures PcFits(w.runs[k].pc, w.runs[k].t.state) && |w.databases| <= 1
  {
    assert RunOk(w, w.runs[k]);
  }

  lemma InsertFrame(w: World, k: nat, candidate: int)
    requires At(w, k, InsertingKey)
    ensures var v := DoInsertKey(w, k, candidate);
            && k in v.runs && v.runs == w.runs[k := v.runs[k]] && v.row == w.row
            && v.databases == w.databases && v.script == w.script
            && (v.runs[k].pc == RereadingKey || v.runs[k].pc == Failing(false))
  {
  }

  lemma SecretFrame(w: World, k: nat, candidate: int)
    requires At(w, k, EnsuringSecret)
    ensures var v := DoEnsureSecret(w, k, candidate);
            && k in v.runs && v.runs == w.runs[k := v.runs[k]] && v.row == w.row
            && v.databases == w.databases && v.script == w.script && v.runs[k].pc == UploadingScript
  {
  }

  lemma KeyStepFrame(w: World, e: Event)
    requires Enabled(w, e) && (e.ReadKey? || e.InsertKey? || e.RereadKey? || e.EnsureSecret?)
    ensures var v, k := Apply(w, e), e.run;
            && k in w.runs && k in v.runs && v.runs == w.runs[k := v.runs[k]] && v.row == w.row
            && v.databases == w.databases && v.script == w.script
            && !v.runs[k].pc.Advancing? && !PastUpload(v.runs[k])
            && (v.runs[k].pc == UploadingScript <==> w.runs[k].pc == EnsuringSecret) && v.runs[k].pc != EnsuringSecret
  {
    var k := e.run;
    if e.InsertKey? {
      InsertFrame(w, k, e.candidate);
    } else if e.EnsureSecret? {
      SecretFrame(w, k, e.candidate);
    } else {
      assert Apply(w, e) == Obtain(w, k) || Apply(w, e) == Goto(w, k, InsertingKey);
    }
  }

  lemma BuiltAtKeyStep(w: World, e: Event)
    requires Built(w) && Enabled(w, e) && (e.ReadKey? || e.InsertKey? || e.RereadKey? || e.EnsureSecret?)
    ensures Built(Apply(w, e))
  {
    KeyStepFrame(w, e);
    BuiltMove(w, Apply(w, e), e.run);
  }

  lemma BuiltAtFound(w: World, k: nat, otherwise: Pc)
    requires |w.databases| <= 1 && Built(w) && k in w.runs && w.runs[k].t.state == Requested
    requires otherwise == CreatingDb || otherwise == Failing(false)
    ensures Built(DoFindDb(w, k, otherwise))
  {
    BuiltMove(w, DoFindDb(w, k, otherwise), k);
  }

  lemma BuiltAtDbFound(w: World, e: Event)
    requires |w.databases| <= 1 && Built(w) && Enabled(w, e) && (e.FindDb? || e.CreateRefused? || e.RefindDb?)
    requires w.runs[e.run].t.state == Requested
    ensures Built(Apply(w, e))
  {
    if e.CreateRefused? {
      BuiltMove(w, Goto(w, e.run, RefindingDb), e.run);
    } else {
      BuiltAtFound(w, e.run, if e.FindDb? then CreatingDb else Failing(false));
    }
  }

  lemma BuiltAtDbCreated(w: World, k: nat, answered: bool)
    requires Inv(w) && Built(w) && At(w, k, CreatingDb) && TokenIs(w, k)
    ensures Built(DoCreateDb(w, k, answered))
  {
    assert RunOk(w, w.runs[k]);
    assert HolderOk(w, w.row.value, w.runs[k]);
  }

  lemma BuiltAtCleaning(w: World, k: nat, then_: Pc)
    requires Inv(w) && Built(w) && At(w, k, CleaningScript) && (TokenIs(w, k) || w.script.None?)
    requires then_ == EnsuringSecret || then_ == Failing(false)
    ensures Built(DoSetScript(w, k, None, then_))
  {
    assert RunOk(w, w.runs[k]);
    if TokenIs(w, k) {
      assert HolderOk(w, w.row.value, w.runs[k]);
    } else {
      BuiltMove(w, DoSetScript(w, k, None, then_), k);
    }
  }

  lemma BuiltAtUpload(w: World, k: nat, then_: Pc)
    requires Inv(w) && Built(w) && At(w, k, UploadingScript) && TokenIs(w, k)
    requires then_ == FindingDomain || then_ == Failing(false)
    ensures Built(DoSetScript(w, k, w.runs[k].key, then_))
  {
    assert RunOk(w, w.runs[k]);
  }

  /** The address comes after the upload, and leaves it. */
  lemma DomainStepFrame(w: World, e: Event)
    requires Enabled(w, e) && (e.FindDomain? || e.CheckDns? || e.MarkPending? || e.Attach?)
    ensures var v, k := Apply(w, e), e.run;
            && k in w.runs && k in v.runs && v.runs == w.runs[k := v.runs[k]] && v.runs[k].t == w.runs[k].t
            && v.databases == w.databases && v.script == w.script && (v.row.Some? <==> w.row.Some?)
            && (v.row.Some? ==> v.row.value == w.row.value.(domain := v.row.value.domain))
            && (InAttachWindow(w.runs[k].pc) || w.runs[k].pc == FindingDomain)
  {
  }

  lemma BuiltAtDomainStep(w: World, e: Event)
    requires Built(w) && Enabled(w, e) && (e.FindDomain? || e.CheckDns? || e.MarkPending? || e.Attach?)
    requires w.runs[e.run].t.state == DbCreated
    ensures Built(Apply(w, e))
  {
    DomainStepFrame(w, e);
    BuiltMove(w, Apply(w, e), e.run);
  }

  lemma BuiltAtCall(w: World, k: nat)
    requires Inv(w) && Built(w) && At(w, k, CallingTenant)
    ensures Built(Goto(w, k, Advancing(None, None)))
  {
    assert RunOk(w, w.runs[k]);
    BuiltMove(w, Goto(w, k, Advancing(None, None)), k);
  }

  lemma BuiltAtFirstStep(w: World, e: Event)
    requires Inv(w) && Built(w) && Enabled(w, e)
    requires e.FindDb? || e.CreateDb? || e.CreateRefused? || e.RefindDb?
    ensures Built(Apply(w, e))
  {
    if e.CreateDb? {
      BuiltAtDbCreated(w, e.run, e.answered);
    } else {
      StepFits(w, e.run);
      BuiltAtDbFound(w, e);
    }
  }

  lemma BuiltAtScript(w: World, e: Event)
    requires Inv(w) && Built(w) && Enabled(w, e) && (e.CleanScript? || e.Upload?)
    ensures Built(Apply(w, e))
  {
    if e.CleanScript? {
      BuiltAtCleaning(w, e.run, if e.answered then EnsuringSecret else Failing(false));
    } else {
      BuiltAtUpload(w, e.run, if e.answered then FindingDomain else Failing(false));
    }
  }

  lemma BuiltAtSetUp(w: World, e: Event)
    requires Inv(w) && Built(w) && Enabled(w, e) && OfSetUp(e)
    ensures Built(Apply(w, e))
  {
    if e.ReadKey? || e.InsertKey? || e.RereadKey? || e.EnsureSecret? {
      BuiltAtKeyStep(w, e);
    } else if e.FindDb? || e.CreateDb? || e.CreateRefused? || e.RefindDb? {
      BuiltAtFirstStep(w, e);
    } else if e.CleanScript? || e.Upload? {
      BuiltAtScript(w, e);
    } else if e.CallTenant? {
      BuiltAtCall(w, e.run);
    } else {
      StepFits(w, e.run);
      BuiltAtDomainStep(w, e);
    }
  }

  /** A teardown runs on a row that is being removed, of which nothing is asked. */
  lemma BuiltAtTakingDown(w: World, v: World, k: nat)
    requires Inv(w) && Built(w) && k in w.runs && k in v.runs && InTeardown(w.runs[k].pc) && TokenIs(w, k)
    requires v.runs == w.runs[k := v.runs[k]] && v.row == w.row && v.runs[k].t == w.runs[k].t
    requires InTeardown(v.runs[k].pc) || v.runs[k].pc.Failing?
    ensures Built(v)
  {
    assert RunOk(w, w.runs[k]);
    assert HolderOk(w, w.row.value, w.runs[k]);
  }

  lemma BuiltAtErase(w: World, k: nat)
    requires Built(w) && k in w.runs
    ensures Built(DoErase(w, k))
  {
    if !TokenIs(w, k) { BuiltMove(w, DoErase(w, k), k); }
  }

  lemma BuiltAtStaleTeardown(w: World, e: Event)
    requires Built(w) && Enabled(w, e) && OfTeardown(e) && !e.Erase? && !TokenIs(w, e.run)
    ensures Built(Apply(w, e))
  {
    if e.DeleteDb? { NoDbDropped(w.databases, w.runs[e.run].pc.id); }
    BuiltMove(w, Apply(w, e), e.run);
  }

  lemma BuiltAtTeardown(w: World, e: Event)
    requires Inv(w) && Built(w) && Enabled(w, e) && OfTeardown(e) && !e.Erase?
    ensures Built(Apply(w, e))
  {
    if TokenIs(w, e.run) {
      assert RunOk(w, w.runs[e.run]);
      BuiltAtTakingDown(w, Apply(w, e), e.run);
    } else {
      BuiltAtStaleTeardown(w, e);
    }
  }

  lemma BuiltAtAdvance(w: World, k: nat, auditFails: bool)
    requires Inv(w) && Built(w) && k in w.runs && w.runs[k].pc.Advancing?
    ensures Built(DoAdvance(w, k, auditFails))
  {
    assert RunOk(w, w.runs[k]);
    if TokenIs(w, k) {
      assert HolderOk(w, w.row.value, w.runs[k]);
    } else {
      BuiltMove(w, DoAdvance(w, k, auditFails), k);
    }
  }

  lemma BuiltAtRenew(w: World, k: nat)
    requires Built(w) && At(w, k, Renewing)
    ensures Built(DoRenew(w, k))
  {
    BuiltMove(w, DoRenew(w, k), k);
  }

  lemma BuiltAtLoad(w: World, k: nat)
    requires Built(w) && At(w, k, Loading)
    ensures Built(DoLoad(w, k))
  {
    BuiltMove(w, DoLoad(w, k), k);
  }

  lemma BuiltAtFailing(w: World, k: nat, permanent: bool)
    requires Built(w) && k in w.runs
    ensures Built(Goto(w, k, Failing(permanent)))
  {
    BuiltMove(w, Goto(w, k, Failing(permanent)), k);
  }

  lemma BuiltAtRecordFailure(w: World, k: nat)
    requires Built(w) && k in w.runs && w.runs[k].pc.Failing?
    ensures Built(DoRecordFailure(w, k))
  {
    BuiltMove(w, DoRecordFailure(w, k), k);
  }

  lemma BuiltAtRunStep(w: World, e: Event)
    requires Built(w) && Enabled(w, e) && (e.Renew? || e.Load? || e.StepFails? || e.RecordFailure?)
    ensures Built(Apply(w, e))
  {
    match e
    case Renew(k) => BuiltAtRenew(w, k);
    case Load(k) => BuiltAtLoad(w, k);
    case StepFails(k, permanent) => BuiltAtFailing(w, k, permanent);
    case RecordFailure(k) => BuiltAtRecordFailure(w, k);
  }

  lemma BuiltAtLease(w: World, e: Event)
    requires Built(w) && Enabled(w, e) && (e.Acquire? || e.Release? || e.Dies?)
    ensures Built(Apply(w, e))
  {
  }

  lemma BuiltAtOthers(w: World, e: Event)
    requires Built(w) && Enabled(w, e) && OfOthers(e)
    ensures Built(Apply(w, e))
  {
  }

  lemma StepBuilt(w: World, e: Event)
    requires Inv(w) && Built(w) && Enabled(w, e)
    ensures Built(Apply(w, e))
  {
    if OfOthers(e) {
      BuiltAtOthers(w, e);
    } else if OfSetUp(e) {
      BuiltAtSetUp(w, e);
    } else if e.Erase? {
      BuiltAtErase(w, e.run);
    } else if OfTeardown(e) {
      BuiltAtTeardown(w, e);
    } else if e.Advance? {
      BuiltAtAdvance(w, e.run, e.auditFails);
    } else if e.Acquire? || e.Release? || e.Dies? {
      BuiltAtLease(w, e);
    } else {
      BuiltAtRunStep(w, e);
    }
  }

  lemma {:induction false} RunBuilt(w: World, events: seq<Event>)
    requires Inv(w) && Built(w) && Runs(w, events)
    ensures Inv(After(w, events)) && Built(After(w, events))
    decreases |events|
  {
    if events != [] {
      StepInv(w, events[0]);
      StepBuilt(w, events[0]);
      RunBuilt(Apply(w, events[0]), events[1..]);
    }
  }

  lemma ReachableBuilt(start: World, events: seq<Event>)
    requires Initial(start) && Runs(start, events)
    ensures Inv(After(start, events)) && Built(After(start, events))
  {
    InitialInv(start);
    RunBuilt(start, events);
  }

  /**
   * Whatever interleaved, failed or was tried again: a tenant that reached
   * db_created has the one database its row records, and one that reached uploaded
   * its script, with the escrowed key in it.
   */
  lemma StatesMeanWhatTheySay(start: World, events: seq<Event>)
    requires Initial(start) && Runs(start, events) && After(start, events).row.Some?
    ensures var w := After(start, events); var r := w.row.value;
            && (r.state in {DbCreated, Uploaded, Migrated, Ready} ==> r.d1Id.Some? && w.databases == [r.d1Id.value])
            && (r.state in {Uploaded, Migrated, Ready} ==> w.key.Some? && w.script == w.key)
  {
    ReachableBuilt(start, events);
  }

  /** Every upload starts from no script, whatever an earlier try left behind. */
  lemma UploadsStartClean(start: World, events: seq<Event>, k: nat, answered: bool)
    requires Initial(start) && Runs(start, events) && Enabled(After(start, events), Upload(k, answered))
    ensures After(start, events).script.None?
    ensures Apply(After(start, events), Upload(k, answered)).script == After(start, events).key
  {
    ReachableBuilt(start, events);
    assert RunOk(After(start, events), After(start, events).runs[k]);
  }

  /** A database whose creation's answer was lost is looked for by name in the same step, and recorded. */
  lemma LostCreateIsFound(w: World, k: nat)
    requires Inv(w) && At(w, k, CreatingDb) && TokenIs(w, k)
    ensures var v := DoCreateDb(w, k, false);
            && At(v, k, RefindingDb) && |v.databases| == 1
            && At(DoFindDb(v, k, Failing(false)), k, Advancing(Some(v.databases[0]), None))
  {
    assert HolderOk(w, w.row.value, w.runs[k]);
  }

  // ----- from anywhere to ready ------------------------------------------------------

  /** Reached from `u` by a careful run, with run k holding a lease that lasts. */
  ghost predicate Going(u: World, w: World, k: nat) { Leads(u, w) && Inv(w) && Built(w) && Live(w, k) }

  /** The run's next step, its answer arriving. */
  lemma Go(u: World, w: World, k: nat, e: Event, v: World)
    requires Going(u, w, k) && Enabled(w, e) && Careful(w, e) && v == Apply(w, e) && Live(v, k)
    ensures Going(u, v, k)
  {
    LeadsOn(u, w, e, v);
    StepInv(w, e);
    StepBuilt(w, e);
  }

  /** The step the row's state calls for has begun: the run has read the row. */
  predicate Began(w: World, k: nat) {
    k in w.runs && w.row.Some? && w.runs[k].pc == FirstPc(w.runs[k].t)
        && w.runs[k].t == Loaded(w.row.value.state, w.row.value.attempts, w.row.value.d1Id, w.row.value.domain)
  }

  lemma Begin(u: World, w: World, k: nat) returns (v: World)
    requires Going(u, w, k) && At(w, k, Renewing)
    ensures Going(u, v, k) && Began(v, k) && v == w.(row := v.row, runs := v.runs)
    ensures v.row == Some(w.row.value.(leaseUntil := v.row.value.leaseUntil))
  {
    var renewed := DoRenew(w, k);
    Go(u, w, k, Renew(k), renewed);
    v := DoLoad(renewed, k);
    Go(u, renewed, k, Load(k), v);
  }

  /** The key, found or made. */
  lemma GetKey(u: World, w: World, k: nat) returns (v: World)
    requires Going(u, w, k) && At(w, k, ReadingKey)
    ensures Going(u, v, k) && v == w.(key := v.key, runs := v.runs) && v.key.Some? && k in v.runs
    ensures v.runs[k].pc == AfterKey(w.runs[k].t) && v.runs[k].t == w.runs[k].t && v.runs[k].key == v.key
  {
    if w.key.Some? {
      v := Obtain(w, k);
      Go(u, w, k, ReadKey(k), v);
    } else {
      var missing := Goto(w, k, InsertingKey);
      Go(u, w, k, ReadKey(k), missing);
      var made := DoInsertKey(missing, k, 0);
      Go(u, missing, k, InsertKey(k, 0), made);
      v := Obtain(made, k);
      Go(u, made, k, RereadKey(k), v);
    }
  }

  /** The database, found or made. */
  lemma GetDatabase(u: World, w: World, k: nat) returns (v: World)
    requires Going(u, w, k) && At(w, k, FindingDb)
    ensures Going(u, v, k) && k in v.runs && v.runs[k].pc.Advancing? && v.runs[k].pc.domain.None?
    ensures v.runs[k].t == w.runs[k].t && v.row == w.row && v.domain == w.domain
  {
    var found := DoFindDb(w, k, CreatingDb);
    Go(u, w, k, FindDb(k), found);
    v := found;
    if found.runs[k].pc == CreatingDb {
      v := DoCreateDb(found, k, true);
      Go(u, found, k, CreateDb(k, true), v);
    }
  }

  /** The step's result recorded. */
  lemma Record(u: World, w: World, k: nat) returns (v: World)
    requires Going(u, w, k) && k in w.runs && w.runs[k].pc.Advancing? && w.runs[k].t.state == w.row.value.state
    ensures Going(u, v, k) && At(v, k, Renewing) && v == w.(row := v.row, runs := v.runs)
    ensures v.row.value.state == Next(w.row.value.state)
    ensures v.row.value.domain == var d := w.runs[k].pc.domain;
            if d.Some? then Recorded(d.value) else w.row.value.domain
  {
    v := DoAdvance(w, k, false);
    Go(u, w, k, Advance(k, false), v);
  }

  /** The first step: the key, then the database. */
  lemma RequestedTurn(u: World, w: World, k: nat) returns (v: World)
    requires Going(u, w, k) && At(w, k, Renewing) && w.row.value.state == Requested
    ensures Going(u, v, k) && At(v, k, Renewing) && v.row.value.state == DbCreated && v.domain == w.domain
  {
    var begun := Begin(u, w, k);
    var keyed := GetKey(u, begun, k);
    var made := GetDatabase(u, keyed, k);
    v := Record(u, made, k);
  }

  /** No script, the call secret stored, then the upload. */
  lemma PutScript(u: World, w: World, k: nat) returns (v: World)
    requires Going(u, w, k) && At(w, k, CleaningScript)
    ensures Going(u, v, k) && At(v, k, FindingDomain) && v.runs[k].t == w.runs[k].t
    ensures v.row == w.row && v.domain == w.domain && v.service == w.service
  {
    var cleaned := DoSetScript(w, k, None, EnsuringSecret);
    Go(u, w, k, CleanScript(k, true), cleaned);
    var stored := DoEnsureSecret(cleaned, k, 0);
    Go(u, cleaned, k, EnsureSecret(k, 0), stored);
    v := DoSetScript(stored, k, stored.runs[k].key, FindingDomain);
    Go(u, stored, k, Upload(k, true), v);
  }

  /** The run has the id of the domain that is there. */
  predicate HasDomain(w: World, k: nat) {
    w.domain.Some? && k in w.runs && w.runs[k].pc == Advancing(None, Some(w.domain.value.id))
  }

  /** The tenant's own domain is found again, also when its attach's answer was lost. */
  lemma FindOwn(u: World, w: World, k: nat) returns (v: World)
    requires Going(u, w, k) && At(w, k, FindingDomain) && w.domain.Some? && w.domain.value.mine
    requires w.runs[k].t.domain == w.row.value.domain
    ensures Going(u, v, k) && HasDomain(v, k) && v.runs[k].t == w.runs[k].t && v.row == w.row
  {
    v := DoFindDomain(w, k);
    Go(u, w, k, FindDomain(k), v);
  }

  /** With nothing at the hostname it is attached, the intent first. */
  lemma AttachOwn(u: World, w: World, k: nat) returns (v: World)
    requires Going(u, w, k) && At(w, k, FindingDomain) && w.domain.None?
    ensures Going(u, v, k) && HasDomain(v, k) && v.runs[k].t == w.runs[k].t
    ensures v.row.Some? && v.row.value.state == w.row.value.state
  {
    var none := DoFindDomain(w, k);
    Go(u, w, k, FindDomain(k), none);
    var free := Goto(none, k, MarkingPending);
    Go(u, none, k, CheckDns(k, false), free);
    var marked := DoMarkPending(free, k);
    Go(u, free, k, MarkPending(k), marked);
    v := DoAttach(marked, k, true);
    Go(u, marked, k, Attach(k, true), v);
  }

  /** The second step: the script with the key in it, then the address, whose id is recorded. */
  lemma DbCreatedTurn(u: World, w: World, k: nat) returns (v: World)
    requires Going(u, w, k) && At(w, k, Renewing) && w.row.value.state == DbCreated && !Foreign(w)
    ensures Going(u, v, k) && At(v, k, Renewing) && v.row.value.state == Uploaded
    ensures v.domain.Some? && v.row.value.domain == Recorded(v.domain.value.id)
  {
    var begun := Begin(u, w, k);
    var keyed := GetKey(u, begun, k);
    var put := PutScript(u, keyed, k);
    var has;
    if put.domain.Some? { has := FindOwn(u, put, k); } else { has := AttachOwn(u, put, k); }
    v := Record(u, has, k);
  }

  /** The last two steps: the tenant answers. */
  lemma CallingTurn(u: World, w: World, k: nat) returns (v: World)
    requires Going(u, w, k) && At(w, k, Renewing) && w.row.value.state in {Uploaded, Migrated}
    ensures Going(u, v, k) && At(v, k, Renewing) && v.row.value.state == Next(w.row.value.state)
    ensures v.domain == w.domain && v.row.value.domain == w.row.value.domain
  {
    var begun := Begin(u, w, k);
    var called := Goto(begun, k, Advancing(None, None));
    Go(u, begun, k, CallTenant(k), called);
    v := Record(u, called, k);
  }

  lemma FromUploaded(u: World, w: World, k: nat) returns (v: World)
    requires Going(u, w, k) && At(w, k, Renewing) && w.row.value.state in {Uploaded, Migrated}
    ensures Going(u, v, k) && v.row.value.state == Ready
    ensures v.domain == w.domain && v.row.value.domain == w.row.value.domain
  {
    v := w;
    if w.row.value.state == Uploaded { v := CallingTurn(u, w, k); }
    v := CallingTurn(u, v, k);
  }

  lemma FromTheStart(u: World, w: World, k: nat) returns (v: World)
    requires Going(u, w, k) && At(w, k, Renewing) && w.row.value.state in {Requested, DbCreated} && !Foreign(w)
    ensures Going(u, v, k) && v.row.value.state == Ready
    ensures v.domain.Some? && v.row.value.domain == Recorded(v.domain.value.id)
  {
    v := w;
    if w.row.value.state == Requested { v := RequestedTurn(u, w, k); }
    v := DbCreatedTurn(u, v, k);
    v := FromUploaded(u, v, k);
  }

  /** Ready, with everything a tenant needs: its recorded database, its script with the escrowed key. */
  predicate SetUpDone(w: World) {
    && w.row.Some? && w.row.value.state == Ready
    && w.row.value.d1Id.Some? && w.databases == [w.row.value.d1Id.value]
    && w.key.Some? && w.script == w.key
  }

  /** The Custom Domain at the hostname is recorded as the tenant's. */
  predicate AddressRecorded(w: World) {
    w.row.Some? && w.domain.Some? && w.row.value.domain == Recorded(w.domain.value.id)
  }

  lemma SetUpRuns(u: World, w: World, k: nat) returns (v: World)
    requires Going(u, w, k) && At(w, k, Renewing) && SetUp(w.row.value.state)
    requires w.row.value.state in {Requested, DbCreated} ==> !Foreign(w)
    ensures Leads(u, v) && SetUpDone(v)
    ensures if w.row.value.state in {Requested, DbCreated} then AddressRecorded(v)
            else v.domain == w.domain && v.row.value.domain == w.row.value.domain
  {
    if w.row.value.state in {Requested, DbCreated} {
      v := FromTheStart(u, w, k);
    } else {
      v := FromUploaded(u, w, k);
    }
  }

  /** Unpaused by its owner, and the last lease over, the tenant is anybody's to take on. */
  function Freed(w: World): World
    requires w.row.Some?
  {
    w.(row := Some(Unpaused(w.row.value)), now := LeaseEnd(w))
  }

  lemma FreedIsReached(w: World)
    requires w.row.Some? && SetUp(w.row.value.state)
    ensures Leads(w, Freed(w)) && AcquireMatches(Freed(w).row.value, Freed(w).now, true)
  {
    var unpaused := w.(row := Some(Unpaused(w.row.value)));
    LeadsHere(w);
    LeadsOn(w, w, Unpause, unpaused);
    LeadsOn(w, unpaused, Time(LeaseEnd(w)), Freed(w));
  }

  lemma TakenOn(w: World)
    requires Inv(w) && Built(w) && w.row.Some? && SetUp(w.row.value.state)
    ensures Going(w, DoAcquire(Freed(w), w.nextId), w.nextId)
  {
    var k, free := w.nextId, Freed(w);
    FreedIsReached(w);
    var unpaused := w.(row := Some(Unpaused(w.row.value)));
    StepInv(w, Unpause);
    StepBuilt(w, Unpause);
    StepInv(unpaused, Time(LeaseEnd(w)));
    StepBuilt(unpaused, Time(LeaseEnd(w)));
    assert k !in w.runs by { assert IdsOk(w); }
    LeadsOn(w, free, Acquire(k, true), DoAcquire(free, k));
    StepInv(free, Acquire(k, true));
    StepBuilt(free, Acquire(k, true));
  }

  /** What setting up leaves: all of it, and the address recorded where it was still to do. */
  predicate Came(w: World, v: World)
    requires w.row.Some?
  {
    && SetUpDone(v)
    && if w.row.value.state in {Requested, DbCreated} then AddressRecorded(v)
       else v.domain == w.domain && v.row.value.domain == w.row.value.domain
  }

  /**
   * From wherever earlier tries left a tenant being set up, lost answers, crashes,
   * pauses and stale runs included: once unpaused and its last lease over, a run
   * that keeps its lease, has its calls answered and finds nobody else's domain or
   * DNS record takes it to ready, with its recorded database, its script and key,
   * and, unless an earlier run got that far, the id of the domain at its hostname
   * recorded.
   */
  lemma SetUpFinishes(start: World, events: seq<Event>)
    requires Initial(start) && Runs(start, events)
    requires var w := After(start, events);
             w.row.Some? && SetUp(w.row.value.state)
                 && (w.row.value.state in {Requested, DbCreated} ==> !Foreign(w))
    ensures exists v :: Leads(After(start, events), v) && Came(After(start, events), v)
  {
    ReachableBuilt(start, events);
    var w := After(start, events);
    TakenOn(w);
    var v := SetUpRuns(w, DoAcquire(Freed(w), w.nextId), w.nextId);
  }
}
