/**
 * One move as it executes (platform/src/tenant-move.ts, moveTenantToDispatch):
 * the row, the secret, the Workers and the Custom Domain are changed in place,
 * one write or call at a time, and every run of it is a run of TenantMove's
 * steps.
 */
module TenantMoveRun {
  import opened Common
  import opened TenantMove

  /** A write or call works, or took effect with its answer lost, or failed before it took effect. */
  datatype Fate = Works | LosesAnswer | Fails

  datatype Outcome = IsMoved | Failed(step: string) | Refused

  /** What the API and the tenant's Worker answer along the way. */
  datatype Answers = Answers(
    clean: Fate, upload: Fate, healthy: bool, record: Fate, lookup: bool,
    dnsRecords: bool, pending: bool, attach: Fate,
    repoint: Fate, repointRefused: bool, newId: bool, detach: Fate, reattach: Fate,
    recordId: Fate, delete: Fate, audit: Fate)

  /** The step at which a move from the account stops before it comes to the address, if it does. */
  function FirstFailure(runtime: Runtime, a: Answers): Option<string> {
    if runtime == Dispatch then None
    else if a.clean != Works || a.upload != Works then Some("upload")
    else if !a.healthy then Some("health")
    else if a.record != Works then Some("record")
    else None
  }

  class Tenant {
    var runtime: Runtime
    var callSecret: bool
    var column: DomainColumn
    var accountWorker: bool
    var namespaceWorker: bool
    var domain: Option<Domain>
    var nextId: nat

    function View(pc: Pc): World
      reads this
    {
      World(runtime, callSecret, column, accountWorker, namespaceWorker, domain, nextId, pc)
    }

    /** The upload, the health check and the batch that records the new runtime. */
    method UploadAndRecord(a: Answers) returns (step: string, ok: bool, ghost events: seq<Event>)
      requires runtime == Starter
      modifies this`runtime, this`callSecret, this`namespaceWorker
      ensures Leads(old(View(Cleaning)), events, View(if ok then FindingDomain else Idle))
      ensures ok <==> FirstFailure(Starter, a).None?
      ensures namespaceWorker == if a.clean == Fails then old(namespaceWorker)
                                 else a.clean == Works && a.upload != Fails
      ensures var recorded := a.clean == Works && a.upload == Works && a.healthy && a.record != Fails;
              && runtime == (if recorded then Dispatch else Starter)
              && callSecret == (old(callSecret) && !recorded)
      ensures !ok ==> Some(step) == FirstFailure(Starter, a)
    {
      ghost var start := View(Cleaning);
      step, ok, events := "upload", false, [];
      if a.clean == Fails { events := One(start, events, Stop); return; }
      namespaceWorker := false;
      events := One(start, events, Clean(a.clean == Works));
      if a.clean == LosesAnswer { return; }
      if a.upload == Fails { events := One(start, events, Stop); return; }
      namespaceWorker := true;
      events := One(start, events, Upload(a.upload == Works));
      if a.upload == LosesAnswer { return; }
      step := "health";
      events := One(start, events, Health(a.healthy));
      if !a.healthy { return; }
      step := "record";
      if a.record == Fails { events := One(start, events, Stop); return; }
      runtime, callSecret := Dispatch, false;
      events := One(start, events, Record(a.record == Works));
      ok := a.record == Works;
    }

    /** attachCustomDomain where the hostname has no domain: a new one, at the platform's Worker. */
    method Attach(fate: Fate) returns (id: Option<nat>)
      modifies this`domain, this`nextId
      ensures id == if fate == Works then Some(old(nextId)) else None
      ensures domain == if fate == Fails then old(domain) else Some(Domain(old(nextId), PlatformWorker))
      ensures nextId == if fate == Fails then old(nextId) else old(nextId) + 1
    {
      id := None;
      if fate != Fails {
        domain := Some(Domain(nextId, PlatformWorker));
        if fate == Works { id := Some(nextId); }
        nextId := nextId + 1;
      }
    }

    /** ensureTenantAddress, as it is called when no domain is at the hostname. */
    method EnsureAddress(a: Answers) returns (id: Option<nat>, ghost events: seq<Event>)
      requires domain.None?
      modifies this`column, this`domain, this`nextId
      ensures Leads(old(View(CheckingDns)), events, View(if id.Some? then RecordingId(id.value) else Idle))
      ensures id.Some? <==> !a.dnsRecords && a.pending && a.attach == Works
      ensures column == if !a.dnsRecords && a.pending then Pending else old(column)
      ensures domain == if !a.dnsRecords && a.pending && a.attach != Fails
                        then Some(Domain(old(nextId), PlatformWorker)) else None
    {
      ghost var start := View(CheckingDns);
      id := None;
      events := One(start, [], CheckDns(a.dnsRecords));
      if a.dnsRecords { return; }
      if !a.pending { events := One(start, events, Stop); return; }
      column := Pending;
      events := One(start, events, MarkPending);
      id := Attach(a.attach);
      events := One(start, events, if a.attach == Fails then Stop else TenantMove.Attach(a.attach == Works));
    }

    /** Detached and attached again, when the API refuses to move the domain in place. */
    method Fallback(a: Answers) returns (id: Option<nat>, ghost events: seq<Event>)
      modifies this`domain, this`nextId
      ensures Leads(old(View(Detaching)), events, View(if id.Some? then RecordingId(id.value) else Idle))
      ensures id.Some? <==> a.detach == Works && a.reattach == Works
      ensures domain == if a.detach == Fails then old(domain)
                        else if a.detach == Works && a.reattach != Fails
                        then Some(Domain(old(nextId), PlatformWorker)) else None
    {
      ghost var start := View(Detaching);
      id, events := None, [];
      if a.detach == Fails { events := One(start, events, Stop); return; }
      domain := None;
      events := One(start, events, Detach(a.detach == Works));
      if a.detach == LosesAnswer { return; }
      id := Attach(a.reattach);
      events := One(start, events, if a.reattach == Fails then Stop else Reattach(a.reattach == Works));
    }

    /** repointTenantAddress's PUT of the same hostname with the new Worker. */
    method RepointInPlace(a: Answers) returns (id: Option<nat>, ghost events: seq<Event>)
      requires domain.Some?
      modifies this`domain, this`nextId
      ensures Leads(old(View(Repointing)), events, View(if id.Some? then RecordingId(id.value) else Idle))
      ensures id.Some? <==> if a.repointRefused then a.detach == Works && a.reattach == Works else a.repoint == Works
      ensures !a.repointRefused ==>
                domain == if a.repoint == Fails then old(domain)
                          else Some(Domain(if a.newId then old(nextId) else old(domain).value.id, PlatformWorker))
      ensures a.repointRefused ==>
                domain == if a.detach == Fails then old(domain)
                          else if a.detach == Works && a.reattach != Fails
                          then Some(Domain(old(nextId), PlatformWorker)) else None
    {
      ghost var start := View(Repointing);
      id, events := None, [];
      if a.repointRefused {
        events := One(start, events, RepointRefused);
        ghost var more;
        id, more := Fallback(a);
        RunsJoin(start, events, more);
        events := events + more;
        return;
      }
      if a.repoint == Fails { events := One(start, events, Stop); return; }
      var moved := if a.newId then nextId else domain.value.id;
      domain, nextId := Some(Domain(moved, PlatformWorker)), nextId + 1;
      events := One(start, events, Repoint(a.newId, a.repoint == Works));
      if a.repoint == Works { id := Some(moved); }
    }

    /** repointTenantAddress. */
    method RepointAddress(a: Answers) returns (id: Option<nat>, ghost events: seq<Event>)
      modifies this`column, this`domain, this`nextId
      ensures Leads(old(View(FindingDomain)), events, View(if id.Some? then RecordingId(id.value) else Idle))
      ensures id.Some? ==> Resumable(old(View(FindingDomain)))
      ensures id.Some? <==> a.lookup && Resumable(old(View(FindingDomain))) && AddressAnswers(old(domain), a)
    {
      ghost var start := View(FindingDomain);
      id, events := None, [];
      if !a.lookup { events := One(start, events, Stop); return; }
      events := One(start, events, FindDomain);
      ghost var more;
      if domain.None? {
        id, more := EnsureAddress(a);
      } else if column != Recorded(domain.value.id) {
        return;
      } else if domain.value.service == PlatformWorker {
        id := Some(domain.value.id);
        return;
      } else {
        id, more := RepointInPlace(a);
      }
      RunsJoin(start, events, more);
      events := events + more;
    }

    /** The domain's id recorded, then the Worker on the account deleted, then the move logged. */
    method RecordAndCleanUp(id: nat, a: Answers) returns (outcome: Outcome, ghost events: seq<Event>)
      modifies this`column, this`accountWorker
      ensures Leads(old(View(RecordingId(id))), events, View(Idle))
      ensures column == if a.recordId == Fails then old(column) else Recorded(id)
      ensures accountWorker == (old(accountWorker) && !(a.recordId == Works && a.delete != Fails))
      ensures if a.recordId != Works then outcome == Failed("address")
              else if a.delete != Works || a.audit != Works then outcome == Failed("cleanup")
              else outcome == IsMoved
    {
      ghost var start := View(RecordingId(id));
      events := [];
      if a.recordId == Fails { events := One(start, events, Stop); return Failed("address"), events; }
      column := Recorded(id);
      events := One(start, events, RecordId(a.recordId == Works));
      if a.recordId == LosesAnswer { return Failed("address"), events; }
      if a.delete == Fails { events := One(start, events, Stop); return Failed("cleanup"), events; }
      accountWorker := false;
      events := One(start, events, DeleteWorker(a.delete == Works));
      outcome := if a.delete == Works && a.audit == Works then IsMoved else Failed("cleanup");
    }

    /** A starter tenant is uploaded and recorded first; one recorded already goes straight to its address. */
    method ReachAddress(a: Answers) returns (step: string, ok: bool, ghost events: seq<Event>)
      requires Inv(View(Idle))
      modifies this`runtime, this`callSecret, this`namespaceWorker
      ensures Leads(old(View(Idle)), events, View(if ok then FindingDomain else Idle))
      ensures ok <==> FirstFailure(old(runtime), a).None?
      ensures !ok ==> Some(step) == FirstFailure(old(runtime), a)
    {
      ghost var start := View(Idle);
      step, ok := "address", true;
      events := One(start, [], Begin);
      if runtime == Starter {
        ghost var more;
        step, ok, more := UploadAndRecord(a);
        RunsJoin(start, events, more);
        events := events + more;
      }
    }

    /**
     * The whole move. However its calls end it is a run of the protocol's steps,
     * so TenantMove's promises hold after it. A tenant that isn't ready, or with
     * no namespace to go to, is refused and untouched. It answers "moved" exactly
     * when every call it needs worked, the last being the log's, and the address
     * was the recorded one or none; then, and when only the log failed, the tenant
     * is wholly moved.
     */
    method MoveTenantToDispatch(ready: bool, namespaceSet: bool, a: Answers)
      returns (outcome: Outcome, ghost events: seq<Event>)
      requires Inv(View(Idle))
      modifies this
      ensures Leads(old(View(Idle)), events, View(Idle)) && Inv(View(Idle))
      ensures outcome == Refused <==> !ready || !namespaceSet
      ensures outcome == Refused ==> View(Idle) == old(View(Idle))
      ensures outcome == IsMoved
         <==> ready && namespaceSet && Resumable(old(View(Idle))) && AllAnswered(old(View(Idle)), a) && a.audit == Works
      ensures ready && namespaceSet && Resumable(old(View(Idle))) && AllAnswered(old(View(Idle)), a) ==>
              Moved(View(Idle))
      ensures ready && namespaceSet ==>
                outcome == if FirstFailure(old(runtime), a).Some? then Failed(FirstFailure(old(runtime), a).value)
                           else if !(a.lookup && Resumable(old(View(Idle))) && AddressAnswers(old(domain), a)
                                     && a.recordId == Works) then Failed("address")
                           else if !(a.delete == Works && a.audit == Works) then Failed("cleanup")
                           else IsMoved
    {
      ghost var start := View(Idle);
      if !ready || !namespaceSet { return Refused, []; }
      var step, ok;
      step, ok, events := ReachAddress(a);
      LeadsToInv(start, events, View(if ok then FindingDomain else Idle));
      if !ok { return Failed(step), events; }
      ghost var more;
      var id;
      id, more := RepointAddress(a);
      events := Join(start, events, more, View(if id.Some? then RecordingId(id.value) else Idle));
      if id.None? { return Failed("address"), events; }
      outcome, more := RecordAndCleanUp(id.value, a);
      events := Join(start, events, more, View(Idle));
    }
  }

  /** A run of the protocol's steps from one world to another. */
  predicate Leads(w: World, events: seq<Event>, v: World) { Runs(w, events) && After(w, events) == v }

  lemma LeadsToInv(w: World, events: seq<Event>, v: World)
    requires Inv(w) && Leads(w, events, v)
    ensures Inv(v)
  {
    RunInv(w, events);
  }

  lemma Join(w: World, first: seq<Event>, second: seq<Event>, v: World) returns (events: seq<Event>)
    requires Inv(w) && Runs(w, first) && Leads(After(w, first), second, v)
    ensures Leads(w, events, v) && Inv(v)
  {
    RunsJoin(w, first, second);
    events := first + second;
    RunInv(w, events);
  }

  /** The calls the address step makes, given the domain at the hostname, all worked. */
  predicate AddressAnswers(domain: Option<Domain>, a: Answers) {
    if domain.None? then !a.dnsRecords && a.pending && a.attach == Works
    else if domain.value.service == PlatformWorker then true
    else if a.repointRefused then a.detach == Works && a.reattach == Works
    else a.repoint == Works
  }

  predicate AllAnswered(w: World, a: Answers) {
    && (w.runtime == Starter ==> a.clean == Works && a.upload == Works && a.healthy && a.record == Works)
    && a.lookup && AddressAnswers(w.domain, a) && a.recordId == Works && a.delete == Works
  }
}
