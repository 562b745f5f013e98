/**
 * Moving a ready starter tenant into the dispatch namespace
 * (platform/src/tenant-move.ts; platform/src/addresses.ts,
 * repointTenantAddress). One move at a time; every database write and API call
 * is one step, its answer may be lost after it took effect, and a move may stop
 * at any of them and be run again.
 */
module TenantMove {
  import opened Common

  datatype Runtime = Starter | Dispatch

  /** Which Worker the tenant's hostname reaches: its own on the account, or the platform's. */
  datatype Service = OwnWorker | PlatformWorker

  datatype Domain = Domain(id: nat, service: Service)

  datatype DomainColumn = NoDomain | Pending | Recorded(id: nat)

  datatype Pc =
    | Idle | Cleaning | Uploading | CheckingHealth | Recording
    | FindingDomain | CheckingDns | MarkingPending | Attaching
    | Repointing | Detaching | Reattaching
    | RecordingId(id: nat) | DeletingWorker

  /** The row, the call secret, the tenant's Workers in both places, and its Custom Domain. */
  datatype World = World(
    runtime: Runtime, callSecret: bool, column: DomainColumn,
    accountWorker: bool, namespaceWorker: bool, domain: Option<Domain>, nextId: nat, pc: Pc)

  datatype Event =
    | Begin
    | Clean(answered: bool)
    | Upload(answered: bool)
    | Health(ok: bool)
    | Record(answered: bool)
    | FindDomain
    | CheckDns(found: bool)
    | MarkPending
    | Attach(answered: bool)
    | Repoint(newId: bool, answered: bool)
    | RepointRefused
    | Detach(answered: bool)
    | Reattach(answered: bool)
    | RecordId(answered: bool)
    | DeleteWorker(answered: bool)
    | Stop

  predicate Enabled(w: World, e: Event) {
    match e
    case Begin => w.pc == Idle
    case Clean(_) => w.pc == Cleaning
    case Upload(_) => w.pc == Uploading
    case Health(_) => w.pc == CheckingHealth
    case Record(_) => w.pc == Recording
    case FindDomain => w.pc == FindingDomain
    case CheckDns(_) => w.pc == CheckingDns
    case MarkPending => w.pc == MarkingPending
    case Attach(_) => w.pc == Attaching
    case Repoint(_, _) => w.pc == Repointing
    case RepointRefused => w.pc == Repointing
    case Detach(_) => w.pc == Detaching
    case Reattach(_) => w.pc == Reattaching
    case RecordId(_) => w.pc.RecordingId?
    case DeleteWorker(_) => w.pc == DeletingWorker
    case Stop => w.pc != Idle
  }

  function Or(answered: bool, pc: Pc): Pc { if answered then pc else Idle }

  function Attached(w: World, answered: bool): World {
    w.(domain := Some(Domain(w.nextId, PlatformWorker)), nextId := w.nextId + 1,
        pc := Or(answered, RecordingId(w.nextId)))
  }

  function Apply(w: World, e: Event): World
    requires Enabled(w, e)
  {
    match e
    case Begin => w.(pc := if w.runtime == Starter then Cleaning else FindingDomain)
    case Clean(answered) => w.(namespaceWorker := false, pc := Or(answered, Uploading))
    case Upload(answered) => w.(namespaceWorker := true, pc := Or(answered, CheckingHealth))
    case Health(ok) => w.(pc := Or(ok, Recording))
    case Record(answered) => w.(runtime := Dispatch, callSecret := false, pc := Or(answered, FindingDomain))
    case FindDomain =>
      if w.domain.None? then w.(pc := CheckingDns)
      else if w.column != Recorded(w.domain.value.id) then w.(pc := Idle)
      else if w.domain.value.service == PlatformWorker then w.(pc := RecordingId(w.domain.value.id))
      else w.(pc := Repointing)
    case CheckDns(found) => w.(pc := Or(!found, MarkingPending))
    case MarkPending => w.(column := Pending, pc := Attaching)
    case Attach(answered) => Attached(w, answered)
    case Repoint(newId, answered) =>
      var id := if newId || w.domain.None? then w.nextId else w.domain.value.id;
      w.(domain := Some(Domain(id, PlatformWorker)), nextId := w.nextId + 1, pc := Or(answered, RecordingId(id)))
    case RepointRefused => w.(pc := Detaching)
    case Detach(answered) => w.(domain := None, pc := Or(answered, Reattaching))
    case Reattach(answered) => Attached(w, answered)
    case RecordId(answered) => w.(column := Recorded(w.pc.id), pc := Or(answered, DeletingWorker))
    case DeleteWorker(answered) => w.(accountWorker := false, pc := Idle)
    case Stop => w.(pc := Idle)
  }

  /** A ready starter tenant: its Worker on the account, its secret, its address at that Worker. */
  predicate Initial(w: World) {
    && w.runtime == Starter && w.callSecret && w.accountWorker && !w.namespaceWorker && w.pc == Idle
    && w.domain.Some? && w.domain.value.service == OwnWorker && w.domain.value.id < w.nextId
        && w.column == Recorded(w.domain.value.id)
  }

  // ----- what every step keeps -----------------------------------------------------

  /** Never mixed: recorded starter with a call secret, or dispatch without one. */
  predicate NeverMixed(w: World) { w.runtime == Starter <==> w.callSecret }

  /**
   * The hostname never points at a Worker that is not there: its own on the
   * account, or, through the platform, the dispatched one.
   */
  predicate AddressReaches(w: World) {
    w.domain.Some? ==> if w.domain.value.service == OwnWorker then w.accountWorker
        else w.runtime == Dispatch && w.namespaceWorker
  }

  /** The runtime recorded has its Worker. */
  predicate RuntimeHasWorker(w: World) { if w.runtime == Starter then w.accountWorker else w.namespaceWorker }

  predicate BeforeRecord(pc: Pc) { pc == Cleaning || pc == Uploading || pc == CheckingHealth || pc == Recording }

  predicate Inv(w: World) {
    && NeverMixed(w) && AddressReaches(w) && RuntimeHasWorker(w)
    && (BeforeRecord(w.pc) ==> w.runtime == Starter)
    && (w.pc == Uploading ==> !w.namespaceWorker)
    && (w.pc == CheckingHealth || w.pc == Recording ==> w.namespaceWorker)
    && (w.pc != Idle && !BeforeRecord(w.pc) ==> w.runtime == Dispatch)
    && (w.pc.RecordingId? || w.pc == DeletingWorker ==> w.domain.Some? && w.domain.value.service == PlatformWorker)
    && (w.pc.RecordingId? ==> w.domain.value.id == w.pc.id)
    && (w.pc == Repointing || w.pc == Detaching ==> w.domain.Some?)
    && (w.pc == DeletingWorker ==> w.column == Recorded(w.domain.value.id))
  }

  lemma StepInv(w: World, e: Event)
    requires Inv(w) && Enabled(w, e)
    ensures Inv(Apply(w, e))
  {
  }

  predicate Runs(w: World, events: seq<Event>)
    decreases |events|
  {
    events == [] || (Enabled(w, events[0]) && Runs(Apply(w, events[0]), events[1..]))
  }

  function After(w: World, events: seq<Event>): World
    requires Runs(w, events)
    decreases |events|
  {
    if events == [] then w else After(Apply(w, events[0]), events[1..])
  }

  lemma {:induction false} RunInv(w: World, events: seq<Event>)
    requires Inv(w) && Runs(w, events)
    ensures Inv(After(w, events))
    decreases |events|
  {
    if events != [] {
      StepInv(w, events[0]);
      RunInv(Apply(w, events[0]), events[1..]);
    }
  }

  /**
   * Across any number of moves and a stop at any step: never mixed, and the
   * hostname never points at a missing Worker.
   */
  lemma MovesAreCrashSafe(start: World, events: seq<Event>)
    requires Initial(start) && Runs(start, events)
    ensures var w := After(start, events); NeverMixed(w) && AddressReaches(w) && RuntimeHasWorker(w)
  {
    RunInv(start, events);
  }

  /** The starter Worker is deleted only once the address has left it, and is recorded where it went. */
  lemma WorkerGoesLast(start: World, events: seq<Event>, e: Event)
    requires Initial(start) && Runs(start, events) && Enabled(After(start, events), e)
    ensures var w := After(start, events);
            w.accountWorker && !Apply(w, e).accountWorker ==>
              w.domain.Some? && w.domain.value.service == PlatformWorker && w.column == Recorded(w.domain.value.id)
                  && w.runtime == Dispatch
  {
    RunInv(start, events);
  }

  /**
   * Every upload starts from no script in the namespace; the new runtime is
   * recorded only after a healthy answer; a domain is attached only where no DNS
   * record was found and the intent is marked; and an address is taken down only
   * when the API refused to move it in place.
   */
  lemma StepsComeInOrder(start: World, events: seq<Event>, e: Event)
    requires Initial(start) && Runs(start, events) && Enabled(After(start, events), e)
    ensures var w, v := After(start, events), Apply(After(start, events), e);
            && (e.Upload? ==> !w.namespaceWorker)
            && (v.pc == Recording && w.pc != Recording ==> e == Health(true))
            && (v.pc == MarkingPending && w.pc != MarkingPending ==> e == CheckDns(false))
            && (v.pc == Attaching && w.pc != Attaching ==> e == MarkPending && v.column == Pending)
            && (w.domain.Some? && v.domain.None? ==> e.Detach?)
            && (v.pc == Detaching && w.pc != Detaching ==> e == RepointRefused)
  {
    RunInv(start, events);
  }

  /** The hostname's domain is the tenant's recorded one, and moved already. */
  predicate AlreadyMoved(w: World) {
    && w.domain.Some? && w.domain.value.service == PlatformWorker && w.column == Recorded(w.domain.value.id)
    && (w.pc == Idle || BeforeRecord(w.pc) || w.pc == FindingDomain || w.pc.RecordingId? || w.pc == DeletingWorker)
  }

  /** Once moved and recorded, an address is never touched again, however often the move is run. */
  lemma {:induction false} MovedAddressStays(w: World, events: seq<Event>)
    requires Inv(w) && AlreadyMoved(w) && Runs(w, events)
    ensures AlreadyMoved(After(w, events)) && After(w, events).domain == w.domain
    decreases |events|
  {
    if events != [] {
      StepInv(w, events[0]);
      MovedAddressStays(Apply(w, events[0]), events[1..]);
    }
  }

  // ----- running it again ------------------------------------------------------------

  /** What a later move needs of the address: none, or the one recorded. */
  predicate Resumable(w: World) { w.domain.Some? ==> w.column == Recorded(w.domain.value.id) }

  /** The repoint is accepted in place: the API neither refuses it nor gives the domain another id. */
  predicate InPlace(e: Event) { !e.RepointRefused? && (e.Repoint? ==> !e.newId) }

  predicate KeepsAddress(w: World) {
    && w.domain.Some? && w.column == Recorded(w.domain.value.id)
    && !(w.pc == CheckingDns || w.pc == MarkingPending || w.pc == Attaching || w.pc == Detaching || w.pc == Reattaching)
  }

  lemma {:induction false} InPlaceKeepsAddress(w: World, events: seq<Event>)
    requires Inv(w) && Runs(w, events) && KeepsAddress(w)
    requires forall i | 0 <= i < |events| :: InPlace(events[i])
    ensures KeepsAddress(After(w, events))
    decreases |events|
  {
    if events != [] {
      var e := events[0];
      StepInv(w, e);
      assert InPlace(e);
      assert KeepsAddress(Apply(w, e));
      forall i | 0 <= i < |events[1..]| ensures InPlace(events[1..][i]) { assert events[1..][i] == events[i + 1]; }
      InPlaceKeepsAddress(Apply(w, e), events[1..]);
    }
  }

  predicate Moved(w: World) {
    w.runtime == Dispatch && !w.callSecret && w.namespaceWorker && !w.accountWorker
    && w.domain.Some? && w.domain.value.service == PlatformWorker && w.column == Recorded(w.domain.value.id)
  }

  lemma {:induction false} RunsJoin(w: World, first: seq<Event>, second: seq<Event>)
    requires Runs(w, first) && Runs(After(w, first), second)
    ensures Runs(w, first + second) && After(w, first + second) == After(After(w, first), second)
    decreases |first|
  {
    if first == [] {
      assert first + second == second;
    } else {
      RunsJoin(Apply(w, first[0]), first[1..], second);
      assert (first + second)[1..] == first[1..] + second;
    }
  }

  lemma One(w: World, events: seq<Event>, e: Event) returns (more: seq<Event>)
    requires Runs(w, events) && Enabled(After(w, events), e)
    ensures Runs(w, more) && After(w, more) == Apply(After(w, events), e)
  {
    assert [e][1..] == [] && Runs(After(w, events), [e]);
    assert After(After(w, events), [e]) == Apply(After(w, events), e);
    RunsJoin(w, events, [e]);
    more := events + [e];
  }

  /** Up to the address: upload, health and record, for a tenant still recorded starter. */
  lemma FirstHalf(w: World) returns (events: seq<Event>)
    requires Inv(w) && w.pc == Idle
    ensures Runs(w, events) && Inv(After(w, events)) && After(w, events).pc == FindingDomain
    ensures After(w, events).domain == w.domain && After(w, events).column == w.column
  {
    events := One(w, [], Begin);
    if w.runtime == Starter {
      events := One(w, events, Clean(true));
      events := One(w, events, Upload(true));
      events := One(w, events, Health(true));
      events := One(w, events, Record(true));
    }
    RunInv(w, events);
  }

  /**
   * Wherever an earlier move stopped, running it again with its calls answered
   * completes it: exactly when the address is the recorded one, or there is none.
   */
  lemma RerunCompletes(w: World) returns (events: seq<Event>)
    requires Inv(w) && w.pc == Idle && Resumable(w)
    ensures Runs(w, events) && Moved(After(w, events))
  {
    events := FirstHalf(w);
    events := One(w, events, FindDomain);
    if w.domain.None? {
      events := One(w, events, CheckDns(false));
      events := One(w, events, MarkPending);
      events := One(w, events, Attach(true));
    } else if w.domain.value.service == OwnWorker {
      events := One(w, events, Repoint(false, true));
    }
    events := One(w, events, RecordId(true));
    events := One(w, events, DeleteWorker(true));
    RunInv(w, events);
  }

  /** With any other domain at its hostname, no move ever gets past looking it up, or touches it. */
  predicate Stuck(w: World) {
    && !Resumable(w)
    && (w.pc == Idle || BeforeRecord(w.pc) || w.pc == FindingDomain)
  }

  lemma {:induction false} OtherwiseNeverCompletes(w: World, events: seq<Event>)
    requires Inv(w) && Stuck(w) && Runs(w, events)
    ensures Stuck(After(w, events)) && After(w, events).domain == w.domain && !Moved(After(w, events))
    decreases |events|
  {
    if events != [] {
      StepInv(w, events[0]);
      OtherwiseNeverCompletes(Apply(w, events[0]), events[1..]);
    }
  }

  /** So when every repoint is accepted in place, a move stopped anywhere can always be completed. */
  lemma InPlaceMovesComplete(start: World, events: seq<Event>) returns (rest: seq<Event>)
    requires Initial(start) && Runs(start, events) && After(start, events).pc == Idle
    requires forall i | 0 <= i < |events| :: InPlace(events[i])
    ensures Runs(After(start, events), rest) && Moved(After(After(start, events), rest))
  {
    RunInv(start, events);
    InPlaceKeepsAddress(start, events);
    rest := RerunCompletes(After(start, events));
  }

  const Ready: World := World(Starter, true, Recorded(0), true, false, Some(Domain(0, OwnWorker)), 1, Idle)

  /** The API refuses the in-place repoint, and the fallback's attach takes effect without its answer arriving. */
  lemma FallbackLosesItsId() returns (events: seq<Event>)
    ensures Runs(Ready, events) && After(Ready, events)
            == World(Dispatch, false, Recorded(0), true, true, Some(Domain(1, PlatformWorker)), 2, Idle)
  {
    events := One(Ready, [], Begin);
    events := One(Ready, events, Clean(true));
    events := One(Ready, events, Upload(true));
    events := One(Ready, events, Health(true));
    events := One(Ready, events, Record(true));
    assert After(Ready, events) == World(Dispatch, false, Recorded(0), true, true, Some(Domain(0, OwnWorker)), 1,
        FindingDomain);
    events := One(Ready, events, FindDomain);
    events := One(Ready, events, RepointRefused);
    events := One(Ready, events, Detach(true));
    events := One(Ready, events, Reattach(false));
  }

  /** Then the tenant's own domain is no longer the recorded one, and no later move completes. */
  lemma FallbackCanStick() returns (events: seq<Event>)
    ensures Initial(Ready) && Runs(Ready, events) && After(Ready, events).pc == Idle
    ensures forall more | Runs(After(Ready, events), more) :: !Moved(After(After(Ready, events), more))
  {
    events := FallbackLosesItsId();
    var w := After(Ready, events);
    RunInv(Ready, events);
    forall more | Runs(w, more) ensures !Moved(After(w, more)) {
      OtherwiseNeverCompletes(w, more);
    }
  }

  // ----- a removal after a move that stopped -------------------------------------------

  /** What a teardown's deleteScript leaves: it looks only where the recorded runtime's Worker lives. */
  function AfterTeardownScript(w: World): World {
    if w.runtime == Starter then w.(accountWorker := false) else w.(namespaceWorker := false)
  }

  /**
   * Removing a tenant between two tries of its move leaves a Worker behind exactly
   * when it has one in the other place.
   */
  lemma TeardownLeavesWorkerIff(w: World)
    requires Inv(w)
    ensures var v := AfterTeardownScript(w);
            v.accountWorker || v.namespaceWorker <==> (w.accountWorker && w.namespaceWorker)
  {
  }

  /** And a move that stopped at its health check has one in both. */
  lemma StoppedMoveHasTwoWorkers() returns (events: seq<Event>)
    ensures Runs(Ready, events) && After(Ready, events).pc == Idle
    ensures After(Ready, events).accountWorker && After(Ready, events).namespaceWorker
  {
    events := One(Ready, [], Begin);
    events := One(Ready, events, Clean(true));
    events := One(Ready, events, Upload(true));
    events := One(Ready, events, Health(false));
  }
}
