/**
 * Each signed call acted on at most once (platform/src/starter.ts,
 * recordTenantCallNonce and handleTenantCall): a verified call's nonce is kept
 * until 65 seconds past its timestamp, and each insert first deletes the
 * expired ones by the handling isolate's own clock. Isolates' clocks differ,
 * and an isolate reads its clock before it verifies, so what matters is how far
 * behind an earlier handled call's reading a later one's may be.
 */
module CallNonces {
  import opened Common
  import opened SignedCalls
  import R = SecretRotation

  type Table = map<string, int>

  /** The batch: delete what expired, then insert unless the nonce is there. */
  function Cleaned(t: Table, now: int): Table { map n | n in t && t[n] > now :: t[n] }

  function AfterRecording(t: Table, nonce: string, expiresAt: int, now: int): Table {
    if nonce in Cleaned(t, now) then Cleaned(t, now) else Cleaned(t, now)[nonce := expiresAt]
  }

  /** One verified-or-not call reaching the nonce table: its nonce and timestamp, and the clock its isolate read. */
  datatype Handling = Handling(nonce: string, at: int, now: int)

  predicate InWindow(h: Handling) { -MAX_SKEW_MS <= h.at - h.now <= MAX_SKEW_MS }

  /**
   * The table after the first n handlings, in the order the database saw them; a
   * call outside its window never gets there.
   */
  function TableAfter(hs: seq<Handling>, n: nat): Table
    requires n <= |hs|
  {
    if n == 0 then map[]
    else
      var h := hs[n - 1];
      var t := TableAfter(hs, n - 1);
      if InWindow(h) then AfterRecording(t, h.nonce, h.at + NONCE_RETENTION_MS, h.now) else t
  }

  /** The i-th handling is acted on: in its window, and its nonce is new. */
  predicate ActedOn(hs: seq<Handling>, i: nat)
    requires i < |hs|
  {
    InWindow(hs[i]) && hs[i].nonce !in Cleaned(TableAfter(hs, i), hs[i].now)
  }

  /** No later handling's clock reading is `lag` or more behind an earlier one's. */
  predicate WithinLag(hs: seq<Handling>, lag: int) {
    forall i, j | 0 <= i < j < |hs| :: hs[j].now > hs[i].now - lag
  }

  /** Once acted on, a nonce stays in the table until some isolate's clock is past its retention. */
  lemma {:induction false} NonceStays(hs: seq<Handling>, i: nat, k: nat)
    requires i < k <= |hs| && ActedOn(hs, i)
    requires forall m | i < m < k :: hs[m].now < hs[i].at + NONCE_RETENTION_MS
    ensures hs[i].nonce in TableAfter(hs, k) && TableAfter(hs, k)[hs[i].nonce] == hs[i].at + NONCE_RETENTION_MS
  {
    if k > i + 1 {
      NonceStays(hs, i, k - 1);
    }
  }

  /**
   * At most once: whatever is handled in between, one signed call (a nonce and
   * its timestamp) is acted on once, as long as no handling's clock reading is
   * 35 seconds (the retention less the skew) behind an earlier one's.
   */
  lemma {:induction false} ActedOnAtMostOnce(hs: seq<Handling>, i: nat, j: nat)
    requires WithinLag(hs, NONCE_RETENTION_MS - MAX_SKEW_MS)
    requires i < j < |hs| && hs[i].nonce == hs[j].nonce && hs[i].at == hs[j].at
    requires ActedOn(hs, i)
    ensures !ActedOn(hs, j)
  {
    if InWindow(hs[j]) {
      forall m | i < m < j ensures hs[m].now < hs[i].at + NONCE_RETENTION_MS {
        assert hs[j].now > hs[m].now - (NONCE_RETENTION_MS - MAX_SKEW_MS);
      }
      NonceStays(hs, i, j);
    }
  }

  /** Every handling of one signed call is acted on at most once, stated of a whole history. */
  ghost predicate OncePerCall(hs: seq<Handling>) {
    forall i, j | 0 <= i < j < |hs| && hs[i].nonce == hs[j].nonce && hs[i].at == hs[j].at && ActedOn(hs, i) ::
        !ActedOn(hs, j)
  }

  const CallA: Handling := Handling("a", 0, 0)

  /** A replay at the end of the window, after an isolate whose clock is `lag` ahead cleaned up. */
  function Replayed(lag: int): seq<Handling> {
    [CallA, Handling("b", NONCE_RETENTION_MS, NONCE_RETENTION_MS), Handling("a", 0, NONCE_RETENTION_MS - lag)]
  }

  lemma ReplayIsActedOn(lag: int)
    requires NONCE_RETENTION_MS - MAX_SKEW_MS <= lag <= NONCE_RETENTION_MS
    ensures WithinLag(Replayed(lag), lag + 1) && !OncePerCall(Replayed(lag))
  {
    var hs := Replayed(lag);
    assert TableAfter(hs, 0) == map[];
    assert TableAfter(hs, 1) == map["a" := NONCE_RETENTION_MS];
    assert "a" !in Cleaned(TableAfter(hs, 1), NONCE_RETENTION_MS);
    assert TableAfter(hs, 2) == map["b" := 2 * NONCE_RETENTION_MS];
    assert ActedOn(hs, 0) && ActedOn(hs, 2);
    assert hs[0].nonce == hs[2].nonce && hs[0].at == hs[2].at;
  }

  /**
   * 35 seconds is exactly what the retention buys: every history within a lag
   * keeps each call to once if and only if the lag is at most that.
   */
  lemma LagBoundIsExact(lag: int)
    ensures (forall hs: seq<Handling> | WithinLag(hs, lag) :: OncePerCall(hs))
            <==> lag <= NONCE_RETENTION_MS - MAX_SKEW_MS
  {
    if lag <= NONCE_RETENTION_MS - MAX_SKEW_MS {
      forall hs: seq<Handling> | WithinLag(hs, lag) ensures OncePerCall(hs) {
        assert WithinLag(hs, NONCE_RETENTION_MS - MAX_SKEW_MS);
        forall i, j | 0 <= i < j < |hs| && hs[i].nonce == hs[j].nonce && hs[i].at == hs[j].at && ActedOn(hs, i)
          ensures !ActedOn(hs, j)
        {
          ActedOnAtMostOnce(hs, i, j);
        }
      }
    } else {
      var behind := Min(lag - 1, NONCE_RETENTION_MS);
      ReplayIsActedOn(behind);
      assert WithinLag(Replayed(behind), lag);
    }
  }

  // ----- the handler ----------------------------------------------------------------

  /** A request as it reaches an isolate: the clock the isolate read, and the secrets it found. */
  datatype Arrival = Arrival(request: Request, now: int, secretsFor: string -> Option<Secrets>)

  /** What of an arrival reaches the nonce table: one that doesn't verify stands outside every window. */
  function HandlingOf(e: Surroundings, a: Arrival): Handling {
    var v := VerifyEither(e, a.now, a.secretsFor, a.request).0;
    if v.Verified? then Handling(v.nonce, v.nonceExpiresAt - NONCE_RETENTION_MS, a.now)
        else Handling("", a.now + MAX_SKEW_MS + 1, a.now)
  }

  function Handlings(e: Surroundings, arrivals: seq<Arrival>): seq<Handling> {
    seq(|arrivals|, i requires 0 <= i < |arrivals| => HandlingOf(e, arrivals[i]))
  }

  lemma VerifiedIsInWindow(e: Surroundings, a: Arrival)
    ensures VerifyEither(e, a.now, a.secretsFor, a.request).0.Verified? <==> InWindow(HandlingOf(e, a))
    ensures HandlingOf(e, a).now == a.now
    ensures InWindow(HandlingOf(e, a)) ==>
              && a.request.nonce == Some(HandlingOf(e, a).nonce)
              && a.request.timestamp.Some? && ValueOf(a.request.timestamp.value) == HandlingOf(e, a).at
  {
  }

  /** One call carries one nonce and one timestamp. */
  predicate SameCall(a: Request, b: Request) { a.nonce == b.nonce && a.timestamp == b.timestamp }

  /** Of all arrivals of one call, at most one was acted on. */
  predicate EachOnce(arrivals: seq<Arrival>, acted: seq<bool>)
    requires |acted| == |arrivals|
  {
    forall i, j | 0 <= i < j < |arrivals| && acted[i] && acted[j] :: !SameCall(arrivals[i].request, arrivals[j].request)
  }

  /** What the handler did is what the history says. */
  ghost predicate ActsOn(hs: seq<Handling>, acted: seq<bool>) {
    |acted| <= |hs| && forall i | 0 <= i < |acted| :: acted[i] <==> ActedOn(hs, i)
  }

  lemma HandledOnce(e: Surroundings, arrivals: seq<Arrival>, acted: seq<bool>)
    requires |acted| == |arrivals| && ActsOn(Handlings(e, arrivals), acted)
    ensures WithinLag(Handlings(e, arrivals), NONCE_RETENTION_MS - MAX_SKEW_MS) ==> EachOnce(arrivals, acted)
  {
    var hs := Handlings(e, arrivals);
    forall i, j | WithinLag(hs, NONCE_RETENTION_MS - MAX_SKEW_MS) && 0 <= i < j < |arrivals| && acted[i] && acted[j]
      ensures !SameCall(arrivals[i].request, arrivals[j].request)
    {
      VerifiedIsInWindow(e, arrivals[i]);
      VerifiedIsInWindow(e, arrivals[j]);
      if SameCall(arrivals[i].request, arrivals[j].request) { ActedOnAtMostOnce(hs, i, j); }
    }
  }

  /** The table after one handling, and whether it is acted on. */
  function Handled(t: Table, h: Handling): (Table, bool) {
    if InWindow(h) then (AfterRecording(t, h.nonce, h.at + NONCE_RETENTION_MS, h.now), h.nonce !in Cleaned(t, h.now))
        else (t, false)
  }

  lemma HandledNext(hs: seq<Handling>, k: nat)
    requires k < |hs|
    ensures Handled(TableAfter(hs, k), hs[k]) == (TableAfter(hs, k + 1), ActedOn(hs, k))
  {
  }

  lemma ActsOnNext(hs: seq<Handling>, acted: seq<bool>, ran: bool)
    requires |acted| < |hs| && ActsOn(hs, acted) && (ran <==> ActedOn(hs, |acted|))
    ensures ActsOn(hs, acted + [ran])
  {
    var next := acted + [ran];
    forall i | 0 <= i < |next| ensures next[i] <==> ActedOn(hs, i) {
      if i < |acted| { assert next[i] == acted[i]; }
    }
  }

  /** What the handler acts on was signed by the tenant it names, with a secret that tenant has. */
  lemma ActedOnWasSigned(e: Surroundings, arrivals: seq<Arrival>, i: nat, signed: seq<Signed>, answers: seq<Answer>)
    requires i < |arrivals| && ActedOn(Handlings(e, arrivals), i) && Ideal(e) && Transmittable(arrivals[i].request)
    requires arrivals[i].request.signature.Carries? ==> Made(e, signed, answers, arrivals[i].request.signature.mac)
    ensures exists k ::
              0 <= k < |signed| && signed[k].direction == TenantToPlatform && Says(arrivals[i].request, signed[k])
  {
    VerifiedIsInWindow(e, arrivals[i]);
    EitherSecretMeansSigned(e, arrivals[i].now, arrivals[i].secretsFor, arrivals[i].request, signed, answers);
  }

  /** Retained: used before, and its time is not over on this isolate's clock. */
  predicate Retained(t: Table, nonce: string, now: int) { nonce in t && now < t[nonce] }

  /**
   * A tenant's unaltered call, inside its window, signed with its current or its
   * waiting secret: it is acted on exactly when its nonce is not retained, and then
   * the nonce is retained until 65 seconds past the call's timestamp.
   */
  lemma SignedIsActedOn(e: Surroundings, s: Signed, now: int, secretsFor: string -> Option<Secrets>, t: Table)
    requires WellFormed(e, s) && InItsWindow(s, now) && s.direction == TenantToPlatform
    requires secretsFor(s.tenantId).Some?
    requires secretsFor(s.tenantId).value.current == s.secret || secretsFor(s.tenantId).value.next == Some(s.secret)
    ensures var (after, acted) := Handled(t, HandlingOf(e, Arrival(Sent(e, s), now, secretsFor)));
            && (acted <==> !Retained(t, s.call.nonce.value, now))
            && (acted ==> (forall later ::
                Retained(after, s.call.nonce.value, later) <==> later < ValueOf(s.call.timestamp.value) + 65_000))
  {
    EitherSecretVerifiesIff(e, s, now, secretsFor);
  }

  // ----- while a rotation is under way ------------------------------------------------

  /** What the platform reads of the stored secrets. */
  function Stored(w: R.World): Secrets { Secrets(w.current, w.next) }

  /**
   * What a tenant's Worker signs is acted on, its nonce being new, exactly when the
   * rotation's world accepts the secret the Worker holds; otherwise it is refused.
   */
  lemma WorkerIsHeardIff(e: Surroundings, w: R.World, s: Signed, now: int, secretsFor: string -> Option<Secrets>,
                         t: Table)
    requires WellFormed(e, s) && InItsWindow(s, now) && s.direction == TenantToPlatform && s.secret == w.worker
    requires secretsFor(s.tenantId) == Some(Stored(w)) && !Retained(t, s.call.nonce.value, now)
    ensures Handled(t, HandlingOf(e, Arrival(Sent(e, s), now, secretsFor))).1 <==> R.WorkerAccepted(w)
  {
    EitherSecretVerifiesIff(e, s, now, secretsFor);
    if R.WorkerAccepted(w) { SignedIsActedOn(e, s, now, secretsFor, t); }
  }

  /** So through any careful rotations, stopped anywhere, the Worker's calls are acted on all along. */
  lemma WorkerStaysHeard(e: Surroundings, start: R.World, events: seq<R.Event>, s: Signed, now: int,
                         secretsFor: string -> Option<Secrets>, t: Table)
    requires R.Settled(start) && R.RunsCarefully(start, events) && R.Runs(start, events)
    requires WellFormed(e, s) && InItsWindow(s, now) && s.direction == TenantToPlatform
    requires s.secret == R.After(start, events).worker && secretsFor(s.tenantId) == Some(Stored(R.After(start, events)))
    requires !Retained(t, s.call.nonce.value, now)
    ensures Handled(t, HandlingOf(e, Arrival(Sent(e, s), now, secretsFor))).1
  {
    R.WorkerStaysAccepted(start, events);
    WorkerIsHeardIff(e, R.After(start, events), s, now, secretsFor, t);
  }

  class NonceTable {
    var expiresAt: Table

    constructor ()
      ensures expiresAt == map[]
    {
      expiresAt := map[];
    }

    /** False for a replay: the nonce is there, its retention not over. Nothing else that is still retained goes. */
    method RecordTenantCallNonce(nonce: string, expires: int, now: int) returns (inserted: bool)
      modifies this
      ensures inserted <==> !(nonce in old(expiresAt) && now < old(expiresAt)[nonce])
      ensures expiresAt == AfterRecording(old(expiresAt), nonce, expires, now)
      ensures forall n | n in old(expiresAt) && now < old(expiresAt)[n] ::
              n in expiresAt && expiresAt[n] == old(expiresAt)[n]
      ensures forall n | n in expiresAt :: n == nonce || now < expiresAt[n]
    {
      expiresAt := Cleaned(expiresAt, now);
      inserted := nonce !in expiresAt;
      if inserted {
        expiresAt := expiresAt[nonce := expires];
      }
    }

    /**
     * One call: acted on when it verifies and its nonce is new. What is acted on is
     * answered with the secret it was signed with.
     */
    method HandleTenantCall(e: Surroundings, a: Arrival) returns (acted: bool, answersWith: Option<int>)
      modifies this
      ensures (expiresAt, acted) == Handled(old(expiresAt), HandlingOf(e, a))
      ensures answersWith.Some? <==> acted
      ensures acted ==> a.request.nonce.Some? && a.request.tenant.Some? && a.request.signature.Carries?
                        && !Retained(old(expiresAt), a.request.nonce.value, a.now)
                        && answersWith == Some(a.request.signature.mac.key.secret)
    {
      VerifiedIsInWindow(e, a);
      answersWith := None;
      var (verified, used) := VerifyEither(e, a.now, a.secretsFor, a.request);
      if verified.Refused? { return false, None; }
      acted := RecordTenantCallNonce(verified.nonce, verified.nonceExpiresAt, a.now);
      if acted { answersWith := used; }
    }

    /**
     * Every call there ever is, in the order the database sees them: none is
     * acted on twice, as long as no clock reading is 35 seconds or more behind
     * an earlier one.
     */
    method HandleTenantCalls(e: Surroundings, arrivals: seq<Arrival>) returns (acted: seq<bool>)
      requires expiresAt == map[]
      modifies this
      ensures |acted| == |arrivals| && ActsOn(Handlings(e, arrivals), acted)
      ensures WithinLag(Handlings(e, arrivals), NONCE_RETENTION_MS - MAX_SKEW_MS) ==> EachOnce(arrivals, acted)
      ensures expiresAt == TableAfter(Handlings(e, arrivals), |arrivals|)
    {
      acted := [];
      ghost var hs := Handlings(e, arrivals);
      for k := 0 to |arrivals|
        invariant |acted| == k && expiresAt == TableAfter(hs, k) && ActsOn(hs, acted)
      {
        HandledNext(hs, k);
        var ran, _ := HandleTenantCall(e, arrivals[k]);
        ActsOnNext(hs, acted, ran);
        acted := acted + [ran];
      }
      HandledOnce(e, arrivals, acted);
    }
  }
}
