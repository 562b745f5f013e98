/**
 * Signed calls between the platform and its starter tenants
 * (src/shared/hosted-contract.ts, verifySignedRequest and canonicalRequest;
 * platform/src/starter.ts, handleTenantCall): what a verified call says is
 * exactly what the other side signed. Cryptography is ideal: a MAC is its key
 * and its text, nobody makes one without the secret, and a digest is injective.
 */
module SignedCalls {
  import opened Common
  import B = Base64Url

  const MAX_SKEW_MS: int := 30_000
  const NONCE_RETENTION_MS: int := 65_000
  const MAX_BODY_BYTES: nat := 262_144

  const REQUEST_LABEL: string := "openping-signed-call-v1"
  const RESPONSE_LABEL: string := "openping-signed-response-v1"

  datatype Direction = PlatformToTenant | TenantToPlatform

  /** A derived key: one per secret and direction. */
  datatype Key = Key(secret: int, direction: Direction)

  datatype Mac = Mac(key: Key, text: string)

  datatype SignatureHeader = Absent | Garbage | Carries(mac: Mac)

  /** What travels: the method, host and path as sent, the body, and the headers verification reads. */
  datatype Request = Request(
    method_: string, host: string, path: string, body: string,
    signature: SignatureHeader, tenant: Option<string>, timestamp: Option<string>, nonce: Option<string>,
    props: Option<string>, callId: Option<string>)

  // ----- text ---------------------------------------------------------------

  function Label(d: Direction): string { if d == PlatformToTenant then "platform-to-tenant" else "tenant-to-platform" }

  function UpperChar(c: char): char { if 'a' <= c <= 'z' then ((c as int) - 32) as char else c }

  function LowerChar(c: char): char { if 'A' <= c <= 'Z' then ((c as int) + 32) as char else c }

  function Upper(s: string): (u: string)
    ensures |u| == |s|
  {
    if s == "" then "" else [UpperChar(s[0])] + Upper(s[1..])
  }

  function Lower(s: string): (u: string)
    ensures |u| == |s|
  {
    if s == "" then "" else [LowerChar(s[0])] + Lower(s[1..])
  }

  /** The same letter, in either case, for ASCII letters; otherwise the same character. */
  predicate SameLetter(a: char, b: char) {
    a == b || ('a' <= a <= 'z' && a as int - b as int == 32) || ('a' <= b <= 'z' && b as int - a as int == 32)
  }

  lemma {:induction false} UpperAt(s: string, i: nat)
    requires i < |s|
    ensures Upper(s)[i] == UpperChar(s[i])
  {
    if i > 0 { UpperAt(s[1..], i - 1); }
  }

  lemma {:induction false} LowerAt(s: string, i: nat)
    requires i < |s|
    ensures Lower(s)[i] == LowerChar(s[i])
  {
    if i > 0 { LowerAt(s[1..], i - 1); }
  }

  /** Texts differ in the case of ASCII letters only. */
  predicate SameButCase(a: string, b: string) { |a| == |b| && forall i | 0 <= i < |a| :: SameLetter(a[i], b[i]) }

  /** Upper case tells texts apart exactly where they differ in more than the case of ASCII letters; so does lower. */
  lemma CaseOnly(a: string, b: string)
    ensures Upper(a) == Upper(b) <==> SameButCase(a, b)
    ensures Lower(a) == Lower(b) <==> SameButCase(a, b)
  {
    forall i | 0 <= i < |a| ensures Upper(a)[i] == UpperChar(a[i]) && Lower(a)[i] == LowerChar(a[i]) {
      UpperAt(a, i);
      LowerAt(a, i);
    }
    forall i | 0 <= i < |b| ensures Upper(b)[i] == UpperChar(b[i]) && Lower(b)[i] == LowerChar(b[i]) {
      UpperAt(b, i);
      LowerAt(b, i);
    }
  }

  predicate OneLine(s: string) { '\n' !in s }

  function Join(lines: seq<string>): string
    requires lines != []
  {
    if |lines| == 1 then lines[0] else lines[0] + "\n" + Join(lines[1..])
  }

  function OrDash(o: Option<string>): string { if o.Some? then o.value else "-" }

  function RequestLines(d: Direction, tenantId: string, method_: string, host: string, path: string,
                        timestamp: string, nonce: string,
                        bodyDigest: string, props: Option<string>, callId: Option<string>): seq<string>
  {
    [REQUEST_LABEL, Label(d), tenantId, Upper(method_), Lower(host), path, timestamp, nonce, bodyDigest,
        OrDash(props), OrDash(callId)]
  }

  function ResponseLines(d: Direction, tenantId: string, requestNonce: string, status: string,
                         bodyDigest: string): seq<string>
  {
    [RESPONSE_LABEL, Label(d), tenantId, requestNonce, status, bodyDigest]
  }

  /** The text a call's signature covers, line by line. */
  lemma RequestTextIs(d: Direction, tenantId: string, method_: string, host: string, path: string,
                      timestamp: string, nonce: string, bodyDigest: string, props: Option<string>,
                      callId: Option<string>)
    ensures var lines := RequestLines(d, tenantId, method_, host, path, timestamp, nonce, bodyDigest, props, callId);
            && |lines| == 11
            && lines[0] == "openping-signed-call-v1" && lines[2] == tenantId
            && lines[1] == (if d.PlatformToTenant? then "platform-to-tenant" else "tenant-to-platform")
            && |lines[3]| == |method_| && |lines[4]| == |host|
            && (forall i | 0 <= i < |method_| :: SameLetter(lines[3][i], method_[i]) && !('a' <= lines[3][i] <= 'z'))
            && (forall i | 0 <= i < |host| :: SameLetter(lines[4][i], host[i]) && !('A' <= lines[4][i] <= 'Z'))
            && lines[5] == path && lines[6] == timestamp && lines[7] == nonce && lines[8] == bodyDigest
            && lines[9] == (if props == None then "-" else props.value)
            && lines[10] == (if callId == None then "-" else callId.value)
  {
    forall i | 0 <= i < |method_| ensures Upper(method_)[i] == UpperChar(method_[i]) { UpperAt(method_, i); }
    forall i | 0 <= i < |host| ensures Lower(host)[i] == LowerChar(host[i]) { LowerAt(host, i); }
  }

  /** And the text an answer's covers. */
  lemma ResponseTextIs(d: Direction, tenantId: string, requestNonce: string, status: string, bodyDigest: string)
    ensures ResponseLines(d, tenantId, requestNonce, status, bodyDigest)
         == ["openping-signed-response-v1", if d.PlatformToTenant? then "platform-to-tenant" else "tenant-to-platform",
             tenantId, requestNonce, status, bodyDigest]
  {
  }

  /** A line ends where the joined text first breaks, so one-line fields can be read back. */
  lemma {:induction false} JoinInjective(a: seq<string>, b: seq<string>)
    requires a != [] && b != []
    requires forall i | 0 <= i < |a| :: OneLine(a[i])
    requires forall i | 0 <= i < |b| :: OneLine(b[i])
    requires Join(a) == Join(b)
    ensures a == b
  {
    FirstLine(a, b);
    FirstLine(b, a);
    assert a[0] == b[0];
    if |a| == 1 {
      LongerText(b);
      assert |b| == 1;
      assert a == [a[0]] && b == [b[0]];
    } else {
      LongerText(a);
      assert |b| > 1;
      assert Join(a) == (a[0] + "\n") + Join(a[1..]);
      assert Join(b) == (b[0] + "\n") + Join(b[1..]);
      assert Join(a[1..]) == Join(a)[|a[0]| + 1..] == Join(b)[|b[0]| + 1..] == Join(b[1..]);
      JoinInjective(a[1..], b[1..]);
      assert a == [a[0]] + a[1..] && b == [b[0]] + b[1..];
    }
  }

  lemma LongerText(lines: seq<string>)
    requires lines != []
    ensures |lines| > 1 ==> |Join(lines)| > |lines[0]| && Join(lines)[|lines[0]|] == '\n'
    ensures |Join(lines)| >= |lines[0]| && Join(lines)[..|lines[0]|] == lines[0]
  {
    if |lines| > 1 {
      assert Join(lines) == lines[0] + ("\n" + Join(lines[1..]));
    }
  }

  lemma FirstLine(a: seq<string>, b: seq<string>)
    requires a != [] && b != [] && OneLine(a[0]) && OneLine(b[0]) && Join(a) == Join(b)
    ensures |a[0]| <= |b[0]|
    ensures |a[0]| == |b[0]| ==> a[0] == b[0]
  {
    LongerText(a);
    LongerText(b);
  }

  // ----- verification ----------------------------------------------------------

  predicate IsTenantId(s: string) { |s| == 16 && forall i | 0 <= i < |s| :: 'a' <= s[i] <= 'z' || '0' <= s[i] <= '9' }

  predicate IsDigits(s: string) { 1 <= |s| <= 16 && forall i | 0 <= i < |s| :: '0' <= s[i] <= '9' }

  predicate IsNonce(s: string) {
    |s| == 22 && forall i | 0 <= i < |s| ::
        'a' <= s[i] <= 'z' || 'A' <= s[i] <= 'Z' || '0' <= s[i] <= '9' || s[i] == '_' || s[i] == '-'
  }

  function ValueOf(digits: string): int {
    if digits == "" then 0 else ValueOf(digits[..|digits| - 1]) * 10 + (digits[|digits| - 1] as int - '0' as int)
  }

  /** A time as its signer writes it. */
  function Decimal(n: nat): string {
    if n < 10 then [('0' as int + n) as char] else Decimal(n / 10) + [('0' as int + n % 10) as char]
  }

  /** What is read of a written time is the time. */
  lemma {:induction false} DecimalReadsBack(n: nat)
    ensures ValueOf(Decimal(n)) == n && |Decimal(n)| >= 1
    ensures forall c | c in Decimal(n) :: '0' <= c <= '9'
    decreases n
  {
    var last := ('0' as int + n % 10) as char;
    if n < 10 {
      assert Decimal(n) == [last] && [last][..0] == "" && ValueOf("") == 0;
    } else {
      DecimalReadsBack(n / 10);
      assert Decimal(n)[..|Decimal(n)| - 1] == Decimal(n / 10);
    }
  }

  lemma {:induction false} DecimalLength(n: nat, digits: nat)
    requires digits >= 1 && n < Pow10(digits)
    ensures |Decimal(n)| <= digits
    decreases digits
  {
    if n >= 10 {
      assert Pow10(digits) == 10 * Pow10(digits - 1);
      assert digits > 1 by { assert Pow10(0) == 1; }
      DecimalLength(n / 10, digits - 1);
    }
  }

  function Pow10(n: nat): nat { if n == 0 then 1 else 10 * Pow10(n - 1) }

  /** Every time a side writes, for as long as 16 digits last, is accepted as one. */
  lemma TimesFit(n: nat)
    requires n < 10_000_000_000_000_000
    ensures IsDigits(Decimal(n)) && ValueOf(Decimal(n)) == n
  {
    DecimalReadsBack(n);
    assert Pow10(4) == 10_000 && Pow10(8) == 100_000_000 && Pow10(12) == 1_000_000_000_000;
    assert Pow10(16) == 10_000_000_000_000_000;
    DecimalLength(n, 16);
    assert forall i | 0 <= i < |Decimal(n)| :: Decimal(n)[i] in Decimal(n);
  }

  lemma {:induction false} SextetCount(bytes: seq<B.Byte>)
    ensures |B.Sextets(bytes)| == |bytes| / 3 * 4 + (if |bytes| % 3 == 0 then 0 else |bytes| % 3 + 1)
    decreases |bytes|
  {
    if |bytes| > 3 { SextetCount(bytes[3..]); }
  }

  /** Every nonce a side makes, 16 random bytes, is accepted as one. */
  lemma NoncesFit(bytes: seq<B.Byte>)
    requires |bytes| == 16
    ensures IsNonce(B.Encode(bytes))
  {
    SextetCount(bytes);
    B.TextValues(B.Sextets(bytes));
  }

  datatype Error = Unsigned | Malformed | BadSignature | WrongTenant | Expired | NotYetValid | BodyTooLarge | BadProps

  datatype Verification = Verified(tenantId: string, nonce: string, nonceExpiresAt: int) | Refused(error: Error)

  /**
   * What the code takes from its surroundings: the digest, and what a props header
   * decodes to for a tenant (its call id).
   */
  datatype Surroundings = Surroundings(digest: string -> string, decodeProps: (string, string) -> Option<string>)

  ghost predicate Ideal(e: Surroundings) {
    && (forall x, y :: e.digest(x) == e.digest(y) ==> x == y)
    && (forall x :: OneLine(e.digest(x)))
  }

  function CanonicalOf(e: Surroundings, d: Direction, r: Request): string
    requires r.tenant.Some? && r.timestamp.Some? && r.nonce.Some?
  {
    Join(RequestLines(d, r.tenant.value, r.method_, r.host, r.path, r.timestamp.value, r.nonce.value,
        e.digest(r.body), r.props, r.callId))
  }

  /** verifySignedRequest, check by check. `secretFor` answers the secret of a tenant's keys, if it has any. */
  function Verify(e: Surroundings, d: Direction, now: int, secretFor: string -> Option<int>, r: Request): Verification {
    if r.signature.Absent? then Refused(Unsigned)
    else if r.tenant.None? || !IsTenantId(r.tenant.value) || r.timestamp.None? || !IsDigits(r.timestamp.value)
        || r.nonce.None? || !IsNonce(r.nonce.value)
    then Refused(Malformed)
    else if (d == PlatformToTenant) != r.props.Some? then Refused(Malformed)
    else
      var at := ValueOf(r.timestamp.value);
      if at > now + MAX_SKEW_MS then Refused(NotYetValid)
      else if at < now - MAX_SKEW_MS then Refused(Expired)
      else if |r.body| > MAX_BODY_BYTES then Refused(BodyTooLarge)
      else
        var secret := secretFor(r.tenant.value);
        if secret.None? then Refused(WrongTenant)
        else if r.signature != Carries(Mac(Key(secret.value, d), CanonicalOf(e, d, r))) then Refused(BadSignature)
        else if r.props.Some? && (e.decodeProps(r.props.value, r.tenant.value).None?
            || e.decodeProps(r.props.value, r.tenant.value) != r.callId)
        then Refused(BadProps)
        else Verified(r.tenant.value, r.nonce.value, at + NONCE_RETENTION_MS)
  }

  /** By their codes: the digits, and the small and capital letters, of ASCII. */
  predicate IsDigit(c: char) { 48 <= c as int <= 57 }

  predicate IsSmall(c: char) { 97 <= c as int <= 122 }

  predicate IsCapital(c: char) { 65 <= c as int <= 90 }

  /** The formats: 16 small letters or digits, one to 16 digits, 22 characters of base64url. */
  lemma FormatsAre(s: string)
    ensures IsTenantId(s) <==> |s| == 16 && forall c | c in s :: IsSmall(c) || IsDigit(c)
    ensures IsDigits(s) <==> 0 < |s| < 17 && forall c | c in s :: IsDigit(c)
    ensures IsNonce(s) <==>
              |s| == 22 && forall c | c in s :: IsSmall(c) || IsCapital(c) || IsDigit(c) || c == '-' || c == '_'
  {
    assert forall i | 0 <= i < |s| :: s[i] in s;
  }

  /** The headers are there and well formed, and the props are exactly where the direction has them. */
  predicate HeadersFit(d: Direction, r: Request) {
    && r.tenant.Some? && IsTenantId(r.tenant.value) && r.timestamp.Some? && IsDigits(r.timestamp.value)
    && r.nonce.Some? && IsNonce(r.nonce.value) && (r.props.Some? <==> d == PlatformToTenant)
  }

  /** Its props decode, for the tenant it names, to the call id it carries. */
  predicate NamesItsCall(e: Surroundings, r: Request)
    requires r.props.Some?
  {
    r.tenant.Some? && r.callId.Some? && e.decodeProps(r.props.value, r.tenant.value) == r.callId
  }

  /** What each refusal means: the first of the checks, in this order, that the call did not pass. */
  lemma RefusedBecause(e: Surroundings, d: Direction, now: int, secretFor: string -> Option<int>, r: Request)
    ensures var v := Verify(e, d, now, secretFor, r);
            && (v == Refused(Unsigned) <==> r.signature.Absent?)
            && (v == Refused(Malformed) <==> !r.signature.Absent? && !HeadersFit(d, r))
            && (r.signature.Absent? || !HeadersFit(d, r) || (
                var age := now - ValueOf(r.timestamp.value);
                && (v == Refused(NotYetValid) <==> age < -30_000) && (v == Refused(Expired) <==> age > 30_000)
                && (v == Refused(BodyTooLarge) <==> -30_000 <= age <= 30_000 && |r.body| > 262_144)
                && (-30_000 <= age <= 30_000 && |r.body| <= 262_144 ==>
                    && (v == Refused(WrongTenant) <==> secretFor(r.tenant.value).None?)
                    && (v == Refused(BadSignature) <==>
                        secretFor(r.tenant.value).Some? && r.signature
                            != Carries(Mac(Key(secretFor(r.tenant.value).value, d), CanonicalOf(e, d, r)))))))
            && (v == Refused(BadProps) ==> r.props.Some? && !NamesItsCall(e, r))
            && (v.Verified? ==> r.props.Some? ==> NamesItsCall(e, r))
  {
  }

  /** A tenant's two secrets, while one waits for a rotation. */
  datatype Secrets = Secrets(current: int, next: Option<int>)

  /** handleTenantCall's verification: with the current secret, then, for a bad signature, with the waiting one. */
  function VerifyEither(e: Surroundings, now: int, secretsFor: string -> Option<Secrets>, r: Request)
    : (Verification, Option<int>)
  {
    var current := (id: string) => if secretsFor(id).Some? then Some(secretsFor(id).value.current) else None;
    var first := Verify(e, TenantToPlatform, now, current, r);
    var found := if r.tenant.Some? then secretsFor(r.tenant.value) else None;
    if first.Verified? then (first, Some(found.value.current))
    else if first == Refused(BadSignature) && found.Some? && found.value.next.Some? then
      var waiting := found.value.next.value;
      var second := Verify(e, TenantToPlatform, now, (_: string) => Some(waiting), r);
      (second, if second.Verified? then Some(waiting) else None)
    else (first, None)
  }

  // ----- what was signed ---------------------------------------------------------

  /** A call one side signed, with the fields its signature covers. */
  datatype Signed = Signed(secret: int, direction: Direction, tenantId: string, call: Request)

  /** An answer one side signed. */
  datatype Answer = Answer(secret: int, direction: Direction, tenantId: string, requestNonce: string, status: string,
      body: string)

  /** Fields that travel in a request line, a URL or a header hold no line break. */
  predicate Transmittable(r: Request) {
    && OneLine(r.method_) && OneLine(r.host) && OneLine(r.path)
    && (r.timestamp.Some? ==> OneLine(r.timestamp.value)) && (r.nonce.Some? ==> OneLine(r.nonce.value))
        && (r.tenant.Some? ==> OneLine(r.tenant.value))
    && (r.props.Some? ==> OneLine(r.props.value)) && (r.callId.Some? ==> OneLine(r.callId.value))
  }

  predicate IsCall(s: Signed) {
    && Transmittable(s.call) && s.call.tenant == Some(s.tenantId) && s.call.timestamp.Some? && s.call.nonce.Some?
    && (s.direction == PlatformToTenant <==> s.call.props.Some?)
  }

  function CallMac(e: Surroundings, s: Signed): Mac
    requires IsCall(s)
  {
    Mac(Key(s.secret, s.direction), CanonicalOf(e, s.direction, s.call))
  }

  predicate IsAnswer(a: Answer) { OneLine(a.tenantId) && OneLine(a.requestNonce) && OneLine(a.status) }

  function AnswerText(e: Surroundings, a: Answer): string {
    Join(ResponseLines(a.direction, a.tenantId, a.requestNonce, a.status, e.digest(a.body)))
  }

  function AnswerMac(e: Surroundings, a: Answer): Mac { Mac(Key(a.secret, a.direction), AnswerText(e, a)) }

  /** Every MAC there is was made by a side that holds the secret, for a call or an answer it signed. */
  ghost predicate Made(e: Surroundings, signed: seq<Signed>, answers: seq<Answer>, mac: Mac) {
    || (exists i :: 0 <= i < |signed| && IsCall(signed[i]) && mac == CallMac(e, signed[i]))
    || (exists i :: 0 <= i < |answers| && IsAnswer(answers[i]) && mac == AnswerMac(e, answers[i]))
  }

  predicate SameHeader(a: Option<string>, b: Option<string>) { a == b || (OrDash(a) == "-" && OrDash(b) == "-") }

  /** The received call is the signed one: method and host up to letter case, the call id up to absent versus "-". */
  predicate Says(r: Request, s: Signed) {
    && r.tenant == Some(s.tenantId)
    && SameButCase(r.method_, s.call.method_) && SameButCase(r.host, s.call.host) && r.path == s.call.path
    && r.timestamp == s.call.timestamp && r.nonce == s.call.nonce && r.body == s.call.body
    && r.props == s.call.props && SameHeader(r.callId, s.call.callId)
  }

  lemma {:induction false} UpperOneLine(s: string)
    requires OneLine(s)
    ensures OneLine(Upper(s))
  {
    if s != "" {
      assert s[0] in s && forall c | c in s[1..] :: c in s;
      UpperOneLine(s[1..]);
    }
  }

  lemma {:induction false} LowerOneLine(s: string)
    requires OneLine(s)
    ensures OneLine(Lower(s))
  {
    if s != "" {
      assert s[0] in s && forall c | c in s[1..] :: c in s;
      LowerOneLine(s[1..]);
    }
  }

  lemma RequestLinesAreLines(e: Surroundings, d: Direction, r: Request)
    requires Ideal(e) && Transmittable(r) && r.tenant.Some? && r.timestamp.Some? && r.nonce.Some?
    ensures forall line | line in RequestLines(d, r.tenant.value, r.method_, r.host, r.path, r.timestamp.value,
                                               r.nonce.value, e.digest(r.body), r.props, r.callId)
              :: OneLine(line)
  {
    UpperOneLine(r.method_);
    LowerOneLine(r.host);
  }

  /** Two calls with one canonical text are one call, whichever directions they claim. */
  lemma CanonicalInjective(e: Surroundings, d: Direction, r: Request, s: Signed)
    requires Ideal(e) && Transmittable(r) && IsCall(s) && r.tenant.Some? && r.timestamp.Some? && r.nonce.Some?
    requires d == PlatformToTenant <==> r.props.Some?
    requires CanonicalOf(e, d, r) == CanonicalOf(e, s.direction, s.call)
    ensures d == s.direction && Says(r, s)
  {
    var a := RequestLines(d, r.tenant.value, r.method_, r.host, r.path, r.timestamp.value, r.nonce.value,
        e.digest(r.body), r.props, r.callId);
    var c := s.call;
    var b := RequestLines(s.direction, c.tenant.value, c.method_, c.host, c.path, c.timestamp.value, c.nonce.value,
        e.digest(c.body), c.props, c.callId);
    RequestLinesAreLines(e, d, r);
    RequestLinesAreLines(e, s.direction, c);
    forall i | 0 <= i < |a| ensures OneLine(a[i]) { assert a[i] in a; }
    forall i | 0 <= i < |b| ensures OneLine(b[i]) { assert b[i] in b; }
    JoinInjective(a, b);
    CaseOnly(r.method_, c.method_);
    CaseOnly(r.host, c.host);
    assert a[1] == b[1];
    assert a[2] == b[2] && a[3] == b[3] && a[4] == b[4] && a[5] == b[5] && a[6] == b[6] && a[7] == b[7]
        && a[8] == b[8] && a[9] == b[9] && a[10] == b[10];
  }

  /** No signed answer passes for a call, although one key signs both: their first lines differ. */
  lemma AnswersAreNotCalls(e: Surroundings, d: Direction, r: Request, a: Answer)
    requires Ideal(e) && Transmittable(r) && r.tenant.Some? && r.timestamp.Some? && r.nonce.Some?
    requires IsAnswer(a)
    ensures CanonicalOf(e, d, r) != AnswerText(e, a)
  {
    var calls := RequestLines(d, r.tenant.value, r.method_, r.host, r.path, r.timestamp.value, r.nonce.value,
        e.digest(r.body), r.props, r.callId);
    var answers := ResponseLines(a.direction, a.tenantId, a.requestNonce, a.status, e.digest(a.body));
    RequestLinesAreLines(e, d, r);
    forall i | 0 <= i < |calls| ensures OneLine(calls[i]) { assert calls[i] in calls; }
    if Join(calls) == Join(answers) {
      JoinInjective(calls, answers);
    }
  }

  /**
   * Every call that verifies was signed by a holder of that tenant's secret,
   * for that direction, tenant, method, host, path and query, timestamp, nonce,
   * body, props and call id.
   */
  lemma VerifiedMeansSigned(e: Surroundings, d: Direction, now: int, secretFor: string -> Option<int>, r: Request,
                            signed: seq<Signed>, answers: seq<Answer>)
    requires Ideal(e) && Transmittable(r)
    requires r.signature.Carries? ==> Made(e, signed, answers, r.signature.mac)
    requires Verify(e, d, now, secretFor, r).Verified?
    ensures exists i :: 0 <= i < |signed| && IsCall(signed[i]) && signed[i].direction == d
                        && Some(signed[i].secret) == secretFor(signed[i].tenantId) && Says(r, signed[i])
    ensures -MAX_SKEW_MS <= ValueOf(r.timestamp.value) - now <= MAX_SKEW_MS
  {
    var mac := r.signature.mac;
    forall i | 0 <= i < |answers| && IsAnswer(answers[i])
      ensures mac.text != AnswerText(e, answers[i])
    {
      AnswersAreNotCalls(e, d, r, answers[i]);
    }
    var i :| 0 <= i < |signed| && IsCall(signed[i]) && mac == CallMac(e, signed[i]);
    CanonicalInjective(e, d, r, signed[i]);
  }

  /**
   * During a rotation too: whatever handleTenantCall verifies was signed by the
   * tenant it names, with that tenant's current or waiting secret, the one its
   * answer is signed with.
   */
  lemma EitherSecretMeansSigned(e: Surroundings, now: int, secretsFor: string -> Option<Secrets>, r: Request,
                                signed: seq<Signed>, answers: seq<Answer>)
    requires Ideal(e) && Transmittable(r)
    requires r.signature.Carries? ==> Made(e, signed, answers, r.signature.mac)
    requires VerifyEither(e, now, secretsFor, r).0.Verified?
    ensures var v := VerifyEither(e, now, secretsFor, r);
            && v.1.Some? && r.tenant.Some? && secretsFor(r.tenant.value).Some?
            && (v.1.value == secretsFor(r.tenant.value).value.current || v.1 == secretsFor(r.tenant.value).value.next)
            && exists i :: 0 <= i < |signed| && signed[i].direction == TenantToPlatform
                && signed[i].secret == v.1.value && Says(r, signed[i])
  {
    var current := (id: string) => if secretsFor(id).Some? then Some(secretsFor(id).value.current) else None;
    if Verify(e, TenantToPlatform, now, current, r).Verified? {
      VerifiedMeansSigned(e, TenantToPlatform, now, current, r, signed, answers);
    } else {
      var waiting := secretsFor(r.tenant.value).value.next.value;
      VerifiedMeansSigned(e, TenantToPlatform, now, (_: string) => Some(waiting), r, signed, answers);
    }
  }

  /** A call as a side sends it: well formed, its body within the limit, its props naming its call id. */
  predicate WellFormed(e: Surroundings, s: Signed) {
    && IsCall(s) && IsTenantId(s.tenantId) && IsDigits(s.call.timestamp.value) && IsNonce(s.call.nonce.value)
    && |s.call.body| <= MAX_BODY_BYTES
    && (s.call.props.Some? ==>
        s.call.callId.Some? && e.decodeProps(s.call.props.value, s.tenantId) == s.call.callId)
  }

  /** The call with its signature. */
  function Sent(e: Surroundings, s: Signed): Request
    requires IsCall(s)
  {
    s.call.(signature := Carries(CallMac(e, s)))
  }

  /** It reaches the other side while its timestamp is within 30 seconds of that side's clock. */
  predicate InItsWindow(s: Signed, now: int)
    requires IsCall(s)
  {
    -30_000 <= ValueOf(s.call.timestamp.value) - now <= 30_000
  }

  /** What a side signs verifies: an unaltered call, inside its window, is accepted by whoever holds the secret. */
  lemma SignedVerifies(e: Surroundings, s: Signed, now: int, secretFor: string -> Option<int>)
    requires WellFormed(e, s) && InItsWindow(s, now) && secretFor(s.tenantId) == Some(s.secret)
    ensures Verify(e, s.direction, now, secretFor, Sent(e, s))
            == Verified(s.tenantId, s.call.nonce.value, ValueOf(s.call.timestamp.value) + 65_000)
  {
    assert CanonicalOf(e, s.direction, Sent(e, s)) == CanonicalOf(e, s.direction, s.call);
  }

  /** And by nobody else: another secret makes it a bad signature. */
  lemma OtherSecretRefuses(e: Surroundings, s: Signed, now: int, secretFor: string -> Option<int>)
    requires WellFormed(e, s) && InItsWindow(s, now)
    requires secretFor(s.tenantId).Some? && secretFor(s.tenantId) != Some(s.secret)
    ensures Verify(e, s.direction, now, secretFor, Sent(e, s)) == Refused(BadSignature)
  {
  }

  /**
   * A tenant's unaltered call, inside its window, verifies at the platform exactly
   * when it was signed with that tenant's current or waiting secret, and its answer
   * is then signed with the one it was signed with.
   */
  lemma EitherSecretVerifiesIff(e: Surroundings, s: Signed, now: int, secretsFor: string -> Option<Secrets>)
    requires WellFormed(e, s) && InItsWindow(s, now) && s.direction == TenantToPlatform
    requires secretsFor(s.tenantId).Some?
    ensures var secrets := secretsFor(s.tenantId).value;
            VerifyEither(e, now, secretsFor, Sent(e, s))
            == if secrets.current == s.secret || secrets.next == Some(s.secret)
               then (Verified(s.tenantId, s.call.nonce.value, ValueOf(s.call.timestamp.value) + 65_000), Some(s.secret))
               else (Refused(BadSignature), None)
  {
    var secrets := secretsFor(s.tenantId).value;
    var current := (id: string) => if secretsFor(id).Some? then Some(secretsFor(id).value.current) else None;
    if secrets.current == s.secret {
      SignedVerifies(e, s, now, current);
    } else {
      OtherSecretRefuses(e, s, now, current);
      if secrets.next.Some? {
        var waiting := secrets.next.value;
        if waiting == s.secret {
          SignedVerifies(e, s, now, (_: string) => Some(waiting));
        } else {
          OtherSecretRefuses(e, s, now, (_: string) => Some(waiting));
        }
      }
    }
  }
}
