/**
 * The entitlement service (supabase/functions/server/index.tsx): request
 * handlers over a key-value store that holds one record per account
 * (`user:<id>`) and one per device fingerprint (`device:<fingerprint>`), plus
 * the in-memory table of e-mail verification codes.
 *
 * Each handler is a method of `Server` that returns the HTTP status and the
 * JSON body as a `Response`. What the Supabase auth service answers (user
 * creation, user lookup by id) and what decoding a JWT payload yields are
 * parameters; so are the clock and the random draw.
 */
module EntitlementServer {
  import opened Optional
  import opened JsText

  /** Calculations an account without full access may record. */
  const FreeCalculationLimit: nat := 5
  /** check-device thresholds: total calculations and accounts per device. */
  const DeviceCalculationLimit: nat := 15
  const DeviceAccountLimit: nat := 3
  /** Lifetime of an e-mail verification code: 10 * 60 * 1000 ms. */
  const CodeLifetimeMs: int := 600000

  /** VALID_LICENSE_KEYS: the static allow-list of full-access keys. */
  const ValidLicenseKeys: seq<string> := ["BASELINE-FULL-2024", "BASELINE-PRO-2024", "BASELINE-UNLIMITED"]

  // ---------------------------------------------------------------------------
  // Records, gateway answers and responses
  // ---------------------------------------------------------------------------

  /** The value stored under `user:<id>`. */
  datatype UserRec = UserRec(email: string, name: string, hasFullAccess: bool, calculationsUsed: nat, createdAt: string)

  /** The value stored under `device:<fingerprint>`. */
  datatype DeviceRec = DeviceRec(calculations: nat, accounts: seq<string>, firstSeen: string, lastSeen: string)

  /** An entry of the verification-code table, keyed by e-mail. */
  datatype PendingCode = PendingCode(code: string, expires: int, email: string)

  /** `user_metadata` as the auth service keeps it ("" / false / 0 when a field is absent). */
  datatype Metadata = Metadata(name: string, hasFullAccess: bool, calculationsUsed: nat)

  /** A user as `auth.admin.getUserById` returns it. */
  datatype AuthUser = AuthUser(id: string, email: string, metadata: Metadata)

  /** What `auth.admin.getUserById` answers: a user, or an error (message "" when there is no error object). */
  datatype Lookup = Found(user: AuthUser) | LookupFailed(message: string)

  /** What `auth.admin.createUser` answers. */
  datatype Creation = Created(id: string, email: string) | CreateFailed(message: string)

  /** The JSON body of a response. */
  datatype Payload =
    | Failure(error: string, details: string)
    | SignedUp(id: string, email: string, name: string, hasFullAccess: bool, calculationsUsed: nat)
    | Counted(hasFullAccess: bool, usedSoFar: Option<nat>, calculationsRemaining: int)  // usedSoFar: the `calculationsUsed` field, absent for full access
    | LimitReached(calculationsUsed: nat, calculationsRemaining: int)
    | Upgraded(hasFullAccess: bool)
    | DeviceStatus(allowed: bool, calculations: nat, accountsCreated: nat, message: Option<string>)
    | Tracked
    | CodeSent(previewCode: string)
    | EmailVerified

  datatype Response = Response(status: int, payload: Payload) {
    /** `response.ok` as fetch reports it. */
    predicate Ok() { 200 <= status < 300 }
  }

  const Unauthorized: Response := Response(401, Failure("Unauthorized", ""))
  const InvalidToken: Response := Response(401, Failure("Invalid token", ""))
  const MissingSignupFields: Response := Response(400, Failure("Email, password, and name are required", ""))
  const NoUpgradeToken: Response := Response(401, Failure("Unauthorized - No token", ""))
  const InvalidLicenseKey: Response := Response(400, Failure("Invalid license key", ""))
  const MalformedToken: Response := Response(401, Failure("Invalid token format - unable to extract user ID", ""))
  const FingerprintRequired: Response := Response(400, Failure("Device fingerprint required", ""))
  const EmailRequired: Response := Response(400, Failure("Email required", ""))
  const EmailAndCodeRequired: Response := Response(400, Failure("Email and code required", ""))
  const NoCodeFound: Response := Response(400, Failure("No verification code found. Please request a new one.", ""))
  const CodeExpired: Response := Response(400, Failure("Verification code expired. Please request a new one.", ""))
  const CodeMismatch: Response := Response(400, Failure("Invalid verification code", ""))

  /** The error text of a 403 from calculate. */
  const LimitReachedText: string := "Calculation limit reached. Please upgrade to Full Access."
  const DeviceAllowedText: string := "Device allowed"
  const DeviceLimitText: string := "Device limit exceeded. Please purchase a license for unlimited access."

  /** The Authorization prefix upgrade accepts as carrying a user's JWT (not the anonymous key). */
  const BearerJwtPrefix: string := "Bearer ey"

  /** The track-device actions. */
  const CalculateAction: string := "calculate"
  const SignupAction: string := "signup"

  /** upgrade's 401 when the auth service does not know the user. */
  function LookupRefusal(message: string): Response {
    Response(401, Failure("Authentication failed - " + (if message != "" then message else "User not found"),
                          "Please ensure you are logged in with a valid session"))
  }

  // ---------------------------------------------------------------------------
  // License keys and tokens
  // ---------------------------------------------------------------------------

  /** `licenseKey && VALID_LICENSE_KEYS.includes(licenseKey.trim())`, as a truth value. */
  predicate IsValidLicenseKey(licenseKey: string) {
    licenseKey != "" && Trim(licenseKey) in ValidLicenseKeys
  }

  /** Every listed key is non-empty and has no white space at either end. */
  lemma ListedKeyShape(key: string)
    requires key in ValidLicenseKeys
    ensures |key| > 0 && !IsWhitespace(key[0]) && !IsWhitespace(key[|key| - 1])
  {
    assert key == ValidLicenseKeys[0] || key == ValidLicenseKeys[1] || key == ValidLicenseKeys[2];
  }

  /** No listed key is the empty string. */
  lemma NoListedKeyIsEmpty()
    ensures "" !in ValidLicenseKeys
  {
  }

  /** A key is valid exactly when its trimmed form is listed: the non-empty guard never decides. */
  lemma ValidMeansListed(licenseKey: string)
    ensures IsValidLicenseKey(licenseKey) <==> Trim(licenseKey) in ValidLicenseKeys
  {
    if Trim(licenseKey) in ValidLicenseKeys {
      NoListedKeyIsEmpty();
      assert |Trim(licenseKey)| <= |licenseKey|;
    }
  }

  /** Two keys that trim to the same text get the same verdict. */
  lemma SameTrimSameVerdict(a: string, b: string)
    requires Trim(a) == Trim(b)
    ensures IsValidLicenseKey(a) <==> IsValidLicenseKey(b)
  {
    ValidMeansListed(a);
    ValidMeansListed(b);
  }

  /** A listed key is accepted whatever white space surrounds it, and only the listed spelling. */
  lemma ValidKeyAcceptedWithPadding(before: string, key: string, after: string)
    requires AllWhitespace(before) && AllWhitespace(after)
    requires key in ValidLicenseKeys
    ensures IsValidLicenseKey(before + key + after)
  {
    ListedKeyShape(key);
    TrimOfPadded(before, key, after);
  }

  /**
   * extractUserIdFromJWT: the subject of a token made of exactly three
   * dot-separated parts. `decodeSubject` stands for
   * `JSON.parse(atob(part)).sub`, with "" when decoding fails or there is
   * no subject.
   */
  function ExtractUserId(token: string, decodeSubject: string -> string): (userId: Option<string>)
    ensures |Split(token, '.')| == multiset(token)['.'] + 1
    ensures userId.Some? <==> multiset(token)['.'] == 2 && decodeSubject(Split(token, '.')[1]) != ""
    ensures userId.Some? ==> userId.value == decodeSubject(Split(token, '.')[1])
  {
    var parts := Split(token, '.');
    SplitShape(token, '.');
    if |parts| != 3 then None
    else
      var subject := decodeSubject(parts[1]);
      if subject == "" then None else Some(subject)
  }

  /** `c.req.header('Authorization')?.split(' ')[1]`: "" when absent. */
  function BearerToken(authorization: string): (token: string)
    ensures token != "" ==> ' ' in authorization && ' ' !in token
  {
    SplitShape(authorization, ' ');
    var parts := Split(authorization, ' ');
    if |parts| >= 2 then parts[1] else ""
  }

  /** After a "Bearer ey" prefix, the second space-separated piece begins with "ey". */
  lemma BearerEyPiece(authorization: string)
    requires StartsWith(authorization, BearerJwtPrefix)
    ensures |Split(authorization, ' ')| >= 2 && |Split(authorization, ' ')[1]| >= 2
  {
    var rest := authorization[7..];
    assert authorization[..9] == BearerJwtPrefix;
    assert authorization == "Bearer" + [' '] + rest;
    SplitAfterFirst("Bearer", rest, ' ');
    assert rest == "ey" + rest[2..];
    SplitFirstKeepsPrefix("ey", rest[2..], ' ');
  }

  /**
   * The upgrade handler's token: the `x-user-token` header, else `userToken`
   * from the body, else the second piece of an Authorization header that
   * starts with "Bearer ey"; "" when there is none.
   */
  function UpgradeToken(headerToken: string, bodyToken: string, authorization: string): (token: string)
    ensures headerToken != "" ==> token == headerToken
    ensures headerToken == "" && bodyToken != "" ==> token == bodyToken
    ensures token != "" <==> headerToken != "" || bodyToken != "" || StartsWith(authorization, BearerJwtPrefix)
  {
    if headerToken != "" then headerToken
    else if bodyToken != "" then bodyToken
    else if StartsWith(authorization, BearerJwtPrefix) then
      BearerEyPiece(authorization);
      Split(authorization, ' ')[1]
    else ""
  }

  /** Who is calling, as calculate determines it from the bearer token. */
  datatype Caller = NoToken | BadToken | UnknownUser | Known(user: AuthUser)

  function CallerOf(token: string, decodeSubject: string -> string, getUserById: string -> Lookup): Caller {
    if token == "" then NoToken
    else match ExtractUserId(token, decodeSubject)
      case None => BadToken
      case Some(id) => if getUserById(id).Found? then Known(getUserById(id).user) else UnknownUser
  }

  // ---------------------------------------------------------------------------
  // Account records: calculate and upgrade
  // ---------------------------------------------------------------------------

  /** `user.user_metadata?.name || user.email?.split('@')[0] || ''`. */
  function DisplayName(user: AuthUser): string {
    if user.metadata.name != "" then user.metadata.name else Split(user.email, '@')[0]
  }

  /** The record calculate creates for an account the store does not know yet. */
  function RestoredRecord(user: AuthUser, now: string): UserRec {
    UserRec(user.email, DisplayName(user), user.metadata.hasFullAccess, user.metadata.calculationsUsed, now)
  }

  /** The record upgrade starts from for an account the store does not know yet (never full access). */
  function UpgradeBaseRecord(user: AuthUser, now: string): UserRec {
    UserRec(user.email, DisplayName(user), false, user.metadata.calculationsUsed, now)
  }

  /**
   * One calculate call on an account record: full access is answered with
   * "unlimited" (-1) and leaves the record alone; an account at the limit is
   * refused with 403 and left alone; otherwise the counter goes up by one and
   * the answer reports what is left. Only the counter can change.
   */
  function CountCalculation(rec: UserRec): (out: (Response, UserRec))
    ensures out.1 == rec.(calculationsUsed := out.1.calculationsUsed)
    ensures out.0.status == 200 <==> rec.hasFullAccess || rec.calculationsUsed < FreeCalculationLimit
    ensures out.0.status != 200 ==> out.0.status == 403 && out.1 == rec
    ensures rec.hasFullAccess ==> out == (Response(200, Counted(true, None, -1)), rec)
    ensures !rec.hasFullAccess && out.0.status == 200 ==>
      out.1.calculationsUsed == rec.calculationsUsed + 1 <= FreeCalculationLimit
      && out.0.payload == Counted(false, Some(out.1.calculationsUsed), FreeCalculationLimit - out.1.calculationsUsed)
    ensures out.0.status == 403 ==> out.0.payload == LimitReached(rec.calculationsUsed, 0)
  {
    if rec.hasFullAccess then (Response(200, Counted(true, None, -1)), rec)
    else if rec.calculationsUsed >= FreeCalculationLimit then
      (Response(403, LimitReached(rec.calculationsUsed, 0)), rec)
    else
      var newCount := rec.calculationsUsed + 1;
      (Response(200, Counted(false, Some(newCount), FreeCalculationLimit - newCount)), rec.(calculationsUsed := newCount))
  }

  /** The responses to `n` consecutive calculate calls on one account, and its record afterwards. */
  function CalculateRun(rec: UserRec, n: nat): (seq<Response>, UserRec)
    decreases n
  {
    if n == 0 then ([], rec)
    else
      var (r, next) := CountCalculation(rec);
      var (rs, last) := CalculateRun(next, n - 1);
      ([r] + rs, last)
  }

  function Min(a: int, b: int): int { if a <= b then a else b }

  /** What calculate answers an account without full access that has used `used` calculations (at most 5 so far). */
  function FreeTierResponse(used: nat): Response {
    if used < FreeCalculationLimit then
      Response(200, Counted(false, Some(used + 1), FreeCalculationLimit - (used + 1)))
    else Response(403, LimitReached(FreeCalculationLimit, 0))
  }

  /**
   * The 5-use cap: on an account without full access, call i of a run
   * counts up to 5 and then every further call is refused, and the counter
   * never passes 5.
   */
  lemma {:induction false} FreeTierRun(rec: UserRec, n: nat)
    requires !rec.hasFullAccess && rec.calculationsUsed <= FreeCalculationLimit
    ensures |CalculateRun(rec, n).0| == n
    ensures CalculateRun(rec, n).1 == rec.(calculationsUsed := Min(FreeCalculationLimit, rec.calculationsUsed + n))
    ensures forall i :: 0 <= i < n ==> CalculateRun(rec, n).0[i] == FreeTierResponse(rec.calculationsUsed + i)
    decreases n
  {
    if n > 0 {
      var (r, next) := CountCalculation(rec);
      FreeTierRun(next, n - 1);
      var (rs, last) := CalculateRun(next, n - 1);
      assert CalculateRun(rec, n).0 == [r] + rs;
      forall i | 0 <= i < n ensures CalculateRun(rec, n).0[i] == FreeTierResponse(rec.calculationsUsed + i) {
        if i > 0 {
          assert ([r] + rs)[i] == rs[i - 1];
          if rec.calculationsUsed < FreeCalculationLimit {
            assert next.calculationsUsed + (i - 1) == rec.calculationsUsed + i;
          } else {
            assert rec.calculationsUsed + i >= FreeCalculationLimit;
          }
        }
      }
    }
  }

  /** Full access: every call of a run succeeds with "unlimited" and the record never changes. */
  lemma {:induction false} FullAccessRun(rec: UserRec, n: nat)
    requires rec.hasFullAccess
    ensures |CalculateRun(rec, n).0| == n && CalculateRun(rec, n).1 == rec
    ensures forall i :: 0 <= i < n ==> CalculateRun(rec, n).0[i] == Response(200, Counted(true, None, -1))
  {
    if n > 0 {
      FullAccessRun(rec, n - 1);
      var rs := CalculateRun(rec, n - 1).0;
      assert CalculateRun(rec, n).0 == [Response(200, Counted(true, None, -1))] + rs;
    }
  }

  /** The `calculationsRemaining` a response reports (0 for anything but a count). */
  function Remaining(r: Response): int {
    if r.payload.Counted? || r.payload.LimitReached? then r.payload.calculationsRemaining else 0
  }

  /**
   * A fresh free account: five calculations report 4, 3, 2, 1 and 0 remaining,
   * the sixth is refused with 403, and the counter stays at 5.
   */
  lemma FreshFreeAccountScenario(email: string, name: string, now: string)
    ensures var (rs, last) := CalculateRun(UserRec(email, name, false, 0, now), 6);
      |rs| == 6
      && (forall i :: 0 <= i < 5 ==> rs[i].status == 200 && Remaining(rs[i]) == 4 - i)
      && rs[5] == Response(403, LimitReached(5, 0))
      && last.calculationsUsed == 5
  {
    FreeTierRun(UserRec(email, name, false, 0, now), 6);
  }

  /** The record upgrade writes: the old record with full access set, nothing else changed. */
  function UpgradedRecord(rec: UserRec): (r: UserRec)
    ensures r.hasFullAccess
    ensures r.(hasFullAccess := rec.hasFullAccess) == rec
  {
    rec.(hasFullAccess := true)
  }

  /** The stored record for `user`, or `fallback` when the store has none. */
  function StoredOr(users: map<string, UserRec>, user: AuthUser, fallback: UserRec): UserRec {
    if user.id in users then users[user.id] else fallback
  }

  /**
   * What calculate answers a known `user` and the account table afterwards:
   * the stored record (or one restored from the auth metadata) counted once.
   */
  function CountedTable(users: map<string, UserRec>, user: AuthUser, now: string): (out: (Response, map<string, UserRec>))
    ensures user.id in out.1 && out.1.Keys == users.Keys + {user.id}
    ensures forall id :: id in users && id != user.id ==> out.1[id] == users[id]
  {
    var (response, after) := CountCalculation(StoredOr(users, user, RestoredRecord(user, now)));
    (response, users[user.id := after])
  }

  /**
   * Counting loses no account and takes nothing away from any record, and
   * leaves every record with full access exactly as it was.
   */
  lemma CountingExtends(users: map<string, UserRec>, user: AuthUser, now: string)
    ensures Extends(users, CountedTable(users, user, now).1)
    ensures forall id :: id in users && users[id].hasFullAccess ==>
      id in CountedTable(users, user, now).1 && CountedTable(users, user, now).1[id] == users[id]
  {
    var rec := StoredOr(users, user, RestoredRecord(user, now));
    assert user.id in users ==> rec == users[user.id];
  }

  /** The account table after a successful upgrade of `user`. */
  function ApplyUpgrade(users: map<string, UserRec>, user: AuthUser, now: string): map<string, UserRec> {
    users[user.id := UpgradedRecord(StoredOr(users, user, UpgradeBaseRecord(user, now)))]
  }

  /** An upgrade loses no account and takes nothing away from any record. */
  lemma UpgradeExtends(users: map<string, UserRec>, user: AuthUser, now: string)
    ensures Extends(users, ApplyUpgrade(users, user, now))
  {
  }

  /** Upgrading twice gives the same store as upgrading once. */
  lemma UpgradeIdempotent(users: map<string, UserRec>, user: AuthUser, now: string, later: string)
    ensures ApplyUpgrade(ApplyUpgrade(users, user, now), user, later) == ApplyUpgrade(users, user, now)
  {
    var once := ApplyUpgrade(users, user, now);
    assert user.id in once && once[user.id].hasFullAccess;
    assert UpgradedRecord(once[user.id]) == once[user.id];
  }

  /** After an upgrade the account's calculations are never limited nor counted. */
  lemma UpgradeLiftsCap(users: map<string, UserRec>, user: AuthUser, now: string, later: string)
    ensures var after := ApplyUpgrade(users, user, now);
      CountCalculation(StoredOr(after, user, RestoredRecord(user, later))) == (Response(200, Counted(true, None, -1)), after[user.id])
  {
  }

  /** Why upgrade refuses a request, or the user it will upgrade. */
  datatype Admission = Rejected(response: Response) | Admitted(user: AuthUser)

  /**
   * The upgrade handler's checks, in their order: a token (401), a listed
   * license key (400), a three-part JWT with a subject (401), a user the auth
   * service knows (401).
   */
  function AdmitUpgrade(token: string, licenseKey: string, decodeSubject: string -> string, getUserById: string -> Lookup)
    : (a: Admission)
    ensures token == "" ==> a == Rejected(NoUpgradeToken)
    ensures token != "" && !IsValidLicenseKey(licenseKey) ==> a == Rejected(InvalidLicenseKey)
    ensures a.Rejected? ==> a.response.status == 400 || a.response.status == 401
    ensures a.Admitted? <==>
      token != "" && IsValidLicenseKey(licenseKey)
      && ExtractUserId(token, decodeSubject).Some?
      && getUserById(ExtractUserId(token, decodeSubject).value).Found?
    ensures a.Admitted? ==> a.user == getUserById(ExtractUserId(token, decodeSubject).value).user
    ensures token != "" && IsValidLicenseKey(licenseKey) && ExtractUserId(token, decodeSubject).None? ==>
      a == Rejected(MalformedToken)
    ensures (token != "" && IsValidLicenseKey(licenseKey) && ExtractUserId(token, decodeSubject).Some?
             && getUserById(ExtractUserId(token, decodeSubject).value).LookupFailed?) ==>
      a == Rejected(LookupRefusal(getUserById(ExtractUserId(token, decodeSubject).value).message))
  {
    if token == "" then Rejected(NoUpgradeToken)
    else if !IsValidLicenseKey(licenseKey) then Rejected(InvalidLicenseKey)
    else match ExtractUserId(token, decodeSubject)
      case None => Rejected(MalformedToken)
      case Some(id) =>
        match getUserById(id)
        case LookupFailed(message) => Rejected(LookupRefusal(message))
        case Found(user) => Admitted(user)
  }

  // ---------------------------------------------------------------------------
  // Device records: check-device and track-device
  // ---------------------------------------------------------------------------

  predicate NoDuplicates(s: seq<string>) {
    forall i, j :: 0 <= i < j < |s| ==> s[i] != s[j]
  }

  /** The device thresholds: fewer than 15 calculations and fewer than 3 accounts. */
  predicate DeviceAllowed(d: DeviceRec) {
    d.calculations < DeviceCalculationLimit && |d.accounts| < DeviceAccountLimit
  }

  /**
   * check-device's answer: 400 without a fingerprint; an unknown device is
   * allowed with zero counts; a known one is allowed iff it is under both
   * thresholds.
   */
  function DeviceVerdict(devices: map<string, DeviceRec>, fingerprint: string): (r: Response)
    ensures r.status == 400 <==> fingerprint == ""
    ensures fingerprint != "" ==> r.status == 200 && r.payload.DeviceStatus?
    ensures fingerprint != "" ==>
      (r.payload.allowed <==> fingerprint !in devices || DeviceAllowed(devices[fingerprint]))
    ensures fingerprint != "" && fingerprint in devices ==>
      r.payload.calculations == devices[fingerprint].calculations
      && r.payload.accountsCreated == |devices[fingerprint].accounts|
    ensures fingerprint != "" && fingerprint !in devices ==>
      r == Response(200, DeviceStatus(true, 0, 0, None))
  {
    if fingerprint == "" then FingerprintRequired
    else if fingerprint !in devices then Response(200, DeviceStatus(true, 0, 0, None))
    else
      var d := devices[fingerprint];
      var allowed := DeviceAllowed(d);
      Response(200, DeviceStatus(allowed, d.calculations, |d.accounts|,
        Some(if allowed then DeviceAllowedText else DeviceLimitText)))
  }

  /** The device record track-device starts from: the stored one, or a new one first seen now. */
  function DeviceBase(prior: Option<DeviceRec>, now: string): DeviceRec {
    if prior.Some? then prior.value else DeviceRec(0, [], now, now)
  }

  /**
   * track-device's update: "calculate" adds one calculation; SignupAction with a
   * user id adds that id to the accounts unless it is already there; every
   * action stamps lastSeen, and firstSeen is only set on creation.
   */
  function TrackedRecord(prior: Option<DeviceRec>, action: string, userId: string, now: string): (d: DeviceRec)
    ensures d.lastSeen == now
    ensures d.firstSeen == DeviceBase(prior, now).firstSeen
    ensures d.calculations == DeviceBase(prior, now).calculations + (if action == CalculateAction then 1 else 0)
    ensures forall a :: a in d.accounts <==>
      a in DeviceBase(prior, now).accounts || (action == SignupAction && userId != "" && a == userId)
    ensures NoDuplicates(DeviceBase(prior, now).accounts) ==> NoDuplicates(d.accounts)
    ensures |DeviceBase(prior, now).accounts| <= |d.accounts| <= |DeviceBase(prior, now).accounts| + 1
    ensures d.accounts[..|DeviceBase(prior, now).accounts|] == DeviceBase(prior, now).accounts
  {
    var base := DeviceBase(prior, now);
    var accounts :=
      if action == SignupAction && userId != "" && userId !in base.accounts then base.accounts + [userId]
      else base.accounts;
    var calculations := if action == CalculateAction then base.calculations + 1 else base.calculations;
    DeviceRec(calculations, accounts, base.firstSeen, now)
  }

  /** Repeating a signup for the same account does not grow the device's accounts. */
  lemma RepeatedSignupIdempotent(prior: Option<DeviceRec>, userId: string, now: string, later: string)
    ensures TrackedRecord(Some(TrackedRecord(prior, SignupAction, userId, now)), SignupAction, userId, later).accounts
         == TrackedRecord(prior, SignupAction, userId, now).accounts
  {
    var once := TrackedRecord(prior, SignupAction, userId, now);
    var twice := TrackedRecord(Some(once), SignupAction, userId, later);
    if userId != "" {
      assert userId in once.accounts;
    }
  }

  /** A signup tracked without a user id, as the client sends it, never adds an account. */
  lemma AnonymousSignupAddsNoAccount(prior: Option<DeviceRec>, now: string)
    ensures TrackedRecord(prior, SignupAction, "", now).accounts == DeviceBase(prior, now).accounts
  {
  }

  /** Once check-device refuses a device, no tracked action makes it allowed again. */
  lemma DeviceRefusalIsPermanent(d: DeviceRec, action: string, userId: string, now: string)
    requires !DeviceAllowed(d)
    ensures !DeviceAllowed(TrackedRecord(Some(d), action, userId, now))
  {
  }

  // ---------------------------------------------------------------------------
  // E-mail verification codes
  // ---------------------------------------------------------------------------

  /**
   * verify-email on the code table: 400 when a field is missing, when no
   * code is pending, when it has expired (which also deletes it) or when it
   * does not match; a match deletes the code and succeeds.
   */
  function VerifyOutcome(codes: map<string, PendingCode>, email: string, code: string, nowMs: int)
    : (out: (Response, map<string, PendingCode>))
    ensures out.0.status == 200 || out.0.status == 400
    ensures out.0.status == 200 <==>
      email != "" && code != "" && email in codes && nowMs <= codes[email].expires && codes[email].code == code
    ensures out.1 == codes || out.1 == codes - {email}
    ensures out.0.status == 200 ==> out.1 == codes - {email}
    ensures email != "" && code != "" && email in codes && nowMs > codes[email].expires ==>
      out == (CodeExpired, codes - {email})
    ensures email != "" && code != "" && email in codes && nowMs <= codes[email].expires && codes[email].code != code ==>
      out == (CodeMismatch, codes)
    ensures email == "" || code == "" || email !in codes ==> out.1 == codes
  {
    if email == "" || code == "" then (EmailAndCodeRequired, codes)
    else if email !in codes then
      (NoCodeFound, codes)
    else if nowMs > codes[email].expires then
      (CodeExpired, codes - {email})
    else if codes[email].code != code then (CodeMismatch, codes)
    else (Response(200, EmailVerified), codes - {email})
  }

  /** A draw in [100000, 999999] is written with exactly six decimal digits. */
  lemma CodeHasSixDigits(drawn: nat)
    requires 100000 <= drawn <= 999999
    ensures |ToRadix(drawn, 10)| == 6
  {
    var d5 := drawn / 10;
    var d4 := d5 / 10;
    var d3 := d4 / 10;
    var d2 := d3 / 10;
    var d1 := d2 / 10;
    assert 1 <= d1 < 10 && 10 <= d2 && 100 <= d3 && 1000 <= d4 && 10000 <= d5;
    assert |ToRadix(d1, 10)| == 1;
    assert |ToRadix(d2, 10)| == 2;
    assert |ToRadix(d3, 10)| == 3;
    assert |ToRadix(d4, 10)| == 4;
    assert |ToRadix(d5, 10)| == 5;
  }

  /** A verification code works once: after a success the same code is refused. */
  lemma CodeIsSingleUse(codes: map<string, PendingCode>, email: string, code: string, nowMs: int, laterMs: int)
    requires VerifyOutcome(codes, email, code, nowMs).0.status == 200
    ensures VerifyOutcome(VerifyOutcome(codes, email, code, nowMs).1, email, code, laterMs).0.status == 400
  {
  }

  /** A code sent at time t is accepted exactly up to t + 10 minutes. */
  lemma CodeHonouredUntilExpiry(codes: map<string, PendingCode>, email: string, code: string, sentMs: int, nowMs: int)
    requires email != "" && code != ""
    ensures var table := codes[email := PendingCode(code, sentMs + CodeLifetimeMs, email)];
      VerifyOutcome(table, email, code, nowMs).0.status == 200 <==> nowMs <= sentMs + CodeLifetimeMs
  {
  }

  // ---------------------------------------------------------------------------
  // The handlers
  // ---------------------------------------------------------------------------

  /** Nothing is lost from the account table: records stay, full access stays, counters do not go down. */
  ghost predicate Extends(before: map<string, UserRec>, after: map<string, UserRec>) {
    forall id :: id in before ==>
      id in after
      && (before[id].hasFullAccess ==> after[id].hasFullAccess)
      && before[id].calculationsUsed <= after[id].calculationsUsed
  }

  /** No device record lists an account twice. */
  ghost predicate DistinctAccounts(devices: map<string, DeviceRec>) {
    forall fp :: fp in devices ==> NoDuplicates(devices[fp].accounts)
  }

  /** track-device's update keeps every device's account list free of repeats. */
  lemma TrackingKeepsAccountsDistinct(devices: map<string, DeviceRec>, fp: string, action: string, userId: string, now: string)
    requires DistinctAccounts(devices)
    ensures DistinctAccounts(devices[fp :=
      TrackedRecord(if fp in devices then Some(devices[fp]) else None, action, userId, now)])
  {
    var prior := if fp in devices then Some(devices[fp]) else None;
    assert NoDuplicates(DeviceBase(prior, now).accounts);
  }

  class Server {
    /** `user:<id>` records of the key-value store, by account id. */
    var users: map<string, UserRec>
    /** `device:<fingerprint>` records of the key-value store, by fingerprint. */
    var devices: map<string, DeviceRec>
    /** The in-memory `verificationCodes` table, by e-mail. */
    var codes: map<string, PendingCode>

    /** Every device lists each account at most once. */
    ghost predicate Valid()
      reads this
    {
      DistinctAccounts(devices)
    }

    constructor ()
      ensures Valid() && users == map[] && devices == map[] && codes == map[]
    {
      users, devices, codes := map[], map[], map[];
    }

    /**
     * POST signup. `created` is what auth.admin.createUser answered; `now`
     * is the creation timestamp.
     */
    method Signup(email: string, password: string, name: string, licenseKey: string, created: Creation, now: string)
      returns (r: Response)
      requires Valid()
      modifies this
      ensures Valid() && devices == old(devices) && codes == old(codes)
      ensures email == "" || password == "" || name == "" ==>
        r == MissingSignupFields && users == old(users)
      ensures email != "" && password != "" && name != "" && created.CreateFailed? ==>
        r == Response(400, Failure(created.message, "")) && users == old(users)
      ensures email != "" && password != "" && name != "" && created.Created? ==>
        users == old(users)[created.id := UserRec(email, name, IsValidLicenseKey(licenseKey), 0, now)]
        && r == Response(200, SignedUp(created.id, created.email, name, IsValidLicenseKey(licenseKey), 0))
      ensures r.status == 200 ==> created.Created? && users[created.id].calculationsUsed == 0
      ensures created.Created? && created.id !in old(users) ==> Extends(old(users), users)
    {
      if email == "" || password == "" || name == "" {
        return MissingSignupFields;
      }
      var hasFullAccess := IsValidLicenseKey(licenseKey);
      match created {
        case CreateFailed(message) =>
          r := Response(400, Failure(message, ""));
        case Created(id, userEmail) =>
          users := users[id := UserRec(email, name, hasFullAccess, 0, now)];
          r := Response(200, SignedUp(id, userEmail, name, hasFullAccess, 0));
      }
    }

    /**
     * POST calculate: counts one calculation for the account named by the
     * bearer token, creating its record from the auth metadata first when the
     * store has none.
     */
    method Calculate(authorization: string, decodeSubject: string -> string, getUserById: string -> Lookup, now: string)
      returns (r: Response)
      requires Valid()
      modifies this
      ensures Valid() && devices == old(devices) && codes == old(codes)
      ensures var caller := CallerOf(BearerToken(authorization), decodeSubject, getUserById);
        match caller
        case NoToken => r == Unauthorized && users == old(users)
        case BadToken => r == InvalidToken && users == old(users)
        case UnknownUser => r == Unauthorized && users == old(users)
        case Known(user) => (r, users) == CountedTable(old(users), user, now)
      ensures Extends(old(users), users)
      ensures forall id :: id in old(users) && old(users)[id].hasFullAccess ==> id in users && users[id] == old(users)[id]
    {
      var caller := CallerOf(BearerToken(authorization), decodeSubject, getUserById);
      match caller {
        case NoToken => r := Unauthorized;
        case BadToken => r := InvalidToken;
        case UnknownUser => r := Unauthorized;
        case Known(user) =>
          CountingExtends(users, user, now);
          r := CountFor(user, now);
      }
    }

    /** calculate once the caller is known: its record, restored if missing, counted once. */
    method CountFor(user: AuthUser, now: string) returns (r: Response)
      requires Valid()
      modifies this
      ensures Valid() && devices == old(devices) && codes == old(codes)
      ensures (r, users) == CountedTable(old(users), user, now)
    {
      ghost var before := users;
      var userData: UserRec;
      if user.id in users {
        userData := users[user.id];
      } else {
        userData := RestoredRecord(user, now);
        users := users[user.id := userData];
      }
      assert userData == StoredOr(before, user, RestoredRecord(user, now));
      if userData.hasFullAccess {
        assert users == before[user.id := userData];
        return Response(200, Counted(true, None, -1));
      }
      var calculationsUsed := userData.calculationsUsed;
      if calculationsUsed >= FreeCalculationLimit {
        assert users == before[user.id := userData];
        return Response(403, LimitReached(calculationsUsed, 0));
      }
      var newCount := calculationsUsed + 1;
      users := users[user.id := userData.(calculationsUsed := newCount)];
      r := Response(200, Counted(false, Some(newCount), FreeCalculationLimit - newCount));
      assert users == before[user.id := userData.(calculationsUsed := newCount)];
    }

    /**
     * POST upgrade: after the checks of AdmitUpgrade, sets full access on the
     * caller's record (built from the auth metadata, without full access, when
     * the store has none), keeping every other field.
     */
    method Upgrade(headerToken: string, licenseKey: string, bodyToken: string, authorization: string,
                   decodeSubject: string -> string, getUserById: string -> Lookup, now: string)
      returns (r: Response)
      requires Valid()
      modifies this
      ensures Valid() && devices == old(devices) && codes == old(codes)
      ensures var a := AdmitUpgrade(UpgradeToken(headerToken, bodyToken, authorization), licenseKey, decodeSubject, getUserById);
        a.Rejected? ==> r == a.response && users == old(users)
      ensures var a := AdmitUpgrade(UpgradeToken(headerToken, bodyToken, authorization), licenseKey, decodeSubject, getUserById);
        a.Admitted? ==> r == Response(200, Upgraded(true)) && users == ApplyUpgrade(old(users), a.user, now)
      ensures Extends(old(users), users)
    {
      var accessToken := UpgradeToken(headerToken, bodyToken, authorization);
      var admission := AdmitUpgrade(accessToken, licenseKey, decodeSubject, getUserById);
      if admission.Rejected? {
        return admission.response;
      }
      var user := admission.user;
      var userData := if user.id in users then users[user.id] else UpgradeBaseRecord(user, now);
      users := users[user.id := UpgradedRecord(userData)];
      UpgradeExtends(old(users), user, now);
      r := Response(200, Upgraded(true));
    }

    /** POST check-device: read-only. */
    method CheckDevice(deviceFingerprint: string) returns (r: Response)
      ensures r == DeviceVerdict(devices, deviceFingerprint)
    {
      if deviceFingerprint == "" {
        return FingerprintRequired;
      }
      if deviceFingerprint !in devices {
        return Response(200, DeviceStatus(true, 0, 0, None));
      }
      var deviceData := devices[deviceFingerprint];
      var calculations := deviceData.calculations;
      var accountsCreated := |deviceData.accounts|;
      var allowed := calculations < DeviceCalculationLimit && accountsCreated < DeviceAccountLimit;
      var message := if allowed then DeviceAllowedText
        else DeviceLimitText;
      r := Response(200, DeviceStatus(allowed, calculations, accountsCreated, Some(message)));
    }

    /** POST track-device: upserts the device record. */
    method TrackDevice(deviceFingerprint: string, userId: string, action: string, now: string) returns (r: Response)
      requires Valid()
      modifies this
      ensures Valid() && users == old(users) && codes == old(codes)
      ensures deviceFingerprint == "" ==>
        r == FingerprintRequired && devices == old(devices)
      ensures deviceFingerprint != "" ==>
        r == Response(200, Tracked)
        && devices == old(devices)[deviceFingerprint :=
             TrackedRecord(if deviceFingerprint in old(devices) then Some(old(devices)[deviceFingerprint]) else None,
                           action, userId, now)]
    {
      if deviceFingerprint == "" {
        return FingerprintRequired;
      }
      ghost var prior := if deviceFingerprint in devices then Some(devices[deviceFingerprint]) else None;
      TrackingKeepsAccountsDistinct(devices, deviceFingerprint, action, userId, now);
      var deviceData := if deviceFingerprint in devices then devices[deviceFingerprint] else DeviceRec(0, [], now, now);
      assert deviceData == DeviceBase(prior, now);
      if action == CalculateAction {
        deviceData := deviceData.(calculations := deviceData.calculations + 1);
      } else if action == SignupAction && userId != "" {
        if userId !in deviceData.accounts {
          deviceData := deviceData.(accounts := deviceData.accounts + [userId]);
        }
      }
      deviceData := deviceData.(lastSeen := now);
      assert deviceData == TrackedRecord(prior, action, userId, now);
      devices := devices[deviceFingerprint := deviceData];
      r := Response(200, Tracked);
    }

    /**
     * POST send-verification. `drawn` is `Math.floor(100000 + Math.random() * 900000)`;
     * the code is its decimal text and expires ten minutes after `nowMs`.
     */
    method SendVerification(email: string, drawn: nat, nowMs: int) returns (r: Response)
      requires 100000 <= drawn <= 999999
      requires Valid()
      modifies this
      ensures Valid() && users == old(users) && devices == old(devices)
      ensures email == "" ==> r == EmailRequired && codes == old(codes)
      ensures email != "" ==>
        codes == old(codes)[email := PendingCode(ToRadix(drawn, 10), nowMs + CodeLifetimeMs, email)]
        && r == Response(200, CodeSent(ToRadix(drawn, 10)))
    ensures email != "" ==> |r.payload.previewCode| == 6
    {
      if email == "" {
        return EmailRequired;
      }
      var code := ToRadix(drawn, 10);
      CodeHasSixDigits(drawn);
      var expires := nowMs + CodeLifetimeMs;
      codes := codes[email := PendingCode(code, expires, email)];
      r := Response(200, CodeSent(code));
    }

    /** POST verify-email. */
    method VerifyEmail(email: string, code: string, nowMs: int) returns (r: Response)
      requires Valid()
      modifies this
      ensures Valid() && users == old(users) && devices == old(devices)
      ensures (r, codes) == VerifyOutcome(old(codes), email, code, nowMs)
    {
      if email == "" || code == "" {
        return EmailAndCodeRequired;
      }
      if email !in codes {
        return NoCodeFound;
      }
      var stored := codes[email];
      if nowMs > stored.expires {
        codes := codes - {email};
        return CodeExpired;
      }
      if stored.code != code {
        return CodeMismatch;
      }
      codes := codes - {email};
      r := Response(200, EmailVerified);
    }
  }
}
