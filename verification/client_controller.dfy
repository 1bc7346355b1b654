/**
 * The counting and entitlement part of the page controller (App.tsx): the
 * session state, the anonymous preview counter kept in local storage, the
 * signed-in free-tier counter, and the handlers for Get Results, login,
 * signup, logout and upgrade.
 *
 * `App` holds the page's state variables as fields. Every handler is a
 * method; what the auth service and the server answer are parameters, and
 * each handler returns the remote calls it made, in order, as a `seq<Call>`.
 * Modal close animations run to completion at once.
 */
module ClientController {
  import opened Optional
  import opened JsText
  import opened Browser
  import opened DeviceFingerprint
  import opened EntitlementServer

  /** Local-storage key of the anonymous preview counter. */
  const PreviewKey: string := "baseline_preview_calculations"
  /** Results an anonymous visitor, or a free account, may see. */
  const ResultLimit: nat := 5

  // ---------------------------------------------------------------------------
  // State values
  // ---------------------------------------------------------------------------

  /** A JavaScript number as the preview counter can hold it: an integer or NaN. */
  datatype Number = Int(value: int) | NaN {
    /** `this >= k`; false for NaN. */
    predicate AtLeast(k: int) { Int? && value >= k }
    /** `this + 1`. */
    function Plus1(): Number { if Int? then Int(value + 1) else NaN }
    /** `this.toString()`. */
    function ToString(): string { if Int? then IntToString(value) else "NaN" }
  }

  /** `userInfo` as the page keeps it. */
  datatype UserInfo = UserInfo(id: string, email: string, name: string, hasFullAccess: bool, calculationsUsed: nat)

  datatype AuthView = LoginView | SignupView | ForgotView

  /** The form selections that Reset All restores (the custom multipliers are not modelled). */
  datatype Inputs = Inputs(projectType: string, workSize: int, timelinePressure: string, revisionsModel: string,
                           experienceBand: string, capacityPressure: int, basePrice: int)

  const DefaultInputs: Inputs := Inputs("brand", 1, "normal", "fixed", "intermediate", 0, 800)

  /** The result calculateBaseline produced: its rounded total. */
  datatype Quote = Quote(total: int)

  /** The latest toast on screen. */
  datatype Notice = NoNotice | Success(message: string) | Error(message: string) | Warning(message: string)

  /** A remote call the page makes. */
  datatype Call =
    | TrackDeviceCall(fingerprint: string, action: string, userId: string)
    | SignupCall(email: string, password: string, name: string, licenseKey: string)
    | SignInCall(email: string, password: string)
    | SignOutCall
    | GetSessionCall
    | RefreshSessionCall
    | UpgradeCall(licenseKey: string, token: string)
    | UpdateAccessCall(licenseKey: string)
    | UpdateCountCall(calculationsUsed: nat)

  /** What a fetch to the server came back with: it threw, its body was not JSON, or a JSON response. */
  datatype Reply = Unreachable(message: string) | NotJson(status: int) | Json(response: Response)

  /** What signInWithPassword answered. */
  datatype SignIn = SignInFailed(message: string) | SignedIn(user: AuthUser)

  /** `message || fallback`. */
  function OrElse(message: string, fallback: string): string {
    if message != "" then message else fallback
  }

  /** `result.error` of a JSON body ("" when it has none). */
  function ErrorField(p: Payload): string {
    match p
    case Failure(error, _) => error
    case LimitReached(_, _) => LimitReachedText
    case _ => ""
  }

  /** `result.details` of a JSON body ("" when it has none). */
  function DetailsField(p: Payload): string {
    if p.Failure? then p.details else ""
  }

  /** `result.success` of a JSON body. */
  predicate SuccessField(p: Payload) {
    p.SignedUp? || p.Counted? || p.Upgraded? || p.Tracked? || p.CodeSent? || p.EmailVerified?
  }

  /** The page's user info for a signed-in auth user: metadata name or the e-mail's local part, flags defaulting to false and 0. */
  function UserInfoOf(user: AuthUser): UserInfo {
    UserInfo(user.id, user.email, DisplayName(user), user.metadata.hasFullAccess, user.metadata.calculationsUsed)
  }

  /** The identifier getFullDeviceIdentifier returns on a storage holding `items`. */
  function FullIdentifier(items: map<string, string>, nowMs: nat, randomPart: string, environment: seq<CodeUnit>): string {
    DeviceIdAfter(items, nowMs, randomPart).0 + "_" + HashDigest(environment)
  }

  // ---------------------------------------------------------------------------
  // The preview counter across page loads
  // ---------------------------------------------------------------------------

  /** The counter a page load starts with: parseInt of the stored text, 0 when nothing (or "") is stored. */
  function InitialPreview(items: map<string, string>): Number {
    if PreviewKey in items && items[PreviewKey] != "" then
      match ParseInt(items[PreviewKey])
      case Some(n) => Int(n)
      case None => NaN
    else Int(0)
  }

  /** The counter read back on the next page load is the one last written, NaN included. */
  lemma PreviewSurvivesReload(items: map<string, string>, count: Number)
    ensures InitialPreview(items[PreviewKey := count.ToString()]) == count
  {
    if count.Int? {
      ParseIntRoundTrip(count.value);
    } else {
      NaNTextIsNaN();
    }
  }

  /** parseInt("NaN") is NaN again. */
  lemma NaNTextIsNaN()
    ensures ParseInt("NaN") == None
  {
    var t := "NaN";
    assert t[0] == 'N';
    ParseIntNoDigits(t);
  }

  // ---------------------------------------------------------------------------
  // The Get Results gates
  // ---------------------------------------------------------------------------

  /**
   * Get Results for a signed-in account: refused once a free account has
   * used 5; a free account's counter goes up by one; full access is not
   * counted.
   */
  function AccountGate(u: UserInfo): (out: (bool, UserInfo))
    ensures out.0 <==> u.hasFullAccess || u.calculationsUsed < ResultLimit
    ensures out.1 == u.(calculationsUsed := out.1.calculationsUsed)
    ensures out.1.calculationsUsed <= u.calculationsUsed + 1
    ensures out.1.calculationsUsed != u.calculationsUsed <==> out.0 && !u.hasFullAccess
  {
    if !u.hasFullAccess && u.calculationsUsed >= ResultLimit then (false, u)
    else if !u.hasFullAccess then (true, u.(calculationsUsed := u.calculationsUsed + 1))
    else (true, u)
  }

  /**
   * The page's gate agrees with the server's calculate handler on the same
   * record: both allow the same calls and count them the same way.
   */
  lemma AccountGateMatchesServer(u: UserInfo, rec: UserRec)
    requires rec.hasFullAccess == u.hasFullAccess && rec.calculationsUsed == u.calculationsUsed
    ensures AccountGate(u).0 <==> CountCalculation(rec).0.status == 200
    ensures AccountGate(u).1.calculationsUsed == CountCalculation(rec).1.calculationsUsed
  {
  }

  /** Get Results for an anonymous visitor: refused once the counter is at least 5, otherwise counted. */
  function PreviewGate(count: Number): (out: (bool, Number))
    ensures out.0 <==> !count.AtLeast(ResultLimit)
    ensures out.1 == if out.0 then count.Plus1() else count
  {
    if count.AtLeast(ResultLimit) then (false, count) else (true, count.Plus1())
  }

  /** How many of `n` anonymous clicks show a result, and the counter afterwards. */
  function PreviewRun(count: Number, n: nat): (nat, Number)
    decreases n
  {
    if n == 0 then (0, count)
    else
      var (shown, next) := PreviewGate(count);
      var (more, last) := PreviewRun(next, n - 1);
      ((if shown then 1 else 0) + more, last)
  }

  function Max(a: int, b: int): int { if a >= b then a else b }

  /**
   * From a counter c, n anonymous clicks show min(n, max(0, 5 - c)) results:
   * five from a fresh counter, more from a negative stored value.
   */
  lemma {:induction false} PreviewRunCap(c: int, n: nat)
    ensures PreviewRun(Int(c), n).0 == Min(n, Max(0, ResultLimit - c))
    ensures PreviewRun(Int(c), n).1 == Int(if c >= ResultLimit then c else Min(c + n, ResultLimit))
    decreases n
  {
    if n > 0 {
      PreviewRunCap(if c >= ResultLimit then c else c + 1, n - 1);
    }
  }

  /** A counter that parsed to NaN never reaches the limit: every click shows a result. */
  lemma {:induction false} NaNPreviewNeverBlocks(n: nat)
    ensures PreviewRun(NaN, n) == (n, NaN)
  {
    if n > 0 {
      NaNPreviewNeverBlocks(n - 1);
    }
  }

  /** The toast after a counted free-account result. */
  function CountedNotice(calculationsUsed: nat): Notice {
    var remaining := ResultLimit - calculationsUsed;
    if remaining > 0 then
      Success("Calculation complete! " + IntToString(remaining) + " calculation" + (if remaining == 1 then "" else "s") + " remaining")
    else Success(LastFreeText)
  }

  const LastFreeText: string := "Calculation complete! This was your last free calculation"

  const PreviewExhausted: string := "You've used all 5 preview calculations. Sign up to continue!"

  /** The toast after a counted preview result (`Math.max(0, 5 - count)` remaining; NaN is not > 0). */
  function PreviewNotice(count: Number): Notice {
    var remaining := if count.Int? then Max(0, ResultLimit - count.value) else 0;
    if remaining > 0 then
      Warning("Baseline calculated! You have " + IntToString(remaining) + " free calculation"
        + (if remaining == 1 then "" else "s") + " remaining. Sign up to continue!")
    else Warning(PreviewExhausted)
  }

  // ---------------------------------------------------------------------------
  // Tracking calls as the server sees them
  // ---------------------------------------------------------------------------

  /** The accounts of a device record, none for an unknown device. */
  function AccountsOf(d: Option<DeviceRec>): seq<string> {
    if d.Some? then d.value.accounts else []
  }

  /** The record of device `fingerprint` after the server has handled, in order, the track-device calls among `calls`. */
  function ReplayTracking(prior: Option<DeviceRec>, calls: seq<Call>, fingerprint: string, now: string): Option<DeviceRec>
    decreases |calls|
  {
    if calls == [] then prior
    else
      var next :=
        if calls[0].TrackDeviceCall? && calls[0].fingerprint == fingerprint && fingerprint != "" then
          Some(TrackedRecord(prior, calls[0].action, calls[0].userId, now))
        else prior;
      ReplayTracking(next, calls[1..], fingerprint, now)
  }

  /**
   * Tracking calls without a user id, the only kind the page sends, never
   * add an account to a device: the three-accounts threshold of
   * check-device cannot be reached through this page.
   */
  lemma {:induction false} ClientTrackingAddsNoAccounts(prior: Option<DeviceRec>, calls: seq<Call>, fingerprint: string, now: string)
    requires forall i :: 0 <= i < |calls| && calls[i].TrackDeviceCall? ==> calls[i].userId == ""
    ensures AccountsOf(ReplayTracking(prior, calls, fingerprint, now)) == AccountsOf(prior)
    decreases |calls|
  {
    if calls != [] {
      var next :=
        if calls[0].TrackDeviceCall? && calls[0].fingerprint == fingerprint && fingerprint != "" then
          Some(TrackedRecord(prior, calls[0].action, calls[0].userId, now))
        else prior;
      assert AccountsOf(next) == AccountsOf(prior);
      ClientTrackingAddsNoAccounts(next, calls[1..], fingerprint, now);
    }
  }

  /** The page trims the key before sending it, and the server trims again: the verdict is the same as on the raw key. */
  lemma ClientTrimAgreesWithServer(licenseKey: string)
    ensures IsValidLicenseKey(Trim(licenseKey)) <==> IsValidLicenseKey(licenseKey)
  {
    TrimIdempotent(licenseKey);
    SameTrimSameVerdict(Trim(licenseKey), licenseKey);
  }

  // ---------------------------------------------------------------------------
  // Error texts
  // ---------------------------------------------------------------------------

  /** `Server returned invalid response (<status>). Please try again.` */
  function InvalidResponseText(status: int): string {
    "Server returned invalid response (" + IntToString(status) + "). Please try again."
  }

  /** The server created the account: an ok JSON reply carrying the new user. */
  predicate SignupAccepted(signupReply: Reply) {
    signupReply.Json? && signupReply.response.Ok() && signupReply.response.payload.SignedUp?
  }

  /** The user info handleSignup takes from the server's `user` object. */
  function SignedUpInfo(p: Payload): UserInfo
    requires p.SignedUp?
  {
    UserInfo(p.id, p.email, p.name, p.hasFullAccess, p.calculationsUsed)
  }

  /** The error handleSignup shows once the signup request was sent, or None when it shows none. */
  function SubmitFailureText(signupReply: Reply, signIn: SignIn): (text: Option<string>)
    ensures text.Some? ==> text.value != ""
    ensures text.None? <==>
      signupReply.Json? && signupReply.response.Ok() && (signupReply.response.payload.SignedUp? ==> signIn.SignedIn?)
  {
    match signupReply
    case Unreachable(message) => Some(OrElse(message, SignupFallbackText))
    case NotJson(status) => Some(InvalidResponseText(status))
    case Json(r) =>
      if !r.Ok() then Some(OrElse(ErrorField(r.payload), SignupRefusedText))
      else if r.payload.SignedUp? && signIn.SignInFailed? then
        Some(OrElse(signIn.message, SignupFallbackText))
      else None
  }

  /** The error handleSignup shows, or None when it shows none. */
  function SignupFailureText(trackReply: Reply, signupReply: Reply, signIn: SignIn): (text: Option<string>)
    ensures text.Some? ==> text.value != ""
    ensures text.None? <==>
      !trackReply.Unreachable? && signupReply.Json? && signupReply.response.Ok()
      && (signupReply.response.payload.SignedUp? ==> signIn.SignedIn?)
  {
    if trackReply.Unreachable? then Some(OrElse(trackReply.message, SignupFallbackText))
    else SubmitFailureText(signupReply, signIn)
  }

  /** The message thrown for a non-ok upgrade response. */
  function UpgradeFailureText(r: Response): (text: string)
    ensures text != ""
    ensures r.status == 404 ==> text == AccountNotFoundText
  {
    var error := ErrorField(r.payload);
    var details := DetailsField(r.payload);
    if r.status == 400 then OrElse(error, "Invalid license key. Please check your key and try again.")
    else if r.status == 401 then
      if details != "" then OrElse(error, "Authentication failed") + ". " + details
      else OrElse(error, "Authentication failed. Please log in again.")
    else if r.status == 404 then AccountNotFoundText
    else OrElse(error, "Failed to upgrade account")
  }

  /**
   * Every refusal of the server's upgrade checks reaches the visitor as the
   * server's own error text, followed by its details when there are any.
   */
  lemma UpgradeRefusalShown(token: string, licenseKey: string, decodeSubject: string -> string, getUserById: string -> Lookup)
    requires AdmitUpgrade(token, licenseKey, decodeSubject, getUserById).Rejected?
    ensures var r := AdmitUpgrade(token, licenseKey, decodeSubject, getUserById).response;
      !r.Ok()
      && UpgradeFailureText(r) ==
         (if r.payload.details != "" then r.payload.error + ". " + r.payload.details else r.payload.error)
  {
  }

  /** The server granted the upgrade: an ok JSON reply with `success`. */
  predicate UpgradeAccepted(upgradeReply: Reply) {
    upgradeReply.Json? && upgradeReply.response.Ok() && SuccessField(upgradeReply.response.payload)
  }

  /**
   * The requests handleUpgrade makes once it holds a token: the upgrade
   * request, then the auth metadata update exactly when the server granted it.
   */
  function UpgradeCalls(key: string, token: string, upgradeReply: Reply): (calls: seq<Call>)
    ensures |calls| >= 1 && calls[0] == UpgradeCall(key, token)
    ensures UpdateAccessCall(key) in calls <==> UpgradeAccepted(upgradeReply)
  {
    [UpgradeCall(key, token)] + (if UpgradeAccepted(upgradeReply) then [UpdateAccessCall(key)] else [])
  }

  /** `{ ...userInfo, hasFullAccess: true }`; spreading null leaves only the flag. */
  function WithFullAccess(info: Option<UserInfo>): (u: UserInfo)
    ensures u.hasFullAccess
    ensures info.Some? ==> u == info.value.(hasFullAccess := true)
  {
    if info.Some? then info.value.(hasFullAccess := true) else UserInfo("", "", "", true, 0)
  }

  /** The toast handleUpgrade leaves after the upgrade request (`previous` when it shows none). */
  function UpgradeNotice(upgradeReply: Reply, previous: Notice): Notice {
    match upgradeReply
    case Unreachable(message) => Error(OrElse(message, UpgradeFallbackText))
    case NotJson(status) => Error(InvalidResponseText(status))
    case Json(r) =>
      if !r.Ok() then Error(UpgradeFailureText(r))
      else if SuccessField(r.payload) then Success(UpgradedText)
      else previous
  }

  /** `Welcome back, <name>!` */
  function WelcomeBackText(name: string): string {
    "Welcome back, " + name + "!"
  }

  /** The toast after a successful signup. */
  function WelcomeNotice(u: UserInfo): Notice {
    if u.hasFullAccess then Success("Account created with Full Access! Welcome, " + u.name + "!")
    else Success("Account created! You have 5 free calculations. Welcome, " + u.name + "!")
  }

  const SignupFallbackText: string := "Failed to create account. Please try again."
  const SignupRefusedText: string := "Failed to create account"
  const SignInFallbackText: string := "Failed to sign in. Please check your credentials."
  const LogoutFallbackText: string := "Failed to log out"
  const LoggedOutText: string := "Logged out successfully"
  const UpgradeFallbackText: string := "Invalid license key. Please check and try again."
  const UpgradedText: string := "Account upgraded to Full Access! \U{1F389}"
  const AccountNotFoundText: string := "User account not found. Please contact support."
  const MissingKeyText: string := "Please enter a license key"
  const FullAccessResultText: string := "Baseline calculated successfully!"
  const InputsResetText: string := "All inputs reset to defaults"
  const SessionExpiredText: string := "Your session has expired. Please log in again to upgrade your account."

  // ---------------------------------------------------------------------------
  // The page's state, and what each handler makes of it
  // ---------------------------------------------------------------------------
  /** The component's state variables (its useState hooks); a setter call updates one field. */
  datatype View = View(
    isLoggedIn: bool, userInfo: Option<UserInfo>, previewCalculations: Number, authLoading: bool,
    showAuthModal: bool, authView: AuthView, showUpgradeModal: bool, notice: Notice,
    inputs: Inputs, showAdvanced: bool, displayedResult: Option<Quote>, showRecap: bool,
    inputsChanged: bool, lastCalculated: Option<Inputs>)

  /** The page's state variables together with what local storage holds. */
  datatype Page = Page(view: View, stored: map<string, string>)
  {
    /**
     * Signed in means a user is known, the preview counter is 0 and not
     * stored; signed out means storage holds the counter's text.
     */
    predicate Consistent() {
      (view.isLoggedIn ==> view.userInfo.Some? && view.previewCalculations == Int(0) && PreviewKey !in stored)
      && (!view.isLoggedIn ==> PreviewKey in stored && stored[PreviewKey] == view.previewCalculations.ToString())
    }

    /** Whether Get Results, clicked now, shows a result. */
    predicate Granted() {
      if view.isLoggedIn && view.userInfo.Some? then AccountGate(view.userInfo.value).0
      else PreviewGate(view.previewCalculations).0
    }
  }

  /** The page as it loads: signed out, default inputs, the counter read from storage and written back. */
  function PageLoaded(items: map<string, string>): (p: Page)
    ensures p.Consistent() && !p.view.isLoggedIn && p.view.userInfo.None?
  {
    var count := InitialPreview(items);
    Page(View(false, None, count, false, false, LoginView, false, NoNotice, DefaultInputs, false, None, false, false, None),
         items[PreviewKey := count.ToString()])
  }

  /** The persist effect: while signed out, the counter's text is written to storage. */
  function Persisted(p: Page): (q: Page)
    ensures !p.view.isLoggedIn ==> q.Consistent()
    ensures p.view.isLoggedIn ==> q == p
  {
    if p.view.isLoggedIn then p else p.(stored := p.stored[PreviewKey := p.view.previewCalculations.ToString()])
  }

  /** Entering a session: user info set, signed in, the stored counter removed and the counter reset to 0. */
  function SessionEntered(p: Page, info: UserInfo): (q: Page)
    ensures q.Consistent() && q.view.isLoggedIn && q.view.userInfo == Some(info)
  {
    Page(p.view.(isLoggedIn := true, userInfo := Some(info), previewCalculations := Int(0)), p.stored - {PreviewKey})
  }

  /** The getSession call at page load: an existing session signs the page in. */
  function SessionRestored(p: Page, session: Option<AuthUser>): (q: Page)
    ensures p.Consistent() ==> q.Consistent()
    ensures session.Some? ==>
      q.view.isLoggedIn && q.view.userInfo == Some(UserInfoOf(session.value))
      && q.view.previewCalculations == Int(0) && PreviewKey !in q.stored
    ensures session.None? ==> q == p
  {
    if session.Some? then SessionEntered(p, UserInfoOf(session.value)) else p
  }

  /**
   * onAuthStateChange: a session signs the page in; no session signs it
   * out, and the persist effect stores the counter again. Either way the
   * page is consistent afterwards, whatever it was before.
   */
  function AuthStateApplied(p: Page, session: Option<AuthUser>): (q: Page)
    ensures q.Consistent()
    ensures session.Some? ==>
      q.view.isLoggedIn && q.view.userInfo == Some(UserInfoOf(session.value))
      && q.view.previewCalculations == Int(0) && PreviewKey !in q.stored
    ensures session.None? ==>
      !q.view.isLoggedIn && q.view.userInfo.None? && q.view.previewCalculations == p.view.previewCalculations
  {
    if session.Some? then SessionEntered(p, UserInfoOf(session.value))
    else Persisted(p.(view := p.view.(isLoggedIn := false, userInfo := None)))
  }

  /** handleLogin once signInWithPassword has answered. */
  function LoginOutcome(p: Page, signIn: SignIn): (q: Page)
    ensures p.Consistent() ==> q.Consistent()
  {
    match signIn
    case SignInFailed(message) =>
      p.(view := p.view.(authLoading := false, notice := Error(OrElse(message, SignInFallbackText))))
    case SignedIn(user) =>
      var info := UserInfoOf(user);
      var s := SessionEntered(p, info);
      s.(view := s.view.(authLoading := false, showAuthModal := false, notice := Success(WelcomeBackText(info.name))))
  }

  /** handleSignup once the account exists: the sign-in's error, or the session with the server's user. */
  function SignupFinished(p: Page, info: UserInfo, signIn: SignIn): (q: Page)
    ensures p.Consistent() ==> q.Consistent()
  {
    if signIn.SignInFailed? then
      p.(view := p.view.(authLoading := false, notice := Error(OrElse(signIn.message, SignupFallbackText))))
    else
      var s := SessionEntered(p, info);
      s.(view := s.view.(authLoading := false, showAuthModal := false, notice := WelcomeNotice(info)))
  }

  /** The signup request: the name defaults to the e-mail's local part, the key is trimmed ("" standing for null). */
  function SignupRequest(email: string, password: string, name: string, licenseKey: string): (c: Call)
    ensures c.SignupCall? && c.email == email && c.password == password && c.licenseKey == Trim(licenseKey)
    ensures name != "" ==> c.name == name
  {
    SignupCall(email, password, if name != "" then name else Split(email, '@')[0], Trim(licenseKey))
  }

  /**
   * Without a name, the request names the account after the e-mail's local
   * part, so the service's required-name check passes for any e-mail that
   * does not start with `@`.
   */
  lemma SignupRequestDefaultsName(email: string, password: string, licenseKey: string)
    ensures SignupRequest(email, password, "", licenseKey).name == Split(email, '@')[0]
    ensures email != [] && email[0] != '@' ==> SignupRequest(email, password, "", licenseKey).name != ""
  {
    if email != [] && email[0] != '@' {
      SplitFirstKeepsPrefix([email[0]], email[1..], '@');
      assert [email[0]] + email[1..] == email;
    }
  }

  /** handleSignup on the signup reply: the calls made after the request, and the page. */
  function SignupReplied(p: Page, email: string, password: string, signupReply: Reply, signIn: SignIn)
    : (r: (seq<Call>, Page))
    ensures p.Consistent() ==> r.1.Consistent()
    ensures r.0 == [] || r.0 == [SignInCall(email, password)]
  {
    match signupReply
    case Unreachable(message) =>
      ([], p.(view := p.view.(authLoading := false, notice := Error(OrElse(message, SignupFallbackText)))))
    case NotJson(status) =>
      ([], p.(view := p.view.(authLoading := false, notice := Error(InvalidResponseText(status)))))
    case Json(result) =>
      if !result.Ok() then
        ([], p.(view := p.view.(authLoading := false, notice := Error(OrElse(ErrorField(result.payload), SignupRefusedText)))))
      else if result.payload.SignedUp? then
        ([SignInCall(email, password)], SignupFinished(p, SignedUpInfo(result.payload), signIn))
      else ([], p)
  }

  /** handleSignup after the tracking call: the signup request, then on an accepted account the sign-in. */
  function SignupSubmitted(p: Page, email: string, password: string, name: string, licenseKey: string,
                           signupReply: Reply, signIn: SignIn): (r: (seq<Call>, Page))
    ensures p.Consistent() ==> r.1.Consistent()
  {
    var replied := SignupReplied(p, email, password, signupReply, signIn);
    ([SignupRequest(email, password, name, licenseKey)] + replied.0, replied.1)
  }

  /** Storing a device id, with the spinner on, keeps a page consistent: the id lives under its own key. */
  lemma DeviceIdKeepsConsistent(p: Page, nowMs: nat, randomPart: string)
    ensures p.Consistent() ==> Page(p.view.(authLoading := true), DeviceIdAfter(p.stored, nowMs, randomPart).1).Consistent()
  {
    var stored := DeviceIdAfter(p.stored, nowMs, randomPart).1;
    assert DeviceIdKey != PreviewKey by { assert DeviceIdKey[9] != PreviewKey[9]; }
    assert (PreviewKey in stored <==> PreviewKey in p.stored);
    assert PreviewKey in p.stored ==> stored[PreviewKey] == p.stored[PreviewKey];
  }

  /**
   * handleSignup: loading on, the device identifier computed (which may
   * store a device id), the tracking call without a user id, then the
   * signup request unless the tracking call threw.
   */
  function SignupOutcome(p: Page, email: string, password: string, name: string, licenseKey: string,
                         nowMs: nat, randomPart: string, environment: seq<CodeUnit>,
                         trackReply: Reply, signupReply: Reply, signIn: SignIn): (r: (seq<Call>, Page))
    ensures p.Consistent() ==> r.1.Consistent()
  {
    var tracked := Page(p.view.(authLoading := true), DeviceIdAfter(p.stored, nowMs, randomPart).1);
    var track := TrackDeviceCall(FullIdentifier(p.stored, nowMs, randomPart, environment), SignupAction, "");
    DeviceIdKeepsConsistent(p, nowMs, randomPart);
    if trackReply.Unreachable? then
      ([track], tracked.(view := tracked.view.(authLoading := false, notice := Error(OrElse(trackReply.message, SignupFallbackText)))))
    else
      var (calls, q) := SignupSubmitted(tracked, email, password, name, licenseKey, signupReply, signIn);
      ([track] + calls, q)
  }

  /** resetAll: the selections, advanced options and result flags back to their defaults; the session is untouched. */
  function InputsReset(p: Page): (q: Page)
    ensures p.Consistent() ==> q.Consistent()
  {
    p.(view := p.view.(inputs := DefaultInputs, showRecap := false, showAdvanced := false, inputsChanged := false,
                       lastCalculated := None, notice := Success(InputsResetText)))
  }

  /** handleLogout: signed out, user forgotten, inputs reset, the counter stored again; an error changes nothing else. */
  function LogoutOutcome(p: Page, signOutThrew: Option<string>): (q: Page)
    ensures p.Consistent() ==> q.Consistent()
  {
    if signOutThrew.Some? then p.(view := p.view.(notice := Error(OrElse(signOutThrew.value, LogoutFallbackText))))
    else
      var r := InputsReset(p.(view := p.view.(isLoggedIn := false, userInfo := None)));
      Persisted(r.(view := r.view.(notice := Success(LoggedOutText))))
  }

  /**
   * handleUpgrade once a token is at hand: the upgrade request, then on
   * success full access in the user info and the upgrade dialog closed;
   * otherwise only the toast changes.
   */
  function UpgradeSubmitted(p: Page, key: string, token: string, upgradeReply: Reply): (r: (seq<Call>, Page))
    ensures p.Consistent() ==> r.1.Consistent()
  {
    var calls := UpgradeCalls(key, token, upgradeReply);
    if UpgradeAccepted(upgradeReply) then
      (calls, p.(view := p.view.(userInfo := Some(WithFullAccess(p.view.userInfo)), showUpgradeModal := false,
                                 notice := Success(UpgradedText))))
    else (calls, p.(view := p.view.(notice := UpgradeNotice(upgradeReply, p.view.notice))))
  }

  /** handleUpgrade without a session: the error, the upgrade dialog swapped for the auth one (on its last form), signed out. */
  function SessionExpired(p: Page): (q: Page)
    ensures q.Consistent() && !q.view.isLoggedIn && q.view.userInfo.None?
    ensures q.view.previewCalculations == p.view.previewCalculations
  {
    Persisted(p.(view := p.view.(notice := Error(SessionExpiredText), showUpgradeModal := false, showAuthModal := true,
                                 isLoggedIn := false, userInfo := None)))
  }

  /**
   * handleUpgrade. `session` is the access token getSession found (None
   * when there is no session or it failed), `refreshed` the token of the
   * refreshed session (None when refreshing gave none).
   */
  function UpgradeOutcome(p: Page, licenseKey: string, session: Option<string>, refreshed: Option<string>,
                          upgradeReply: Reply): (r: (seq<Call>, Page))
    ensures p.Consistent() ==> r.1.Consistent()
  {
    var key := Trim(licenseKey);
    if key == "" then ([], p.(view := p.view.(notice := Error(MissingKeyText))))
    else if session.None? then ([GetSessionCall], SessionExpired(p))
    else
      var (calls, q) := UpgradeSubmitted(p, key, refreshed.GetOr(session.value), upgradeReply);
      ([GetSessionCall, RefreshSessionCall] + calls, q)
  }

  /** The signed-in half of handleGetResults, up to showing the result: whether it is shown, the calls, the page. */
  function AccountCounted(p: Page): (r: (bool, seq<Call>, Page))
    requires p.view.userInfo.Some?
    ensures p.Consistent() ==> r.2.Consistent()
  {
    var (granted, next) := AccountGate(p.view.userInfo.value);
    if !granted then (false, [], p.(view := p.view.(showUpgradeModal := true)))
    else if !next.hasFullAccess then
      (true, [UpdateCountCall(next.calculationsUsed)],
       p.(view := p.view.(userInfo := Some(next), notice := CountedNotice(next.calculationsUsed))))
    else (true, [], p.(view := p.view.(notice := Success(FullAccessResultText))))
  }

  /** The signed-out half of handleGetResults, up to showing the result: whether it is shown, the calls, the page. */
  function PreviewCounted(p: Page, nowMs: nat, randomPart: string, environment: seq<CodeUnit>): (r: (bool, seq<Call>, Page))
    ensures p.Consistent() && !p.view.isLoggedIn ==> r.2.Consistent()
  {
    if p.view.previewCalculations.AtLeast(ResultLimit) then
      (false, [], p.(view := p.view.(notice := Warning(PreviewExhausted), authView := SignupView, showAuthModal := true)))
    else
      var next := p.view.previewCalculations.Plus1();
      (true, [TrackDeviceCall(FullIdentifier(p.stored, nowMs, randomPart, environment), CalculateAction, "")],
       Persisted(Page(p.view.(previewCalculations := next, notice := PreviewNotice(next)),
                      DeviceIdAfter(p.stored, nowMs, randomPart).1)))
  }

  /** Showing a result: it becomes the displayed one, with the recap open and the current inputs remembered. */
  function ResultShown(p: Page, quote: Quote): (q: Page)
    ensures p.Consistent() ==> q.Consistent()
  {
    p.(view := p.view.(displayedResult := Some(quote), showRecap := true, inputsChanged := false,
                       lastCalculated := Some(p.view.inputs)))
  }

  /**
   * handleGetResults: a signed-in account goes through AccountGate (the
   * new count is sent to the auth metadata, unawaited); a visitor through
   * PreviewGate (a track-device call, unawaited, and the counter stored).
   * A granted click shows `quote`.
   */
  function GetResultsOutcome(p: Page, quote: Quote, nowMs: nat, randomPart: string, environment: seq<CodeUnit>): (r: (seq<Call>, Page))
    ensures p.Consistent() ==> r.1.Consistent()
  {
    var (allowed, calls, q) :=
      if p.view.isLoggedIn && p.view.userInfo.Some? then AccountCounted(p) else PreviewCounted(p, nowMs, randomPart, environment);
    (calls, if allowed then ResultShown(q, quote) else q)
  }

  // ---------------------------------------------------------------------------
  // What the page promises across handlers and page loads
  // ---------------------------------------------------------------------------

  /** A signed-out page that is reloaded starts from the counter it had: reloading does not reset the preview. */
  lemma CounterSurvivesReload(p: Page)
    requires p.Consistent() && !p.view.isLoggedIn
    ensures PageLoaded(p.stored).view.previewCalculations == p.view.previewCalculations
  {
    assert p.stored == p.stored[PreviewKey := p.view.previewCalculations.ToString()];
    PreviewSurvivesReload(p.stored, p.view.previewCalculations);
  }

  /** A failed sign-in stops the spinner and shows an error; nothing else on the page or in storage changes. */
  lemma LoginFailureOnlyReports(p: Page, message: string)
    ensures var q := LoginOutcome(p, SignInFailed(message));
      q.stored == p.stored && q.view.notice.Error? && q.view.notice.message != ""
      && q.view == p.view.(authLoading := false, notice := q.view.notice)
  {
  }

  /**
   * A successful sign-in opens the session for that user, closes the
   * dialog, and forgets the visitor counter: a reload would start it at 0.
   */
  lemma LoginSuccessOpensSession(p: Page, user: AuthUser)
    ensures var q := LoginOutcome(p, SignedIn(user));
      q.Consistent() && q.view.isLoggedIn && q.view.userInfo == Some(UserInfoOf(user))
      && !q.view.authLoading && !q.view.showAuthModal && q.view.notice.Success?
      && InitialPreview(q.stored) == Int(0)
  {
  }

  /** The calls handleSignup makes after the tracking call: the signup request, and the sign-in once the server accepted. */
  lemma SubmittedCalls(p: Page, email: string, password: string, name: string, licenseKey: string,
                       signupReply: Reply, signIn: SignIn)
    ensures SignupSubmitted(p, email, password, name, licenseKey, signupReply, signIn).0
      == [SignupRequest(email, password, name, licenseKey)] + (if SignupAccepted(signupReply) then [SignInCall(email, password)] else [])
  {
    var replied := SignupReplied(p, email, password, signupReply, signIn);
    assert replied.0 == (if SignupAccepted(signupReply) then [SignInCall(email, password)] else []);
  }

  /** After the tracking call, a session starts exactly when the server accepted and the sign-in worked. */
  lemma SubmittedSessionIffAccepted(p: Page, email: string, password: string, name: string, licenseKey: string,
                                    signupReply: Reply, signIn: SignIn)
    ensures var q := SignupSubmitted(p, email, password, name, licenseKey, signupReply, signIn).1;
      q.view.isLoggedIn <==> p.view.isLoggedIn || (SignupAccepted(signupReply) && signIn.SignedIn?)
    ensures var q := SignupSubmitted(p, email, password, name, licenseKey, signupReply, signIn).1;
      SignupAccepted(signupReply) && signIn.SignedIn? ==>
        q.view.userInfo == Some(SignedUpInfo(signupReply.response.payload))
        && q.view.notice == WelcomeNotice(SignedUpInfo(signupReply.response.payload))
  {
    if SignupAccepted(signupReply) {
      var info := SignedUpInfo(signupReply.response.payload);
      assert SignupSubmitted(p, email, password, name, licenseKey, signupReply, signIn).1 == SignupFinished(p, info, signIn);
    }
  }

  /** After the tracking call, the error shown is the one SubmitFailureText names, and loading stops. */
  lemma SubmittedFailureShown(p: Page, email: string, password: string, name: string, licenseKey: string,
                              signupReply: Reply, signIn: SignIn)
    requires SubmitFailureText(signupReply, signIn).Some?
    ensures var q := SignupSubmitted(p, email, password, name, licenseKey, signupReply, signIn).1;
      q.view.notice == Error(SubmitFailureText(signupReply, signIn).value) && !q.view.authLoading
  {
    match signupReply {
      case Unreachable(_) =>
      case NotJson(_) =>
      case Json(result) =>
        if result.Ok() {
          assert result.payload.SignedUp? && signIn.SignInFailed?;
          var info := SignedUpInfo(result.payload);
          assert SignupSubmitted(p, email, password, name, licenseKey, signupReply, signIn).1 == SignupFinished(p, info, signIn);
        }
    }
  }

  /**
   * handleSignup opens a session exactly when the tracking call went
   * through, the server created the account and the sign-in worked, and
   * then holds the server's user and welcomes it.
   */
  lemma SignupSessionIffAccepted(p: Page, email: string, password: string, name: string, licenseKey: string,
                                 nowMs: nat, randomPart: string, environment: seq<CodeUnit>,
                                 trackReply: Reply, signupReply: Reply, signIn: SignIn)
    ensures var q := SignupOutcome(p, email, password, name, licenseKey, nowMs, randomPart, environment,
                                   trackReply, signupReply, signIn).1;
      q.view.isLoggedIn <==>
        p.view.isLoggedIn || (!trackReply.Unreachable? && SignupAccepted(signupReply) && signIn.SignedIn?)
    ensures var q := SignupOutcome(p, email, password, name, licenseKey, nowMs, randomPart, environment,
                                   trackReply, signupReply, signIn).1;
      !trackReply.Unreachable? && SignupAccepted(signupReply) && signIn.SignedIn? ==>
        q.view.userInfo == Some(SignedUpInfo(signupReply.response.payload))
        && q.view.notice == WelcomeNotice(SignedUpInfo(signupReply.response.payload))
  {
    if !trackReply.Unreachable? {
      var tracked := Page(p.view.(authLoading := true), DeviceIdAfter(p.stored, nowMs, randomPart).1);
      SubmittedSessionIffAccepted(tracked, email, password, name, licenseKey, signupReply, signIn);
    }
  }

  /** handleSignup shows an error exactly when SignupFailureText names one, and then stops loading. */
  lemma SignupFailureShown(p: Page, email: string, password: string, name: string, licenseKey: string,
                           nowMs: nat, randomPart: string, environment: seq<CodeUnit>,
                           trackReply: Reply, signupReply: Reply, signIn: SignIn)
    requires SignupFailureText(trackReply, signupReply, signIn).Some?
    ensures var q := SignupOutcome(p, email, password, name, licenseKey, nowMs, randomPart, environment,
                                   trackReply, signupReply, signIn).1;
      q.view.notice == Error(SignupFailureText(trackReply, signupReply, signIn).value) && !q.view.authLoading
  {
    if !trackReply.Unreachable? {
      var tracked := Page(p.view.(authLoading := true), DeviceIdAfter(p.stored, nowMs, randomPart).1);
      SubmittedFailureShown(tracked, email, password, name, licenseKey, signupReply, signIn);
    }
  }

  /**
   * handleSignup reports to track-device first, without a user id, and
   * sends the signup request, then the sign-in once the server accepted,
   * only when that call went through.
   */
  lemma SignupTrackedAnonymously(p: Page, email: string, password: string, name: string, licenseKey: string,
                                 nowMs: nat, randomPart: string, environment: seq<CodeUnit>,
                                 trackReply: Reply, signupReply: Reply, signIn: SignIn)
    ensures var calls := SignupOutcome(p, email, password, name, licenseKey, nowMs, randomPart, environment,
                                       trackReply, signupReply, signIn).0;
      var after := [SignupRequest(email, password, name, licenseKey)]
        + (if SignupAccepted(signupReply) then [SignInCall(email, password)] else []);
      calls == [TrackDeviceCall(FullIdentifier(p.stored, nowMs, randomPart, environment), SignupAction, "")]
        + (if trackReply.Unreachable? then [] else after)
  {
    var track := TrackDeviceCall(FullIdentifier(p.stored, nowMs, randomPart, environment), SignupAction, "");
    if trackReply.Unreachable? {
      assert [track] + [] == [track];
    } else {
      var tracked := Page(p.view.(authLoading := true), DeviceIdAfter(p.stored, nowMs, randomPart).1);
      SubmittedCalls(tracked, email, password, name, licenseKey, signupReply, signIn);
    }
  }

  /** Reset All leaves the session, the counter, storage and the shown result alone, and a second reset changes nothing. */
  lemma ResetKeepsSession(p: Page)
    ensures var q := InputsReset(p);
      q.stored == p.stored && q.view.isLoggedIn == p.view.isLoggedIn && q.view.userInfo == p.view.userInfo
      && q.view.previewCalculations == p.view.previewCalculations && q.view.displayedResult == p.view.displayedResult
      && q.view.inputs == DefaultInputs && q.view.lastCalculated.None?
    ensures InputsReset(InputsReset(p)) == InputsReset(p)
  {
  }

  /**
   * A logout that goes through signs the page out with default inputs and
   * keeps the counter, which storage holds again, so a reload resumes it.
   */
  lemma LogoutSignsOut(p: Page)
    requires p.Consistent()
    ensures var q := LogoutOutcome(p, None);
      q.Consistent() && !q.view.isLoggedIn && q.view.userInfo.None? && q.view.inputs == DefaultInputs
      && q.view.previewCalculations == p.view.previewCalculations
      && PageLoaded(q.stored).view.previewCalculations == p.view.previewCalculations
  {
    CounterSurvivesReload(LogoutOutcome(p, None));
  }

  /** A logout that throws only shows the error. */
  lemma LogoutFailureOnlyReports(p: Page, message: string)
    ensures var q := LogoutOutcome(p, Some(message));
      q.stored == p.stored && q.view == p.view.(notice := q.view.notice) && q.view.notice.Error?
  {
  }

  /** Without a license key handleUpgrade calls nothing and only shows the error. */
  lemma UpgradeNeedsKey(p: Page, licenseKey: string, session: Option<string>, refreshed: Option<string>, upgradeReply: Reply)
    requires AllWhitespace(licenseKey)
    ensures var r := UpgradeOutcome(p, licenseKey, session, refreshed, upgradeReply);
      r.0 == [] && r.1.stored == p.stored && r.1.view == p.view.(notice := Error(MissingKeyText))
  {
    assert licenseKey + [] == licenseKey;
    TrimStartPadded(licenseKey, []);
  }

  /**
   * Once a token is at hand, full access is granted (and written to the
   * auth metadata) exactly when the server accepted; otherwise only the
   * toast changes.
   */
  lemma SubmittedUpgradeIffAccepted(p: Page, key: string, token: string, upgradeReply: Reply)
    ensures var r := UpgradeSubmitted(p, key, token, upgradeReply);
      r.0[0] == UpgradeCall(key, token) && (UpdateAccessCall(key) in r.0 <==> UpgradeAccepted(upgradeReply))
    ensures var q := UpgradeSubmitted(p, key, token, upgradeReply).1;
      UpgradeAccepted(upgradeReply) ==>
        q.view.userInfo == Some(WithFullAccess(p.view.userInfo)) && q.view.userInfo.value.hasFullAccess
        && !q.view.showUpgradeModal && q.view.notice == Success(UpgradedText)
    ensures var q := UpgradeSubmitted(p, key, token, upgradeReply).1;
      !UpgradeAccepted(upgradeReply) ==> q.stored == p.stored && q.view == p.view.(notice := q.view.notice)
    ensures var q := UpgradeSubmitted(p, key, token, upgradeReply).1;
      (upgradeReply.NotJson? ==> q.view.notice == Error(InvalidResponseText(upgradeReply.status)))
      && (upgradeReply.Unreachable? ==>
            q.view.notice.Error? && q.view.notice.message != ""
            && (upgradeReply.message != "" ==> q.view.notice.message == upgradeReply.message))
      && (upgradeReply.Json? && !upgradeReply.response.Ok() ==>
            q.view.notice == Error(UpgradeFailureText(upgradeReply.response)))
  {
  }

  /**
   * handleUpgrade with a key but no session: the page is signed out, the
   * user forgotten, and the auth dialog reopened on whichever form it last
   * showed.
   */
  lemma UpgradeWithoutSession(p: Page, licenseKey: string, refreshed: Option<string>, upgradeReply: Reply)
    requires Trim(licenseKey) != ""
    ensures var r := UpgradeOutcome(p, licenseKey, None, refreshed, upgradeReply);
      r.0 == [GetSessionCall] && r.1 == SessionExpired(p)
      && r.1.Consistent() && !r.1.view.isLoggedIn && r.1.view.userInfo.None? && r.1.view.showAuthModal
      && r.1.view.authView == p.view.authView
      && !r.1.view.showUpgradeModal && r.1.view.notice == Error(SessionExpiredText)
      && r.1.view.previewCalculations == p.view.previewCalculations
  {
  }

  /**
   * handleUpgrade with a key and a session: the upgrade request carries the
   * refreshed token when there is one, and full access is granted exactly
   * when the server accepted.
   */
  lemma UpgradeWithSession(p: Page, licenseKey: string, token: string, refreshed: Option<string>, upgradeReply: Reply)
    requires Trim(licenseKey) != ""
    ensures var calls := UpgradeOutcome(p, licenseKey, Some(token), refreshed, upgradeReply).0;
      |calls| >= 3 && calls[..2] == [GetSessionCall, RefreshSessionCall]
      && calls[2] == UpgradeCall(Trim(licenseKey), refreshed.GetOr(token))
      && (UpdateAccessCall(Trim(licenseKey)) in calls <==> UpgradeAccepted(upgradeReply))
    ensures var q := UpgradeOutcome(p, licenseKey, Some(token), refreshed, upgradeReply).1;
      UpgradeAccepted(upgradeReply) ==> q.view.userInfo.Some? && q.view.userInfo.value.hasFullAccess
  {
    var key, active := Trim(licenseKey), refreshed.GetOr(token);
    var (calls, q) := UpgradeSubmitted(p, key, active, upgradeReply);
    SubmittedUpgradeIffAccepted(p, key, active, upgradeReply);
    var all := [GetSessionCall, RefreshSessionCall] + calls;
    assert UpgradeOutcome(p, licenseKey, Some(token), refreshed, upgradeReply) == (all, q);
    assert all[2] == calls[0];
    assert UpdateAccessCall(key) in all <==> UpdateAccessCall(key) in calls;
  }

  /** The signed-in count follows AccountGate: the gate's verdict, its new user info, and the count written to the auth metadata. */
  lemma AccountCountedFollowsGate(p: Page)
    requires p.view.userInfo.Some?
    ensures var (allowed, calls, q) := AccountCounted(p);
      var (granted, next) := AccountGate(p.view.userInfo.value);
      allowed == granted && q.view.userInfo == Some(next)
      && calls == (if granted && !next.hasFullAccess then [UpdateCountCall(next.calculationsUsed)] else [])
      && q.view.showUpgradeModal == (p.view.showUpgradeModal || !granted)
  {
    var u := p.view.userInfo.value;
    if !u.hasFullAccess && u.calculationsUsed >= ResultLimit {
      assert AccountCounted(p) == (false, [], p.(view := p.view.(showUpgradeModal := true)));
    } else if !u.hasFullAccess {
      var next := u.(calculationsUsed := u.calculationsUsed + 1);
      assert AccountGate(u) == (true, next);
      assert AccountCounted(p).1 == [UpdateCountCall(next.calculationsUsed)];
    }
  }

  /** The signed-in count changes only the user info, the toast and the upgrade dialog; storage is untouched. */
  lemma AccountCountedKeepsRest(p: Page)
    requires p.view.userInfo.Some?
    ensures var q := AccountCounted(p).2;
      q.stored == p.stored
      && q.view == p.view.(userInfo := q.view.userInfo, notice := q.view.notice, showUpgradeModal := q.view.showUpgradeModal)
  {
  }

  /** The visitor count follows PreviewGate, its only call is an anonymous track-device one, and the shown result stays. */
  lemma PreviewCountedFollowsGate(p: Page, nowMs: nat, randomPart: string, environment: seq<CodeUnit>)
    ensures var (allowed, calls, q) := PreviewCounted(p, nowMs, randomPart, environment);
      allowed == PreviewGate(p.view.previewCalculations).0
      && q.view.previewCalculations == PreviewGate(p.view.previewCalculations).1
      && q.view.isLoggedIn == p.view.isLoggedIn && q.view.userInfo == p.view.userInfo
      && q.view.displayedResult == p.view.displayedResult && q.view.inputs == p.view.inputs
      && (forall i :: 0 <= i < |calls| ==> calls[i].TrackDeviceCall? && calls[i].userId == "")
    ensures var (allowed, calls, q) := PreviewCounted(p, nowMs, randomPart, environment);
      !allowed ==>
        calls == [] && q.stored == p.stored && q.view.notice == Warning(PreviewExhausted)
        && q.view.authView == SignupView && q.view.showAuthModal
  {
  }

  /**
   * Get Results shows the quote exactly when the page's gate grants it, never
   * changes the sign-in state, and never sends a user id to track-device.
   */
  lemma GetResultsShowsIffGranted(p: Page, quote: Quote, nowMs: nat, randomPart: string, environment: seq<CodeUnit>)
    ensures var r := GetResultsOutcome(p, quote, nowMs, randomPart, environment);
      r.1.view.displayedResult == (if p.Granted() then Some(quote) else p.view.displayedResult)
      && r.1.view.isLoggedIn == p.view.isLoggedIn
    ensures var calls := GetResultsOutcome(p, quote, nowMs, randomPart, environment).0;
      forall i :: 0 <= i < |calls| && calls[i].TrackDeviceCall? ==> calls[i].userId == ""
  {
    if p.view.isLoggedIn && p.view.userInfo.Some? {
      AccountCountedKeepsRest(p);
    } else {
      PreviewCountedFollowsGate(p, nowMs, randomPart, environment);
    }
  }

  /**
   * Signed in, Get Results follows AccountGate: the user info takes the
   * gate's new count, which is also written to the auth metadata; storage
   * and the visitor counter are untouched.
   */
  lemma AccountResultsFollowGate(p: Page, quote: Quote, nowMs: nat, randomPart: string, environment: seq<CodeUnit>)
    requires p.view.isLoggedIn && p.view.userInfo.Some?
    ensures var r := GetResultsOutcome(p, quote, nowMs, randomPart, environment);
      var (granted, next) := AccountGate(p.view.userInfo.value);
      r.1.view.userInfo == Some(next) && r.1.stored == p.stored
      && r.1.view.previewCalculations == p.view.previewCalculations
      && r.0 == (if granted && !next.hasFullAccess then [UpdateCountCall(next.calculationsUsed)] else [])
  {
    AccountCountedFollowsGate(p);
    AccountCountedKeepsRest(p);
  }

  /** `n` Get Results clicks on the same inputs: how many showed a result, and the page after them. */
  function Clicks(p: Page, n: nat, quote: Quote, nowMs: nat, randomPart: string, environment: seq<CodeUnit>): (nat, Page)
    decreases n
  {
    if n == 0 then (0, p)
    else
      var next := GetResultsOutcome(p, quote, nowMs, randomPart, environment).1;
      var (more, last) := Clicks(next, n - 1, quote, nowMs, randomPart, environment);
      ((if p.Granted() then 1 else 0) + more, last)
  }

  /**
   * The toast after a counted free-account result names the number of
   * calculations the service's calculate reports as remaining for the same
   * record, or says it was the last one when the service reports none.
   */
  lemma CountedNoticeReportsServerRemaining(u: UserInfo, rec: UserRec)
    requires !u.hasFullAccess && u.calculationsUsed < ResultLimit
    requires rec.hasFullAccess == u.hasFullAccess && rec.calculationsUsed == u.calculationsUsed
    ensures var left := Remaining(CountCalculation(rec).0);
      CountedNotice(AccountGate(u).1.calculationsUsed)
        == if left > 0 then
             Success("Calculation complete! " + IntToString(left) + " calculation" + (if left == 1 then "" else "s") + " remaining")
           else Success(LastFreeText)
  {
  }

  /** One visitor click: PreviewGate decides it, and the page stays signed out and consistent. */
  lemma VisitorClick(p: Page, quote: Quote, nowMs: nat, randomPart: string, environment: seq<CodeUnit>)
    requires p.Consistent() && !p.view.isLoggedIn
    ensures var next := GetResultsOutcome(p, quote, nowMs, randomPart, environment).1;
      next.Consistent() && !next.view.isLoggedIn
      && (p.Granted(), next.view.previewCalculations) == PreviewGate(p.view.previewCalculations)
  {
  }

  /** A visitor's clicks follow PreviewRun: the counter decides every click, and the page stays signed out and consistent. */
  lemma {:induction false} VisitorClicksFollowPreviewRun(p: Page, n: nat, quote: Quote, nowMs: nat, randomPart: string,
                                                         environment: seq<CodeUnit>)
    requires p.Consistent() && !p.view.isLoggedIn
    ensures var (shown, last) := Clicks(p, n, quote, nowMs, randomPart, environment);
      (shown, last.view.previewCalculations) == PreviewRun(p.view.previewCalculations, n)
      && !last.view.isLoggedIn && last.Consistent()
    decreases n
  {
    if n > 0 {
      var next := GetResultsOutcome(p, quote, nowMs, randomPart, environment).1;
      VisitorClick(p, quote, nowMs, randomPart, environment);
      VisitorClicksFollowPreviewRun(next, n - 1, quote, nowMs, randomPart, environment);
    }
  }

  /** A browser with nothing stored sees exactly min(n, 5) results in n clicks before it must sign up. */
  lemma FreshBrowserSeesFivePreviews(items: map<string, string>, n: nat, quote: Quote, nowMs: nat, randomPart: string,
                                     environment: seq<CodeUnit>)
    requires PreviewKey !in items
    ensures Clicks(PageLoaded(items), n, quote, nowMs, randomPart, environment).0 == Min(n, ResultLimit)
  {
    VisitorClicksFollowPreviewRun(PageLoaded(items), n, quote, nowMs, randomPart, environment);
    PreviewRunCap(0, n);
  }

  /**
   * After its five previews, a browser that started with nothing stored gets
   * no result on the next click: the page warns that the previews are used
   * up and opens the signup form.
   */
  lemma FreshBrowserPromptsSignupAfterFive(items: map<string, string>, quote: Quote, nowMs: nat, randomPart: string,
                                           environment: seq<CodeUnit>)
    requires PreviewKey !in items
    ensures var last := Clicks(PageLoaded(items), ResultLimit, quote, nowMs, randomPart, environment).1;
      var (calls, q) := GetResultsOutcome(last, quote, nowMs, randomPart, environment);
      !last.Granted() && calls == [] && !q.view.isLoggedIn
      && q.view.displayedResult == last.view.displayedResult
      && q.view.notice == Warning(PreviewExhausted) && q.view.authView == SignupView && q.view.showAuthModal
  {
    var last := Clicks(PageLoaded(items), ResultLimit, quote, nowMs, randomPart, environment).1;
    VisitorClicksFollowPreviewRun(PageLoaded(items), ResultLimit, quote, nowMs, randomPart, environment);
    PreviewRunCap(0, ResultLimit);
    PreviewCountedFollowsGate(last, nowMs, randomPart, environment);
  }

  // ---------------------------------------------------------------------------
  // The page
  // ---------------------------------------------------------------------------

  class App {
    const storage: LocalStorage
    /** The component's state variables. */
    var view: View

    /** The state variables and local storage as one value. */
    function State(): Page
      reads this, storage
    {
      Page(view, storage.items)
    }

    ghost predicate Valid()
      reads this, storage
    {
      State().Consistent()
    }

    /** Page load: the preview counter is read from storage, and the persist effect writes it back. */
    constructor (storage: LocalStorage)
      modifies storage
      ensures this.storage == storage
      ensures State() == PageLoaded(old(storage.items))
      ensures Valid()
    {
      this.storage := storage;
      var count := Int(0);
      var saved := storage.GetItem(PreviewKey);
      if saved.Some? && saved.value != "" {
        var parsed := ParseInt(saved.value);
        count := if parsed.Some? then Int(parsed.value) else NaN;
      }
      view := View(false, None, count, false, false, LoginView, false, NoNotice, DefaultInputs, false, None, false, false, None);
      new;
      PersistPreview();
    }

    /** The effect that writes the preview counter to storage whenever it, or the sign-in state, changes while signed out. */
    method PersistPreview()
      modifies storage
      ensures State() == Persisted(old(State()))
    {
      if !view.isLoggedIn {
        storage.SetItem(PreviewKey, view.previewCalculations.ToString());
      }
    }

    /** Entering a session: user info set, signed in, stored preview counter removed and reset to 0. */
    method EnterSession(info: UserInfo)
      modifies this, storage
      ensures State() == SessionEntered(old(State()), info)
      ensures Valid()
    {
      view := view.(userInfo := Some(info), isLoggedIn := true);
      storage.RemoveItem(PreviewKey);
      view := view.(previewCalculations := Int(0));
    }

    /** The getSession call at page load. */
    method RestoreSession(session: Option<AuthUser>)
      requires Valid()
      modifies this, storage
      ensures State() == SessionRestored(old(State()), session)
      ensures Valid()
    {
      if session.Some? {
        EnterSession(UserInfoOf(session.value));
      }
    }

    /** onAuthStateChange, followed by the persist effect. */
    method AuthStateChanged(session: Option<AuthUser>)
      modifies this, storage
      ensures State() == AuthStateApplied(old(State()), session)
      ensures Valid()
    {
      if session.Some? {
        EnterSession(UserInfoOf(session.value));
      } else {
        view := view.(isLoggedIn := false, userInfo := None);
        PersistPreview();
      }
    }

    /** handleLogin: signInWithPassword, then enter the session or show the error. */
    method HandleLogin(email: string, password: string, signIn: SignIn) returns (calls: seq<Call>)
      requires Valid()
      modifies this, storage
      ensures calls == [SignInCall(email, password)]
      ensures State() == LoginOutcome(old(State()), signIn)
      ensures Valid()
    {
      view := view.(authLoading := true);
      calls := [SignInCall(email, password)];
      match signIn {
        case SignInFailed(message) =>
          view := view.(authLoading := false, notice := Error(OrElse(message, SignInFallbackText)));
        case SignedIn(user) =>
          var info := UserInfoOf(user);
          EnterSession(info);
          view := view.(authLoading := false, showAuthModal := false,
                        notice := Success(WelcomeBackText(info.name)));
      }
    }

    /** handleSignup after the account was created. */
    method FinishSignup(info: UserInfo, signIn: SignIn)
      requires Valid()
      modifies this, storage
      ensures State() == SignupFinished(old(State()), info, signIn)
      ensures Valid()
    {
      if signIn.SignInFailed? {
        view := view.(authLoading := false,
                      notice := Error(OrElse(signIn.message, SignupFallbackText)));
      } else {
        EnterSession(info);
        view := view.(authLoading := false, showAuthModal := false, notice := WelcomeNotice(info));
      }
    }

    /** handleSignup on the signup reply. */
    method ApplySignupReply(email: string, password: string, signupReply: Reply, signIn: SignIn)
      returns (calls: seq<Call>)
      requires Valid()
      modifies this, storage
      ensures (calls, State()) == SignupReplied(old(State()), email, password, signupReply, signIn)
      ensures Valid()
    {
      calls := [];
      match signupReply {
        case Unreachable(message) =>
          view := view.(authLoading := false, notice := Error(OrElse(message, SignupFallbackText)));
        case NotJson(status) =>
          view := view.(authLoading := false, notice := Error(InvalidResponseText(status)));
        case Json(result) =>
          if !result.Ok() {
            view := view.(authLoading := false,
                          notice := Error(OrElse(ErrorField(result.payload), SignupRefusedText)));
          } else if result.payload.SignedUp? {
            calls := [SignInCall(email, password)];
            FinishSignup(SignedUpInfo(result.payload), signIn);
          }
      }
    }

    /** handleSignup after the tracking call. */
    method SubmitSignup(email: string, password: string, name: string, licenseKey: string,
                        signupReply: Reply, signIn: SignIn)
      returns (calls: seq<Call>)
      requires Valid()
      modifies this, storage
      ensures (calls, State()) == SignupSubmitted(old(State()), email, password, name, licenseKey, signupReply, signIn)
      ensures Valid()
    {
      var later := ApplySignupReply(email, password, signupReply, signIn);
      calls := [SignupRequest(email, password, name, licenseKey)] + later;
    }

    /** handleSignup. */
    method HandleSignup(email: string, password: string, name: string, licenseKey: string,
                        nowMs: nat, randomPart: string, environment: seq<CodeUnit>,
                        trackReply: Reply, signupReply: Reply, signIn: SignIn)
      returns (calls: seq<Call>)
      requires Valid()
      modifies this, storage
      ensures (calls, State()) == SignupOutcome(old(State()), email, password, name, licenseKey,
                                                nowMs, randomPart, environment, trackReply, signupReply, signIn)
      ensures Valid()
    {
      view := view.(authLoading := true);
      var deviceFingerprint := GetFullDeviceIdentifier(storage, nowMs, randomPart, environment);
      var track := TrackDeviceCall(deviceFingerprint, SignupAction, "");
      if trackReply.Unreachable? {
        view := view.(authLoading := false,
                      notice := Error(OrElse(trackReply.message, SignupFallbackText)));
        calls := [track];
      } else {
        var submitted := SubmitSignup(email, password, name, licenseKey, signupReply, signIn);
        calls := [track] + submitted;
      }
    }

    /** Reset All. */
    method ResetAll()
      modifies this
      ensures State() == InputsReset(old(State()))
    {
      view := view.(inputs := DefaultInputs, showRecap := false, showAdvanced := false,
                    inputsChanged := false, lastCalculated := None,
                    notice := Success(InputsResetText));
    }

    /** handleLogout. */
    method HandleLogout(signOutThrew: Option<string>) returns (calls: seq<Call>)
      requires Valid()
      modifies this, storage
      ensures calls == [SignOutCall]
      ensures State() == LogoutOutcome(old(State()), signOutThrew)
      ensures Valid()
    {
      calls := [SignOutCall];
      if signOutThrew.Some? {
        view := view.(notice := Error(OrElse(signOutThrew.value, LogoutFallbackText)));
      } else {
        view := view.(isLoggedIn := false, userInfo := None);
        ResetAll();
        view := view.(notice := Success(LoggedOutText));
        PersistPreview();
      }
    }

    /** handleUpgrade once a session token is at hand. */
    method SubmitUpgrade(key: string, token: string, upgradeReply: Reply) returns (calls: seq<Call>)
      requires Valid()
      modifies this
      ensures calls == UpgradeSubmitted(old(State()), key, token, upgradeReply).0
      ensures State() == UpgradeSubmitted(old(State()), key, token, upgradeReply).1
      ensures Valid()
    {
      calls := [UpgradeCall(key, token)];
      assert calls == UpgradeCalls(key, token, upgradeReply) || UpgradeAccepted(upgradeReply);
      match upgradeReply {
        case Unreachable(message) =>
          view := view.(notice := Error(OrElse(message, UpgradeFallbackText)));
        case NotJson(status) =>
          view := view.(notice := Error(InvalidResponseText(status)));
        case Json(result) =>
          if !result.Ok() {
            view := view.(notice := Error(UpgradeFailureText(result)));
          } else if SuccessField(result.payload) {
            calls := calls + [UpdateAccessCall(key)];
            view := view.(userInfo := Some(WithFullAccess(view.userInfo)),
                          showUpgradeModal := false, notice := Success(UpgradedText));
          }
      }
    }

    /** handleUpgrade without a session, followed by the persist effect. */
    method ExpireSession()
      modifies this, storage
      ensures State() == SessionExpired(old(State()))
      ensures Valid()
    {
      view := view.(notice := Error(SessionExpiredText), showUpgradeModal := false,
                    showAuthModal := true, isLoggedIn := false, userInfo := None);
      PersistPreview();
    }

    /** handleUpgrade. */
    method HandleUpgrade(licenseKey: string, session: Option<string>, refreshed: Option<string>, upgradeReply: Reply)
      returns (calls: seq<Call>)
      requires Valid()
      modifies this, storage
      ensures (calls, State()) == UpgradeOutcome(old(State()), licenseKey, session, refreshed, upgradeReply)
      ensures Valid()
    {
      var key := Trim(licenseKey);
      if key == "" {
        view := view.(notice := Error(MissingKeyText));
        calls := [];
      } else if session.None? {
        ExpireSession();
        calls := [GetSessionCall];
      } else {
        var activeToken := if refreshed.Some? then refreshed.value else session.value;
        var submitted := SubmitUpgrade(key, activeToken, upgradeReply);
        calls := [GetSessionCall, RefreshSessionCall] + submitted;
      }
    }

    /** The signed-in half of handleGetResults, up to showing the result. */
    method CountAccountResult() returns (allowed: bool, calls: seq<Call>)
      requires view.userInfo.Some?
      modifies this
      ensures (allowed, calls, State()) == AccountCounted(old(State()))
    {
      var u := view.userInfo.value;
      calls := [];
      if !u.hasFullAccess && u.calculationsUsed >= ResultLimit {
        view := view.(showUpgradeModal := true);
        allowed := false;
      } else {
        allowed := true;
        if !u.hasFullAccess {
          var updatedUser := u.(calculationsUsed := u.calculationsUsed + 1);
          view := view.(userInfo := Some(updatedUser));
          calls := [UpdateCountCall(updatedUser.calculationsUsed)];
          view := view.(notice := CountedNotice(updatedUser.calculationsUsed));
        } else {
          view := view.(notice := Success(FullAccessResultText));
        }
      }
    }

    /** The signed-out half of handleGetResults, up to showing the result. */
    method CountPreviewResult(nowMs: nat, randomPart: string, environment: seq<CodeUnit>)
      returns (allowed: bool, calls: seq<Call>)
      modifies this, storage
      ensures (allowed, calls, State()) == PreviewCounted(old(State()), nowMs, randomPart, environment)
    {
      if view.previewCalculations.AtLeast(ResultLimit) {
        view := view.(notice := Warning(PreviewExhausted), authView := SignupView,
                      showAuthModal := true);
        allowed, calls := false, [];
      } else {
        var newCount := view.previewCalculations.Plus1();
        view := view.(previewCalculations := newCount);
        var deviceFingerprint := GetFullDeviceIdentifier(storage, nowMs, randomPart, environment);
        calls := [TrackDeviceCall(deviceFingerprint, CalculateAction, "")];
        view := view.(notice := PreviewNotice(newCount));
        PersistPreview();
        allowed := true;
      }
    }

    /** Showing a result. */
    method ShowResult(quote: Quote)
      modifies this
      ensures State() == ResultShown(old(State()), quote)
    {
      view := view.(displayedResult := Some(quote), showRecap := true, inputsChanged := false,
                    lastCalculated := Some(view.inputs));
    }

    /** handleGetResults. */
    method HandleGetResults(quote: Quote, nowMs: nat, randomPart: string, environment: seq<CodeUnit>)
      returns (calls: seq<Call>)
      requires Valid()
      modifies this, storage
      ensures (calls, State()) == GetResultsOutcome(old(State()), quote, nowMs, randomPart, environment)
      ensures Valid()
    {
      var allowed: bool;
      if view.isLoggedIn && view.userInfo.Some? {
        allowed, calls := CountAccountResult();
      } else {
        allowed, calls := CountPreviewResult(nowMs, randomPart, environment);
      }
      if allowed {
        ShowResult(quote);
      }
    }
  }
}
