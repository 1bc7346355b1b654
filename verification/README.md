# Baseline pricing tool: entitlement model

Baseline is a pricing calculator. Visitors get five free "preview" results in
their browser. After that they must create an account. A free account gets
five counted calculations. A valid license key, given at signup or later
through "upgrade", grants unlimited full access. This project models the
three parts that decide who may see a result:

- **The entitlement service** (`supabase/functions/server/index.tsx`),
  module `EntitlementServer`. The account table (`user:<id>` records), the
  device table (`device:<fingerprint>` records) and the pending e-mail codes
  are fields of the class `Server`. Its handlers are `signup`, `calculate`,
  `upgrade`, `check-device`, `track-device`, `send-verification` and
  `verify-email`. The pure decisions behind them are functions: the
  license-key check, bearer-token and JWT subject extraction, counting one
  calculation, upgrading a record, a device verdict, a tracked device
  record and code verification.
- **The page controller** (`App.tsx`), module `ClientController`. The
  React state the handlers touch is one `View` record. The browser's
  `localStorage` is the class `Browser.LocalStorage`. Each handler
  (session restore, auth-state change, login, signup, logout, upgrade,
  reset, "get results" and the effect that persists the preview counter)
  is a pure transition on a `Page` (view plus stored items). The class
  `App` then performs each handler in place and is proved equal to its
  transition. Service replies, auth answers, clocks and random draws are
  parameters. The user-facing handlers (login, signup, logout, upgrade,
  "get results") return the requests they issued, as a sequence of `Call`
  values. The session restore at page load and the auth-state listener
  take the session they were given as a parameter and return no calls.
- **Device identity** (`utils/deviceFingerprint.ts`), module
  `DeviceFingerprint`. This covers the 32-bit string hash written in base
  36, the device id that is created once and kept in local storage, and
  the combined identifier the client sends to the service.

The module `JsText` models the JavaScript built-ins these files rely on:
`trim`, `split`/`join`, `Number.prototype.toString(radix)` and `parseInt`.
Along with them it proves the round trips that the code's use of them
depends on.

The properties that matter are listed here. The counters bound what a free
user or a visitor can see: five counted calculations, then a 403, and five
previews, then the signup prompt; a NaN counter never blocks. Full access
lifts the cap, is never lost, and repeating an upgrade changes nothing. The
client's account gate agrees with the service's counter. `calculate` and
`upgrade` never remove an account record, lower a counter or withdraw full
access. `signup` writes a fresh record with 0 calculations, so it keeps
this promise only for an account id that had no record yet. The
device table never lists an account twice. A verification code works once
and only until it expires. The preview counter survives a reload.

Notes on what the code does:

- The client never calls `/calculate` or `/check-device`. A signed-in
  user's count is kept in the auth metadata through `updateUser`, and the
  counting service is modelled in its own right.
- The client tracks signups without a user id (`App.tsx` 269-282). The
  device account limit therefore never grows from the client's own calls
  (`ClientController.ClientTrackingAddsNoAccounts`).
- `upgrade` never answers 404: a user the auth service does not know gives
  401. The client's 404 text is kept anyway (`ClientController.UpgradeFailureText`).
- `signup` stores `hasFullAccess` as `licenseKey && VALID_LICENSE_KEYS.includes(...)`.
  When the key is empty this is the empty string, a falsy value. The model
  stores the boolean it stands for.

## Model

| member | source | states |
|---|---|---|
| JsText.TrimIsSlice | supabase/functions/server/index.tsx:144 | `trim()` returns a contiguous slice of its input and removes only white space from both ends |
| JsText.TrimKeepsNoEdgeWhitespace | supabase/functions/server/index.tsx:144 | a trimmed non-empty string neither starts nor ends with white space |
| JsText.TrimOfPadded | supabase/functions/server/index.tsx:144 | trimming white space + s + white space, where s has no white space at its edges, gives back s |
| JsText.TrimIdempotent | App.tsx:458 | trimming twice is trimming once |
| JsText.SplitShape | supabase/functions/server/index.tsx:10 | `split(sep)` yields one more piece than there are separators, and no piece contains the separator |
| JsText.JoinSplit | supabase/functions/server/index.tsx:10 | joining the pieces of a split with the same separator restores the string |
| JsText.SplitJoin | supabase/functions/server/index.tsx:10 | splitting a join of separator-free pieces restores the pieces |
| JsText.ToRadixDigits | utils/deviceFingerprint.ts:42 | `toString(base)` writes only digits of the base and no leading zero |
| JsText.RadixRoundTrip | utils/deviceFingerprint.ts:42 | reading back what `toString(base)` wrote gives the number |
| JsText.ParseIntRoundTrip | App.tsx:37-43 | `parseInt(n.toString(), 10)` is n for every integer n, so the stored preview counter reads back exactly |
| DeviceFingerprint.ToInt32 | utils/deviceFingerprint.ts:39-40 | the 32-bit conversion of the bitwise operators yields a signed 32-bit value congruent to its argument modulo 2^32 |
| DeviceFingerprint.WrittenStepIsHashStep | utils/deviceFingerprint.ts:39-40 | the loop step `(hash << 5) - hash + char` then `hash & hash` equals int32(31 * hash + char) |
| DeviceFingerprint.SimpleHash | utils/deviceFingerprint.ts:35-43 | the loop computes the 31-multiplier 32-bit fold of the code units and returns its absolute value in base 36, a non-empty string of 0-9a-z; the empty string hashes to "0" |
| DeviceFingerprint.FreshDeviceId | utils/deviceFingerprint.ts:51 | a new device id is the decimal time, then `_`, then exactly the random part |
| DeviceFingerprint.DeviceIdAfter | utils/deviceFingerprint.ts:45-56 | getDeviceId returns the stored id and leaves storage untouched when a non-empty id is stored; otherwise it returns `<time>_<random>` and stores it under `baseline_device_id` |
| DeviceFingerprint.DeviceIdStable | utils/deviceFingerprint.ts:45-56 | once getDeviceId has run, every later call returns the same id and writes nothing |
| DeviceFingerprint.GetDeviceId | utils/deviceFingerprint.ts:45-56 | the method reads and writes local storage exactly as DeviceIdAfter says |
| DeviceFingerprint.GetFullDeviceIdentifier | utils/deviceFingerprint.ts:58-64 | the identifier is the stored device id, `_`, and the environment hash, and it starts with the device id |
| Browser.LocalStorage.GetItem | App.tsx:39 | getItem returns the stored value exactly when the key is present, and null otherwise |
| EntitlementServer.ListedKeyShape | supabase/functions/server/index.tsx:39-43 | every listed license key is non-empty and has no white space at its ends |
| EntitlementServer.ValidMeansListed | supabase/functions/server/index.tsx:144 | a license key is valid exactly when its trimmed text is one of the listed keys |
| EntitlementServer.SameTrimSameVerdict | supabase/functions/server/index.tsx:144 | two keys that trim to the same text get the same verdict |
| EntitlementServer.ValidKeyAcceptedWithPadding | supabase/functions/server/index.tsx:144 | a listed key surrounded by any white space is accepted |
| EntitlementServer.ExtractUserId | supabase/functions/server/index.tsx:8-19 | the subject is found exactly when the token has three dot-separated parts and the payload's `sub` is non-empty, and it is that `sub` |
| EntitlementServer.BearerToken | supabase/functions/server/index.tsx:253-257 | a non-empty token comes from after a space in the Authorization header and contains no space |
| EntitlementServer.BearerEyPiece | supabase/functions/server/index.tsx:346-348 | an Authorization header starting with `Bearer ey` has a second space-separated piece of at least two characters |
| EntitlementServer.UpgradeToken | supabase/functions/server/index.tsx:333-350 | upgrade takes the access-token header first, then the body token, then a `Bearer ey…` header; the result is empty only when all three are absent |
| EntitlementServer.CountCalculation | supabase/functions/server/index.tsx:292-323 | full access always succeeds and counts nothing; otherwise the call succeeds exactly below 5 and increments the counter by one; at the limit it answers 403 with 0 remaining and changes nothing; only the counter ever changes |
| EntitlementServer.FreeTierRun | supabase/functions/server/index.tsx:301-323 | n calculations on a free record with at most 5 calculations answer 200 with remaining 4-k for the k-th until the counter reaches 5, then 403; the counter ends at min(5, used + n) |
| EntitlementServer.FullAccessRun | supabase/functions/server/index.tsx:292-298 | any number of calculations with full access all succeed with unlimited remaining and leave the record unchanged |
| EntitlementServer.FreshFreeAccountScenario | supabase/functions/server/index.tsx:301-323 | a new free account gets five successes (remaining 4, 3, 2, 1, 0), then a 403 |
| EntitlementServer.UpgradedRecord | supabase/functions/server/index.tsx:431-440 | the upgraded record has full access and is otherwise the old record |
| EntitlementServer.CountedTable | supabase/functions/server/index.tsx:277-323 | calculate writes only the caller's record (restored from auth metadata when missing) and keeps every other account's record |
| EntitlementServer.CountingExtends | supabase/functions/server/index.tsx:277-323 | counting keeps every account, keeps full access and never lowers a counter; full-access records stay unchanged |
| EntitlementServer.UpgradeExtends | supabase/functions/server/index.tsx:409-440 | upgrading keeps every account and never lowers a counter or withdraws access |
| EntitlementServer.UpgradeIdempotent | supabase/functions/server/index.tsx:409-440 | upgrading the same user twice leaves the same table as upgrading once |
| EntitlementServer.UpgradeLiftsCap | supabase/functions/server/index.tsx:292-298 | after an upgrade, calculate for that user always succeeds, counts nothing and leaves the record unchanged |
| EntitlementServer.AdmitUpgrade | supabase/functions/server/index.tsx:362-406 | upgrade checks, in order: a token is present (401 "No token"), the key is listed (400), the JWT has a subject (401 "Invalid token format"), the auth service knows the user (401 "Authentication failed"); it admits exactly when all four hold, and each failing step gives exactly its own answer |
| EntitlementServer.DeviceVerdict | supabase/functions/server/index.tsx:449-488 | no fingerprint gives 400; an unknown device is allowed with zero counts and no message; a known device is allowed exactly below 15 calculations and 3 accounts, and its counts are reported |
| EntitlementServer.TrackedRecord | supabase/functions/server/index.tsx:491-527 | the tracked record refreshes lastSeen, keeps firstSeen, adds one calculation for `calculate`, adds the user id to the accounts on `signup` only when it is new and non-empty, and keeps the accounts free of repeats |
| EntitlementServer.RepeatedSignupIdempotent | supabase/functions/server/index.tsx:510-514 | tracking the same signup twice does not grow the account list |
| EntitlementServer.AnonymousSignupAddsNoAccount | supabase/functions/server/index.tsx:510 | a signup tracked without a user id adds no account |
| EntitlementServer.DeviceRefusalIsPermanent | supabase/functions/server/index.tsx:476 | once a device is refused, no tracked action makes it allowed again |
| EntitlementServer.TrackingKeepsAccountsDistinct | supabase/functions/server/index.tsx:491-527 | track-device keeps every device's account list free of repeats |
| EntitlementServer.VerifyOutcome | supabase/functions/server/index.tsx:563-598 | verify-email succeeds exactly when both fields are given and a matching code is pending and unexpired; an expired code is deleted and answered "expired"; a mismatch keeps the code; a used code is deleted; every failure answers 400 |
| EntitlementServer.CodeIsSingleUse | supabase/functions/server/index.tsx:572-588 | after a successful verification the same code is refused |
| EntitlementServer.CodeHonouredUntilExpiry | supabase/functions/server/index.tsx:541-585 | a code sent at time t is accepted exactly until t + 10 minutes |
| EntitlementServer.Server.constructor | supabase/functions/server/index.tsx:46 | the service starts with empty tables |
| EntitlementServer.Server.Signup | supabase/functions/server/index.tsx:119-204 | missing fields give 400 and change nothing; a failed createUser gives 400 with its message; a created user gets a record with 0 calculations and full access exactly when the key is valid |
| EntitlementServer.Server.Calculate | supabase/functions/server/index.tsx:251-328 | no token or an unknown user gives 401; a JWT without a subject gives 401 "Invalid token"; otherwise the caller is counted as CountedTable says; no account is lost, downgraded or counted down |
| EntitlementServer.Server.CountFor | supabase/functions/server/index.tsx:277-323 | the in-place count equals CountedTable |
| EntitlementServer.Server.Upgrade | supabase/functions/server/index.tsx:331-446 | a refusal answers as AdmitUpgrade says and changes nothing; an admitted user's record (or a new record from auth metadata) gets full access, and nothing else changes |
| EntitlementServer.Server.CheckDevice | supabase/functions/server/index.tsx:449-488 | the answer is DeviceVerdict of the device table |
| EntitlementServer.Server.TrackDevice | supabase/functions/server/index.tsx:491-527 | no fingerprint gives 400; otherwise the device record becomes TrackedRecord, no other table changes, and account lists stay repeat-free |
| EntitlementServer.Server.SendVerification | supabase/functions/server/index.tsx:530-560 | no e-mail gives 400; otherwise a code of exactly six decimal digits, expiring in 10 minutes, is stored for the e-mail and returned |
| EntitlementServer.CodeHasSixDigits | supabase/functions/server/index.tsx:51-53 | a draw from [100000, 999999] is written with exactly six digits |
| EntitlementServer.Server.VerifyEmail | supabase/functions/server/index.tsx:563-598 | the answer and the new code table are VerifyOutcome's |
| ClientController.PreviewSurvivesReload | App.tsx:37-43 | the counter a page writes to local storage is the counter the next page load reads, NaN included |
| ClientController.NaNTextIsNaN | App.tsx:40 | the stored text "NaN" reads back as NaN |
| ClientController.AccountGate | App.tsx:666-695 | a signed-in user sees a result exactly with full access or fewer than 5 calculations, and only then is a free user's count increased by one |
| ClientController.AccountGateMatchesServer | App.tsx:666-695 | the client's account gate decides and counts exactly as the service's calculate does on the same record |
| ClientController.PreviewGate | App.tsx:697-728 | a visitor sees a result exactly when the counter is not at least 5, and the counter then grows by one (NaN stays NaN) |
| ClientController.PreviewRunCap | App.tsx:697-728 | starting from counter c, n visitor clicks show min(n, max(0, 5 - c)) results and leave the counter at min(c + n, 5), or at c when c was already at least 5 |
| ClientController.NaNPreviewNeverBlocks | App.tsx:697-728 | with a NaN counter every click shows a result |
| ClientController.ClientTrackingAddsNoAccounts | App.tsx:269-282 | replaying the client's tracking calls, none of which carry a user id, never adds an account to a device |
| ClientController.ClientTrimAgreesWithServer | App.tsx:458 | the service's verdict on the trimmed key the client sends is its verdict on the key as typed |
| ClientController.SubmitFailureText | App.tsx:302-357 | a signup failure has a non-empty message, and there is none exactly when the service accepted and sign-in succeeded |
| ClientController.SignupFailureText | App.tsx:262-358 | as SubmitFailureText, with an unreachable tracking call also failing the signup |
| ClientController.UpgradeFailureText | App.tsx:483-504 | every refused upgrade shows a non-empty message, and 404 shows the "account not found" text |
| ClientController.UpgradeRefusalShown | App.tsx:483-504 | every refusal the service's upgrade can answer reaches the user as a non-empty error |
| ClientController.UpgradeCalls | App.tsx:450-522 | upgrade posts the key and token first, and updates the auth metadata exactly when the service accepted |
| ClientController.SignupRequest | App.tsx:285-298 | the signup request carries the e-mail, the password, the trimmed license key and the given name, or `email.split('@')[0]` when no name is given |
| ClientController.SignupRequestDefaultsName | App.tsx:294 | without a name the request is named after the e-mail's part before the first `@`, which is non-empty when the e-mail does not start with `@` |
| ClientController.PageLoaded | App.tsx:37-43 | a fresh page is signed out and its counter is what storage holds |
| ClientController.Persisted | App.tsx:780-784 | the persist effect writes the counter only when signed out, and leaves a signed-in page unchanged |
| ClientController.SessionEntered | App.tsx:115-124 | entering a session signs in with that user and clears the stored preview counter |
| ClientController.SessionRestored | App.tsx:108-126 | a restored session signs in with that user, zeroes the preview counter and removes it from storage; without a session nothing changes |
| ClientController.AuthStateApplied | App.tsx:129-148 | a session signs in with its user and clears the preview counter; no session signs out and clears the user, keeping the counter; the page is consistent afterwards |
| ClientController.LoginOutcome | App.tsx:223-260 | login keeps the page consistent |
| ClientController.SignupFinished | App.tsx:318-351 | the end of signup keeps the page consistent |
| ClientController.SignupReplied | App.tsx:300-357 | after the signup reply, the only further call is the sign-in, and the page stays consistent |
| ClientController.SignupSubmitted | App.tsx:285-357 | the signup request and its reply keep the page consistent |
| ClientController.DeviceIdKeepsConsistent | utils/deviceFingerprint.ts:45-56 | storing a device id, with the spinner on, keeps a consistent page consistent, because the id has its own storage key |
| ClientController.SignupOutcome | App.tsx:262-358 | handleSignup keeps the page consistent |
| ClientController.InputsReset | App.tsx:558-571 | reset keeps the page consistent |
| ClientController.LogoutOutcome | App.tsx:381-391 | logout keeps the page consistent |
| ClientController.UpgradeSubmitted | App.tsx:450-526 | the upgrade request and its reply keep the page consistent |
| ClientController.SessionExpired | App.tsx:405-412 | an expired session signs out, clears the user and keeps the preview counter |
| ClientController.UpgradeOutcome | App.tsx:393-527 | handleUpgrade keeps the page consistent |
| ClientController.AccountCounted | App.tsx:666-695 | counting a signed-in result keeps the page consistent |
| ClientController.PreviewCounted | App.tsx:697-728 | counting a preview keeps a signed-out page consistent (its effects are stated by PreviewCountedFollowsGate) |
| ClientController.ResultShown | App.tsx:731-746 | showing a result keeps the page consistent |
| ClientController.GetResultsOutcome | App.tsx:664-751 | handleGetResults keeps the page consistent |
| ClientController.CounterSurvivesReload | App.tsx:37-43 | a signed-out page's counter survives a reload |
| ClientController.LoginFailureOnlyReports | App.tsx:256-259 | a failed login only shows an error and stops the spinner |
| ClientController.LoginSuccessOpensSession | App.tsx:236-255 | a successful login signs the user in, closes the modal, greets them and clears the stored preview counter |
| ClientController.SubmittedCalls | App.tsx:285-320 | after tracking, signup sends the signup request, then a sign-in exactly when the service accepted |
| ClientController.SubmittedSessionIffAccepted | App.tsx:314-351 | signup signs the user in exactly when the service accepted and sign-in succeeded, with the returned account and a welcome notice |
| ClientController.SubmittedFailureShown | App.tsx:302-357 | every signup failure after the request shows its message and stops the spinner |
| ClientController.SignupSessionIffAccepted | App.tsx:262-358 | handleSignup signs in exactly when tracking was reachable, the service accepted and sign-in succeeded |
| ClientController.SignupFailureShown | App.tsx:262-358 | every handleSignup failure shows its message and stops the spinner |
| ClientController.SignupTrackedAnonymously | App.tsx:269-298 | handleSignup first tracks the device with action `signup` and no user id, then sends the signup request |
| ClientController.ResetKeepsSession | App.tsx:558-571 | reset restores default inputs and keeps the session, counter and shown result; resetting twice is resetting once |
| ClientController.LogoutSignsOut | App.tsx:381-391 | a successful logout signs out, clears the user, resets inputs and keeps the preview counter, which also survives a reload |
| ClientController.LogoutFailureOnlyReports | App.tsx:388-389 | a failed logout only shows an error |
| ClientController.UpgradeNeedsKey | App.tsx:394-397 | an empty or blank key sends nothing and only shows an error |
| ClientController.SubmittedUpgradeIffAccepted | App.tsx:450-526 | the metadata update is sent exactly when the service accepted; then the user has full access, the modal closes and success is shown; otherwise only the notice changes: an unreadable reply reports its status, an unreachable service reports its message (or a fallback), and a refusal reports the service's error text |
| ClientController.UpgradeWithoutSession | App.tsx:405-412 | without a session, upgrade only asks for the session: it is SessionExpired, so it signs out, sets the user to null, closes the upgrade modal, opens the auth modal on whichever form it last showed, reports that the session expired and keeps the preview counter |
| ClientController.UpgradeWithSession | App.tsx:415-522 | with a session, upgrade refreshes it and posts the trimmed key with the refreshed token or the old one; the user gains full access exactly when the service accepted |
| ClientController.AccountCountedFollowsGate | App.tsx:666-695 | a signed-in click follows AccountGate: it updates the metadata count when a free user is allowed and opens the upgrade modal when refused |
| ClientController.AccountCountedKeepsRest | App.tsx:666-695 | a signed-in click changes only the user info, the notice and the upgrade modal |
| ClientController.PreviewCountedFollowsGate | App.tsx:697-728 | a visitor click follows PreviewGate, keeps the session, inputs and shown result, and tracks the device with no user id; a refused click sends nothing, warns that the previews are used up, switches to the signup form and opens the auth modal |
| ClientController.FreshBrowserPromptsSignupAfterFive | App.tsx:697-703 | after five previews from an empty store, the next click shows no result, sends nothing and opens the signup prompt |
| ClientController.CountedNoticeReportsServerRemaining | App.tsx:686-691 | the toast after a counted free result names the number of calculations the service's calculate reports as remaining for the same record, or says it was the last one |
| ClientController.WithFullAccess | App.tsx:515-518 | the user after an upgrade has full access and is otherwise the previous user info |
| ClientController.GetResultsShowsIffGranted | App.tsx:664-751 | a click shows the quote exactly when the page's gate grants it, and every tracking call it makes is anonymous |
| ClientController.AccountResultsFollowGate | App.tsx:664-695 | for a signed-in user, a click counts as AccountGate says and leaves storage and the preview counter alone |
| ClientController.VisitorClick | App.tsx:697-751 | a visitor click keeps the page signed out and consistent and moves the counter as PreviewGate says |
| ClientController.VisitorClicksFollowPreviewRun | App.tsx:697-751 | n visitor clicks show and count exactly as PreviewRun says |
| ClientController.FreshBrowserSeesFivePreviews | App.tsx:37-43 | a browser with nothing stored sees exactly min(n, 5) results in n clicks |
| ClientController.App.constructor | App.tsx:37-43 | a new page is PageLoaded of the stored items |
| ClientController.App.PersistPreview | App.tsx:780-784 | the effect performs Persisted in place |
| ClientController.App.EnterSession | App.tsx:115-124 | performs SessionEntered in place |
| ClientController.App.RestoreSession | App.tsx:108-126 | performs SessionRestored in place |
| ClientController.App.AuthStateChanged | App.tsx:129-148 | performs AuthStateApplied in place |
| ClientController.App.HandleLogin | App.tsx:223-260 | sends one sign-in and performs LoginOutcome in place |
| ClientController.App.FinishSignup | App.tsx:318-351 | performs SignupFinished in place |
| ClientController.App.ApplySignupReply | App.tsx:300-357 | performs SignupReplied in place |
| ClientController.App.SubmitSignup | App.tsx:285-357 | performs SignupSubmitted in place |
| ClientController.App.HandleSignup | App.tsx:262-358 | performs SignupOutcome in place, including the device-id write |
| ClientController.App.ResetAll | App.tsx:558-571 | performs InputsReset in place |
| ClientController.App.HandleLogout | App.tsx:381-391 | sends one sign-out and performs LogoutOutcome in place |
| ClientController.App.SubmitUpgrade | App.tsx:450-526 | performs UpgradeSubmitted in place |
| ClientController.App.ExpireSession | App.tsx:405-412 | performs SessionExpired in place |
| ClientController.App.HandleUpgrade | App.tsx:393-527 | performs UpgradeOutcome in place |
| ClientController.App.CountAccountResult | App.tsx:666-695 | performs AccountCounted in place |
| ClientController.App.CountPreviewResult | App.tsx:697-728 | performs PreviewCounted in place, including the device-id write and, on refusal, the signup prompt |
| ClientController.App.ShowResult | App.tsx:731-746 | performs ResultShown in place |
| ClientController.App.HandleGetResults | App.tsx:664-751 | performs GetResultsOutcome in place |

## Left out

- The price itself. `calculateBaseline` (floating-point multipliers and rounding) is not part of this model. The result a click shows is an opaque `Quote` parameter.
- `generateDeviceFingerprint` reads canvas, navigator, screen and `Intl` values. These browser values are the `environment` code units the hash is applied to.
- Supabase auth (`createUser`, `getUserById`, `signInWithPassword`, `getSession`, `refreshSession`, `updateUser`, `signOut`) is represented by its answers as parameters or by `Call` values. The JWT payload's base64/JSON decoding is the `decodeSubject` parameter.
- The auth metadata itself is not tracked. The client's `updateUser` calls are recorded but their effect on the session is not.
- `Date.now()`, `new Date().toISOString()` and `Math.random()` are parameters. Each handler sees one `now`.
- HTTP framing, CORS, the logger and the key-value store's asynchrony are not modelled. The key-value store is three maps.
- The routes `health`, `test-auth`, `GET user` and `verify-recaptcha`, and the unused in-memory `deviceUsage` map, are not part of this model.
- The 500 answers of the service's `catch` blocks are not modelled. Every modelled operation is total.
- Console logging, timers, modal open/close animations, toasts' timing, forgot-password and the other UI handlers are not part of this model.
- Races between concurrent asynchronous handlers are not modelled. Each handler runs to completion before the next.
- The React state hooks are one `View` record. Several setters applied within one handler are one update.
- Custom multipliers and `lastCalculatedState` are an `Option<Inputs>` value, not JSON text.
- The `!activeSession` branch of handleUpgrade (`App.tsx` 429-436) cannot be reached after the session check and is not modelled.
- ParseIntRoundTrip: JavaScript numbers are doubles; the round trip is proved for unbounded integers. From 10^21 upwards `toString()` writes exponent notation, which parseInt reads back as a different number, and above 2^53 integers are not exact. Neither is modelled.
- PreviewSurvivesReload: rests on the integer round trip, so a stored counter of 10^21 or more, which would read back wrong in a browser, is not covered.
- CounterSurvivesReload: the same gap as PreviewSurvivesReload for counters of 10^21 or more.
- ClientController.Number: the preview counter is an unbounded integer or NaN; double rounding of `+ 1` above 2^53 and exponent notation are not modelled.
- ClientController.UserInfoOf: `name || email.split('@')[0]` is modelled for a defined e-mail. The undefined-e-mail case is not modelled.
- ClientController.WithFullAccess: spreading a null `userInfo` is modelled as an empty user with full access.
- ClientController.InputsReset: the "Advanced options reset to defaults" toast, which the "All inputs reset" toast replaces at once, is not modelled.
- ClientController.LoginOutcome: a `signInWithPassword` answer with neither an error nor a user is not modelled.
- ClientController.SignupSubmitted: an accepted reply without a user leaves the spinner on, as the code does.
- ClientController.Clicks: repeated clicks keep the quote, the time and the random draw fixed.
- The `deviceFingerprint` field of the signup request (`App.tsx` 296) is not part of the `SignupCall` value, because the service's signup handler (`supabase/functions/server/index.tsx` 122) never reads it.
- EntitlementServer.Server.Signup: `hasFullAccess` is the boolean the falsy empty-key value stands for.
- EntitlementServer.Server.Signup: like the code, it overwrites any existing `user:<id>` record with 0 calculations; that no counter goes down is proved only for an id with no record yet.
