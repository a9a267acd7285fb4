# UPWK-Puppeteer login automation, modelled in Dafny

The repository drives one site's login page with Puppeteer. It restores a saved session, or else
it types the email and the password, chooses between the site's two password pages, submits, and
then runs a fixed post-login sequence that saves the session. This project models the parts of
that flow that carry rules. It replaces the browser page by an oracle: every call that the source
awaits becomes an answer passed in, either a value or the exception it threw
(`Errors.Result<T> = Ok(value) | Threw(thrown)`).

- A retry loop gets one answer per attempt (`nat -> Answer`).
- A wall-clock polling loop gets the sequence of polls its timeout leaves room for.
- The disk is an abstract map from path to saved content (`Storage.FileSystem`).
- The page's cookie jar and local storage are fields of `Browser.Page`.
- The three progress flags are the fields of `LoginState.LoginStateService`.

Each file of the source that keeps state is modelled by a `class` with `modifies` clauses, and each
loop by a `method` with a `while` or `for` loop. Each method is proved against a specification
function, and the properties the source promises are proved about those functions as lemmas.

- The shared retry pattern of `handleButton`, `handleInput` and `handleInputField` is specified once,
  by `Retry.Run`.
- `AuthFlow.TryLogin` and `AuthFlow.PerformLoginRun` specify `performLogin`. They return the
  result, the trace of steps it ran (`Browser.Step`) and the flags it leaves.

Modules follow the source files:

| module | source file |
|---|---|
| Validation | src/services/validation.service.ts |
| LoginState | src/services/login-state.service.ts |
| LoginCheck | src/services/login-check.service.ts |
| ButtonHandler | src/handlers/button.handler.ts |
| InputHandler | src/handlers/input.handler.ts |
| InputVerification | src/utils/inputVerification.ts |
| Input | src/utils/input.ts |
| InputUtils | src/handlers/shared/input-utils.ts |
| LoadAuth | src/services/load-auth.service.ts |
| SaveAuth | src/services/save-auth.service.ts |
| PostLogin | src/services/post-login-handler.service.ts |
| AuthFlow | src/services/auth-flow.service.ts |
| Logger | src/utils/logger.ts |
| Errors | src/utils/errors.ts |
| Storage | src/services/storage.service.ts |
| Config | src/config/index.ts |

Helper modules:

- `Optional`: an option type.
- `Text`: `startsWith`, `includes`, `join`, decimal rendering and ASCII case mapping.
- `Browser`: cookies, local storage, value probes, keystrokes and trace steps.
- `Retry`: the shared retry specification.

Where the code and its description disagree, the model follows the code:

- `saveAuthData` skips a local-storage entry whose key is empty as well as one whose value is
  empty, because it tests `if (key)` before `if (value)`.
- The validation service throws `ValidationError`, which src/utils/errors.ts does not define.
  It is modelled as a plain `Error` subclass named `ValidationError` with no message prefix.
- `performLogin`'s "Login verification failed" error is written in the source, but it cannot be
  raised. The flags are always set just before they are read. `AuthFlow.SubmitOnlyAfterPassword`
  proves this.

## Model

| member | source | states |
|---|---|---|
| Errors.NewError | src/utils/errors.ts:1-37 | an error of each class carries its class name as `name`, and its message is the category prefix followed by the given message |
| Errors.HandleError | src/utils/errors.ts:39-54 | never returns normally; rethrows any Error value unchanged and turns any other value into Error('An unknown error occurred') |
| Errors.AssertNonNull | src/utils/errors.ts:56-61 | returns the value unchanged exactly when it is neither null nor undefined, otherwise throws a plain Error carrying the message |
| Logger.FormatMessage | src/utils/logger.ts:19-37 | strings pass unchanged; an Error gives its message plus "\nStack: " and the stack only when the stack is present and non-empty (the source's truthiness test); JSON text longer than 500 characters is cut to its first 500 characters plus "... [truncated]", so the output is at most 515 characters; a value that cannot be serialised gives String(value) |
| Logger.LevelTags | src/utils/logger.ts:42 | every level's tag is one of INFO, ERROR and WARN, and different levels get different tags |
| Logger.LogLineShape | src/utils/logger.ts:39-44 | a log line starts with "[timestamp] [LEVEL] ", ends with a newline, and holds the formatted message whole in between |
| Logger.Logger.Log | src/utils/logger.ts:39-44 | appends exactly one formatted line to the stream |
| Logger.Logger.Error | src/utils/logger.ts:46-48 | appends the line of level error |
| Logger.Logger.Warn | src/utils/logger.ts:50-52 | appends the line of level warn |
| Logger.Logger.Info | src/utils/logger.ts:54-56 | appends the line of level info |
| Storage.FileSystem.SaveToFile | src/services/storage.service.ts:12-21 | returns true and replaces the file when the write succeeds; returns false and leaves the disk as it was when it fails |
| Storage.FileSystem.LoadFromFile | src/services/storage.service.ts:23-32 | yields the saved content exactly when the file exists and parses, and null otherwise |
| Browser.SetCookie | src/services/load-auth.service.ts:42 | a set cookie replaces any cookie with the same name, domain and path, and every other cookie stays |
| Browser.SetCookiesNames | src/services/load-auth.service.ts:42 | after the saved cookies are set, the jar has a cookie of every name it had before and of every name set, and of no other name |
| Browser.SetCookiesSplit | src/services/load-auth.service.ts:42 | setting cookies keeps, in order, the old cookies whose name, domain and path no set cookie shares, followed by what setting them on an empty jar gives |
| Browser.SetCookiesIdempotent | src/services/load-auth.service.ts:42 | setting the same cookies a second time leaves the jar exactly as the first time did |
| Browser.Page.SetCookie | src/services/load-auth.service.ts:42 | the jar becomes the old jar with the cookies set in order, and local storage is untouched |
| Browser.Page.ClearLocalStorage | src/services/load-auth.service.ts:46 | empties local storage and keeps the cookies |
| Browser.Page.SetItem | src/services/load-auth.service.ts:48 | stores one entry, and nothing else changes |
| LoginState.LoginStateService.constructor | src/services/login-state.service.ts:2-6 | a fresh service has all three flags false |
| LoginState.LoginStateService.SetEmailVerified | src/services/login-state.service.ts:20-22 | the getter returns the value set, and the other two flags keep theirs |
| LoginState.LoginStateService.SetPasswordFieldReady | src/services/login-state.service.ts:24-26 | the getter returns the value set, and the other two flags keep theirs |
| LoginState.LoginStateService.SetPasswordEntered | src/services/login-state.service.ts:28-30 | the getter returns the value set, and the other two flags keep theirs |
| LoginState.LoginStateService.Reset | src/services/login-state.service.ts:32-38 | all three flags become false, whatever they were |
| Text.IncludesIff | src/services/login-check.service.ts:64 | the sliding `includes` search is true exactly when the substring occurs at some position |
| LoginCheck.IsLoggedIn | src/services/login-check.service.ts:10-108 | both profile markers give true even beside a login form; otherwise a login form or button gives false; otherwise true exactly on the protected path with cookies, local storage and a sidebar-links or connects marker; a thrown evaluation gives false |
| Validation.IsValidEmailIff | src/services/validation.service.ts:189-195 | the split-based email test accepts exactly the strings that `^[^\s@]+@[^\s@]+\.[^\s@]+$` matches |
| Validation.TrimEmptyIff | src/services/validation.service.ts:209 | a string trims to nothing exactly when all its characters are JavaScript white space |
| Validation.ValidateInput | src/services/validation.service.ts:176-217 | an empty value is rejected with "<type> is required" before any other check; an email must match the pattern or fails with "Invalid email format"; a non-empty password is never rejected; a security answer of white space only fails with "Security answer cannot be empty"; every path that does not throw returns true |
| Validation.IndexOf | src/services/validation.service.ts:190 | finds the first occurrence of a character, or reports that there is none |
| Validation.PollStop | src/services/validation.service.ts:78-114 | the polling stops at the first poll that is not a present field holding another value |
| Validation.LastSeen | src/services/validation.service.ts:116-126 | the last value kept is the value read by the last poll before the stop |
| Validation.VerifyOutcome | src/services/validation.service.ts:19-168 | verification never returns false |
| Validation.VerifySucceedsIff | src/services/validation.service.ts:102-114 | verification returns true exactly when some poll reads the expected value and every earlier poll read another value |
| Validation.VerifyMissingField | src/services/validation.service.ts:74-104 | a field missing at the start throws "Input element not found during verification", and a field gone at the stopping poll throws "Input element disappeared during verification" |
| Validation.PollStopAll | src/services/validation.service.ts:78-129 | when every poll reads another value, polling runs through all of them |
| Validation.VerifyTimesOut | src/services/validation.service.ts:165-167 | when no poll matches, the timeout error reports the length of the last value seen and the expected length |
| Validation.VerifyInputValue | src/services/validation.service.ts:19-168 | the polling loop returns what the verification outcome prescribes for its polls |
| Retry.RunFromCharacterized | src/utils/inputVerification.ts:29-130 | from any point of the loop, each way it ends (success, escape, failure on the last attempt, exhaustion) is characterised by the attempts it makes, and the count never exceeds the cap |
| Retry.RunCharacterized | src/handlers/button.handler.ts:37-123 | a loop allowed `max` attempts makes at most `max`; it succeeds or is aborted at attempt n exactly when n is the first attempt that does not let it go on; otherwise it ends after exactly `max` attempts |
| ButtonHandler.ButtonDefaults | src/handlers/button.handler.ts:20-25 | without options both delays are SHORT and neither flag is set; a given option is kept |
| ButtonHandler.ClickOutcome | src/handlers/button.handler.ts:85-92 | a plain click is the click alone; a click paired with a navigation wait succeeds exactly when both do |
| ButtonHandler.FirstFailure | src/handlers/button.handler.ts:43-108 | the steps of an attempt succeed exactly when each does, and otherwise the first failing step's exception is what the attempt reports |
| ButtonHandler.ButtonStep | src/handlers/button.handler.ts:42-108 | an attempt succeeds exactly when the button is found and every step including the click succeeds; a null button fails with InputError "Button element not found" |
| ButtonHandler.NavigationOnlyPairsTheClick | src/handlers/button.handler.ts:85-92 | the navigation flag only decides whether the click waits for a navigation: without it the navigation is never consulted, and a successful navigation changes nothing |
| ButtonHandler.HandleButton | src/handlers/button.handler.ts:15-124 | the loop's result and attempt count are those of the shared retry specification under a cap of 3 |
| ButtonHandler.ButtonOutcome | src/handlers/button.handler.ts:37-123 | true exactly when some attempt n <= 3 succeeds after n - 1 failures, with no attempt after it; otherwise all three fail and it throws "Button interaction failed after 3 attempts: <cause of the third>"; the trailing throw is never reached |
| Input.WaitStop | src/utils/input.ts:28-44 | polling stops at the first poll that throws or reads the expected value |
| Input.WaitSucceedsIff | src/utils/input.ts:28-46 | the wait returns true exactly at a first poll reading the expected value; a missing element reads as "" and so matches an expected ""; it returns false exactly when every poll reads another value |
| Input.ChangesDiffer | src/utils/input.ts:38-41 | the reported value changes are values the polls read, each differing from the one before it |
| Input.WaitForInputValue | src/utils/input.ts:19-47 | the polling loop returns the wait's outcome and reports a change only when the polled value differs from the last kept value |
| Input.PauseAfter | src/utils/input.ts:59-63 | the longer pause follows '@' or '.' only, and only when the text is not a password |
| Input.TypeWithNaturalSpeed | src/utils/input.ts:49-68 | each character of the text is typed exactly once, in order, with the pause its character calls for, then the settle pause |
| InputUtils.KeyDelay | src/handlers/shared/input-utils.ts:57-60 | the special characters get the SPECIAL_CHAR range and every other character gets NORMAL_CHAR |
| InputUtils.TypeNaturally | src/handlers/shared/input-utils.ts:44-66 | each character of the text is typed exactly once, in order, with its own delay range, then a MEDIUM pause |
| InputUtils.FirstUniqueDataAttribute | src/handlers/shared/input-utils.ts:87-95 | only "data-" attributes are tried, in attribute order; the first unique one wins, and none is returned exactly when none is unique |
| InputUtils.GenerateUniqueSelector | src/handlers/shared/input-utils.ts:71-108 | an id gives "#id" without a uniqueness check; otherwise any selector returned matches exactly one element; the class selector wins when unique; the result is null exactly when the class, data-attribute and nth-child candidates all fail |
| InputUtils.DataCandidateOrigin | src/handlers/shared/input-utils.ts:86-95 | when no id and no unique class selector exists, a data-attribute result is the selector of an attribute named "data-..." |
| InputHandler.InputDefaults | src/handlers/input.handler.ts:21-25 | without options the text is not a password and both delays are SHORT |
| InputHandler.InputTry | src/handlers/input.handler.ts:44-172 | an attempt is true exactly when the field is ready and the typed value verifies and commits, or the fallback value verifies; it is false exactly when both verifications fail; a null field or a non-interactable field throws its InputError |
| InputHandler.RunInputAttempt | src/handlers/input.handler.ts:44-204 | one attempt, running both verification loops, has the outcome the attempt specification prescribes |
| InputHandler.HandleInput | src/handlers/input.handler.ts:15-208 | the loop's result and attempt count are those of the shared retry specification under a cap of 3 |
| InputHandler.InputOutcome | src/handlers/input.handler.ts:39-207 | never returns false; makes at most 3 attempts; true after attempt n exactly when that attempt verifies and no earlier one did; three failures end in "Input handling failed after 3 attempts", with the third attempt's cause when it threw |
| InputHandler.FillStop | src/handlers/input.handler.ts:221-235 | fields are handled in order, up to and including the first that throws |
| InputHandler.FillOutcome | src/handlers/input.handler.ts:221-237 | true exactly when every field succeeds, the empty form included; otherwise the InputError names the selector of the first failing field and its cause |
| InputHandler.FillForm | src/handlers/input.handler.ts:210-238 | the loop returns the form's outcome and handles no field after the first failure |
| InputVerification.FieldDefaults | src/utils/inputVerification.ts:22-27 | without options: pre-type [800, 1500], post-type [1000, 2000], 3 attempts, not a password |
| InputVerification.FieldStep | src/utils/inputVerification.ts:31-127 | an attempt succeeds exactly when the polled value appears, or when the value read back after the fallback equals it; no exception escapes the attempt |
| InputVerification.RunFieldAttempt | src/utils/inputVerification.ts:31-127 | one attempt, running the polling loop, has the outcome the attempt specification prescribes |
| InputVerification.HandleInputField | src/utils/inputVerification.ts:16-131 | the loop's result and attempt count are those of the shared retry specification under the caller's cap |
| InputVerification.FieldOutcome | src/utils/inputVerification.ts:29-130 | a cap of 0 or less makes no attempt and fails with "Failed to verify input after N attempts"; never false and never an escaped exception; true after attempt n exactly when it succeeds and the earlier ones failed; otherwise exactly `maxAttempts` attempts, and an exception on the last one gives "Failed to handle input after N attempts: <cause>" |
| InputVerification.WrappersForcePasswordFlag | src/utils/inputVerification.ts:133-155 | the email wrapper forces the password flag false and the password wrapper forces it true, and every other option is kept |
| InputVerification.HandleEmailInput | src/utils/inputVerification.ts:133-143 | the wrapper ends as `handleInputField` does under the caller's attempt cap |
| InputVerification.HandlePasswordInput | src/utils/inputVerification.ts:145-155 | the wrapper ends as `handleInputField` does under the caller's attempt cap |
| SaveAuth.Persistable | src/services/save-auth.service.ts:23-35 | the snapshot keeps exactly the entries whose key and value are non-empty, with their values |
| SaveAuth.SnapshotLocalStorage | src/services/save-auth.service.ts:23-35 | the key walk builds exactly the persistable entries |
| SaveAuth.SaveOutcome | src/services/save-auth.service.ts:11-72 | true exactly when both reads and both writes succeed; never false; a failed write gives "Failed to save authentication data"; every error leaves as an AuthenticationError |
| SaveAuth.SavedFiles | src/services/save-auth.service.ts:44-45 | both writes are attempted, the second even when the first failed; each write that succeeds replaces its file, and no other path appears or disappears |
| SaveAuth.SavedFilesFrame | src/services/save-auth.service.ts:44-45 | a failed write leaves its file's presence and content as they were, and every other path keeps its content |
| SaveAuth.SaveAuthData | src/services/save-auth.service.ts:11-72 | returns the save outcome, and the disk becomes the saved files |
| LoadAuth.MissingCritical | src/services/load-auth.service.ts:68-71 | the missing names are exactly the critical names that no cookie carries |
| LoadAuth.LoadOutcomeCharacterized | src/services/load-auth.service.ts:16-110 | a missing stored item gives false; true exactly when both items load, every step succeeds, local storage takes every key, and `page.cookies()` returns a cookie of every critical name; every exception leaves as an AuthenticationError |
| LoadAuth.LoadNeedsCriticalCookies | src/services/load-auth.service.ts:42-84 | when the browser invents no cookie, a true load needs every critical name in the old jar or the saved cookies, even if it drops expired or out-of-scope ones; when it returns the whole jar, that with the other steps is also enough |
| LoadAuth.RestoreLocalStorage | src/services/load-auth.service.ts:44-54 | succeeds exactly when `clear()` does not throw and no saved key is refused, and then local storage equals the saved map; a throwing `clear()` leaves local storage untouched; on a refused key it holds only saved entries, not all of them; cookies are untouched |
| LoadAuth.LoadAuthData | src/services/load-auth.service.ts:16-110 | returns the load outcome; a missing stored item or a throwing `setCookie` leaves the page untouched; otherwise the jar is the saved cookies set over the old jar on every later path; local storage is untouched when the evaluation or `clear()` throws, and equals the saved map when every key is stored; on success the cookies read back carry every critical name, and when the browser invents no cookie the jar carries them too |
| LoadAuth.LoadTwice | src/services/load-auth.service.ts:42-84 | a second restore from the same files sets the jar to exactly what the first left, so a browser that returns the whole jar gives the second read-back the same answer as the first |
| LoadAuth.SaveThenLoad | src/services/load-auth.service.ts:42-84 | after a successful save, both items load and the cookie file holds the page's cookies; a true load needs local storage to take every key of the original map minus its empty entries and every critical name in the old jar or the saved cookies; when the browser returns the whole jar, those conditions are also enough |
| PostLogin.PostLoginStepsInOrder | src/services/post-login-handler.service.ts:23-59 | the steps run are a prefix of the fixed order: consent, security question, modal, popovers, dashboard, login check, save, screenshot |
| PostLogin.PostLoginRules | src/services/post-login-handler.service.ts:59-68 | the session is saved exactly when the login check passes; the screenshot follows only a successful save; true means every step ran; a failed check returns false without saving |
| PostLogin.BestEffortStepsSwallowed | src/services/post-login-handler.service.ts:26-49 | failures of the security question, the modal and the popovers change neither the steps run nor the result |
| PostLogin.PostLoginHandlerService.HandlePostLoginFlow | src/services/post-login-handler.service.ts:20-73 | never throws; returns the flow's outcome and steps; the disk changes only through the save, and only when the save step ran |
| AuthFlow.StoredLoginRules | src/services/auth-flow.service.ts:28-50 | a load that does not return true gives false without navigating; a missing stored item ends after the load; true needs both items, a read-back carrying every critical name (each in the old jar or the saved file when the browser invents none) and a passing login check |
| AuthFlow.AlreadyLoggedIn | src/services/auth-flow.service.ts:62-70 | a session already logged in returns true after the dashboard check, without entering any credentials |
| AuthFlow.EmailNeverFalse | src/services/auth-flow.service.ts:80-85 | the email step never returns false |
| AuthFlow.SubmitStageFacts | src/services/auth-flow.service.ts:133-144 | the submit happens exactly when the password was entered; a run ends without an exception only when the submit succeeded, and then with the post-login result |
| AuthFlow.PasswordStageFacts | src/services/auth-flow.service.ts:112-131 | from a ready field the password is typed, and the checkbox and the submit follow only a successful password |
| AuthFlow.ContinuePathFacts | src/services/auth-flow.service.ts:91-105 | the continue-button page clicks the button, waits for the password field and keeps the submit order |
| AuthFlow.ChoosePathFacts | src/services/auth-flow.service.ts:91-110 | the continue button is clicked exactly when it exists and the email is verified; otherwise an existing password field is used; with neither, it fails with "Neither continue button nor password input field found" |
| AuthFlow.EmailStageFacts | src/services/auth-flow.service.ts:79-110 | the email flag is set exactly when the email step succeeds, and no flag changes otherwise |
| AuthFlow.EmailVerifiedAfterEmail | src/services/auth-flow.service.ts:80-85 | over the whole `try` block, the email flag is set only after the email step succeeded, and no flag changes before it |
| AuthFlow.PasswordPathChoice | src/services/auth-flow.service.ts:91-110 | after the email, the continue-button page is taken exactly when its button exists; otherwise the password page when its field exists; otherwise the "Neither ..." error; a continue button that does not reveal the field gives "Password input field did not appear after clicking continue button" |
| AuthFlow.SubmitOnlyAfterPassword | src/services/auth-flow.service.ts:113-144 | the password is typed only into a ready field and the submit only follows an entered password; every run that reaches the checkbox submits, so "Login verification failed" is never raised |
| AuthFlow.FailuresWrapped | src/services/auth-flow.service.ts:145-179 | a failure of the `try` block becomes AuthenticationError "Login flow failed: <cause>" unless the error screenshot or page read throws first; the flags are those the `try` block left |
| AuthFlow.LoginSucceedsIff | src/services/auth-flow.service.ts:52-180 | true exactly when the session was already logged in, or the submit succeeded and the post-login flow returned true; false exactly when the post-login flow returned false |
| AuthFlow.AuthFlowService.constructor | src/services/auth-flow.service.ts:20-26 | a new service has fresh login state with every flag false, and a post-login handler on the same page and disk |
| AuthFlow.AuthFlowService.AttemptStoredLogin | src/services/auth-flow.service.ts:28-50 | never throws; returns the stored-login outcome and steps; a missing stored item or a throwing `setCookie` leaves the page untouched, otherwise the jar is the saved cookies set over the old jar; on true, local storage equals the saved map |
| AuthFlow.AuthFlowService.TryPerformLogin | src/services/auth-flow.service.ts:60-77 | the `try` block's result, steps and flags are those the login specification prescribes, and the disk changes only through the post-login save |
| AuthFlow.AuthFlowService.EnterEmailAndPassword | src/services/auth-flow.service.ts:79-110 | the email stage's result, steps and flags are those of its specification, and the disk changes only through the post-login save |
| AuthFlow.AuthFlowService.ChoosePasswordPage | src/services/auth-flow.service.ts:88-110 | the choice of password page has the result, steps and flags of its specification, and the disk changes only through the post-login save |
| AuthFlow.AuthFlowService.EnterPasswordAndSubmit | src/services/auth-flow.service.ts:112-131 | the password stage has the result, steps and flags of its specification, and the disk changes only through the post-login save |
| AuthFlow.AuthFlowService.SubmitLogin | src/services/auth-flow.service.ts:133-144 | the submit stage has the result and steps of its specification, and the disk changes only through the post-login save |
| AuthFlow.AuthFlowService.PerformLogin | src/services/auth-flow.service.ts:52-180 | `performLogin`'s result, steps and flags, `catch` block included, are those of the login specification, and the disk changes only through the post-login save |

## Left out

- Browser I/O is modelled by its answers: page evaluations, `waitForSelector`, clicks,
  navigation, screenshots and their content, the browser service, and the cookies
  `page.cookies()` returns during the load. The cookie jar and local storage are page state
  (`Browser.Page`).
- `Browser.Page.SetCookie`: cookies carry no expiry, and the jar keeps every cookie set. Expiry
  and the page's URL scope show only in the cookies the load reads back, which may leave any out
  (`LoadAuth.ReadFromJar`).
- `SaveAuth.SaveAuthData`: saves the jar as the page holds it. A cookie the browser would leave
  out of `page.cookies()` is still saved.
- Logging calls inside the services are not modelled. Only the logger module itself is.
- Delays and randomness (src/utils/delay.ts) are not modelled. Delay ranges are kept as values,
  and wall-clock timeouts become a bounded sequence of polls.
- Mouse movement and computed-style and visibility checks are not modelled. They rest on float
  bounding-box arithmetic and random step counts.
- The cookie-consent, security-question, profile-modal and popover handlers are modelled only by
  whether each throws. Their decisions depend on in-page style queries.
- The checkbox handler and the element checker are modelled only by their answers: a swallowed
  step and two booleans.
- `PostLogin.PostLoginHandlerService.HandlePostLoginFlow` does not take the security answer. It is
  passed only to the security-question handler, which is not modelled.
- `handleProfileModal` is a one-line wrapper of the modal handler and is folded into its answer.
- Navigation is not modelled as changing the cookie jar or local storage. Cookies set by the site
  during the login are outside the model.
- A key press that throws part-way through typing is folded into the attempt's preparation answer.
  The partially typed text is not modelled.
- `Promise.all` of the click and the navigation wait reports the click's error when both fail.
  The real order of rejections depends on timing.
- `requiresFormValidation` is read but never used by the source, and the model only carries it.
- A stored file of the wrong kind counts as missing, as a null load does. A failed write leaves
  the file unchanged.
- `LoadAuth.RestoreLocalStorage`: does not fix the order in which saved entries are stored, so
  when a key is refused it only states that local storage holds some of the saved entries.
  JavaScript keeps insertion order, which the map does not.
- String lengths count code points, not UTF-16 units. They differ only outside the Basic
  Multilingual Plane.
- Tag names in the nth-child selector are lower-cased for ASCII letters only; JavaScript's
  `toLowerCase` also maps non-ASCII letters, which HTML tag names do not normally contain.
- `InputVerification.HandleInputField`: the attempt cap is an integer. A non-integer
  `maxAttempts`, possible in JavaScript, is not modelled.
- The password checks that are only logged (length, digits, letters) are not modelled, because
  they affect no result.
- `AuthFlow.AuthFlowService.PerformLogin` is split into one method per stage (`TryPerformLogin`,
  `EnterEmailAndPassword`, `ChoosePasswordPage`, `EnterPasswordAndSubmit`, `SubmitLogin`) to keep
  each proof small. Their order of calls is the source's.
- The logger's file stream, its directory creation and `close` are not modelled. The stream is
  the sequence of lines written.
- src/services/auth.service.ts, src/index.ts, the configuration of the browser and everything
  under dist/ are not part of this model.
