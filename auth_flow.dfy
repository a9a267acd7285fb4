/**
 * `AuthFlowService` of src/services/auth-flow.service.ts: the login from stored session data, and
 * the interactive login that enters the email and the password, chooses between the two password
 * pages of the site by the `LoginStateService` flags, submits, and hands over to the post-login flow.
 */
module AuthFlow {
  import opened Optional
  import opened Errors
  import opened Config
  import opened Retry
  import opened Browser
  import opened Storage
  import opened LoginCheck
  import opened LoadAuth
  import opened LoginState
  import opened ButtonHandler
  import opened InputHandler
  import opened SaveAuth
  import opened PostLogin

  /** The options of the two `handleInput` calls and the two `handleButton` calls. */
  const EmailOptions := InputOptions(Some(false), Some(Medium), Some(Medium))
  const PasswordOptions := InputOptions(Some(true), Some(Medium), Some(Medium))
  const ContinueOptions := ButtonOptions(Some(Short), Some(Long), None, None)
  const SubmitOptions := ButtonOptions(Some(Short), Some(Long), Some(true), None)

  /** `attemptStoredLogin`'s page calls: the load, the navigation to the dashboard and the login check's snapshot. */
  datatype StoredLoginAnswers = StoredLoginAnswers(load: LoadAnswers, dashboard: Result<()>, snapshot: Result<Snapshot>)

  /** The steps `attemptStoredLogin` runs: it navigates only after the stored data loaded. */
  function StoredLoginSteps(files: map<string, Content>, ans: StoredLoginAnswers): seq<Step> {
    if LoadOutcome(files, ans.load) != Ok(true) then [LoadStored]
    else if ans.dashboard.Threw? then [LoadStored, OpenDashboard]
    else [LoadStored, OpenDashboard, CheckLogin]
  }

  /** What `attemptStoredLogin` returns; every exception, including one from the load, becomes false. */
  function StoredLoginOutcome(files: map<string, Content>, ans: StoredLoginAnswers): bool {
    LoadOutcome(files, ans.load) == Ok(true) && ans.dashboard.Ok? && IsLoggedIn(ans.snapshot)
  }

  /**
   * When no stored data loads, or the load throws, the stored login returns false without any
   * navigation; it returns true only when both saved items exist, the browser read back every
   * critical cookie (so, when it invents none, each was in the old jar or the saved file), and
   * the login check on the dashboard passes.
   */
  lemma StoredLoginRules(files: map<string, Content>, jar: seq<Cookie>, ans: StoredLoginAnswers)
    ensures LoadOutcome(files, ans.load) != Ok(true) ==>
              !StoredLoginOutcome(files, ans) && OpenDashboard !in StoredLoginSteps(files, ans)
    ensures StoredCookies(files).None? || StoredEntries(files).None? ==>
              StoredLoginSteps(files, ans) == [LoadStored]
    ensures StoredLoginOutcome(files, ans) ==>
              && StoredCookies(files).Some? && StoredEntries(files).Some? && ans.load.readCookies.Ok?
              && (forall n :: n in CriticalCookies ==> n in Names(ans.load.readCookies.value))
              && (ReadFromJar(files, jar, ans.load) ==>
                    forall n :: n in CriticalCookies ==> n in Names(jar) || n in Names(StoredCookies(files).value))
              && IsLoggedIn(ans.snapshot) && CheckLogin in StoredLoginSteps(files, ans)
  {
    LoadOutcomeCharacterized(files, ans.load);
    LoadNeedsCriticalCookies(files, jar, ans.load);
    if StoredLoginOutcome(files, ans) {
      assert StoredLoginSteps(files, ans)[2] == CheckLogin;
    }
  }

  /**
   * `performLogin`'s page calls: the dashboard visit and the login check's snapshot, the login
   * page, the cookie banner, the attempts of the email field, whether the continue button and the
   * password field are found, the attempts of the continue button, the wait for the password field
   * (found, null, or a timeout), the attempts of the password field and of the submit button, the
   * post-login flow, and the error screenshot and page evaluation of the `catch` block.
   */
  datatype LoginAnswers = LoginAnswers(
    dashboard: Result<()>,
    snapshot: Result<Snapshot>,
    loginPage: Result<()>,
    cookieConsent: Result<()>,
    email: nat -> InputAttempt,
    continueButtonExists: bool,
    passwordInputExists: bool,
    continueClick: nat -> ButtonAttempt,
    passwordAppeared: Result<bool>,
    password: nat -> InputAttempt,
    submit: nat -> ButtonAttempt,
    postLogin: PostLoginAnswers,
    errorScreenshot: Result<()>,
    errorReport: Result<()>)

  function EmailResult(email: string, ans: LoginAnswers): Result<bool> {
    InputResult(Run(InputOutcomes(email, ans.email), MaxInputAttempts))
  }

  function PasswordResult(password: string, ans: LoginAnswers): Result<bool> {
    InputResult(Run(InputOutcomes(password, ans.password), MaxInputAttempts))
  }

  function ContinueResult(ans: LoginAnswers): Result<bool> {
    ButtonResult(Run(ButtonOutcomes(ButtonSettingsOf(ContinueOptions), ans.continueClick), MaxButtonAttempts))
  }

  function SubmitResult(ans: LoginAnswers): Result<bool> {
    ButtonResult(Run(ButtonOutcomes(ButtonSettingsOf(SubmitOptions), ans.submit), MaxButtonAttempts))
  }

  /** A run of (part of) the login: its result, the steps it ran and the login-state flags it leaves. */
  datatype LoginRun = LoginRun(result: Result<bool>, steps: seq<Step>, flags: Flags)

  /** `run`, preceded by `steps`. */
  function After(steps: seq<Step>, run: LoginRun): LoginRun {
    run.(steps := steps + run.steps)
  }

  /** The submit (lines 133-144 of the source file). */
  function SubmitStage(ans: LoginAnswers, flags: Flags): LoginRun {
    if flags.passwordEntered then
      var submitted := SubmitResult(ans);
      if submitted.Threw? then LoginRun(submitted, [Submit], flags)
      else LoginRun(Ok(PostLoginOutcome(ans.postLogin)), [Submit] + PostLoginSteps(ans.postLogin), flags)
    else LoginRun(Fail(AuthenticationError, "Login verification failed"), [], flags)
  }

  /** The password and the "keep me logged in" checkbox, whose failures are swallowed (lines 112-131). */
  function PasswordStage(password: string, ans: LoginAnswers, flags: Flags): LoginRun {
    if flags.passwordFieldReady then
      var typed := PasswordResult(password, ans);
      if typed.Threw? then LoginRun(typed, [EnterPassword], flags)
      else After([EnterPassword, KeepLoggedIn], SubmitStage(ans, flags.(passwordEntered := true)))
    else After([KeepLoggedIn], SubmitStage(ans, flags))
  }

  /** The choice between the continue-button page and the password page (lines 91-110). */
  function ChoosePath(password: string, ans: LoginAnswers, flags: Flags): LoginRun {
    if ans.continueButtonExists && flags.emailVerified then
      var clicked := ContinueResult(ans);
      if clicked.Threw? then LoginRun(clicked, [ClickContinue], flags)
      else match ans.passwordAppeared
        case Threw(t) => LoginRun(Threw(t), [ClickContinue, AwaitPasswordInput], flags)
        case Ok(appeared) =>
          if appeared then After([ClickContinue, AwaitPasswordInput], PasswordStage(password, ans, flags.(passwordFieldReady := true)))
          else LoginRun(Fail(AuthenticationError, "Password input field did not appear after clicking continue button"),
                        [ClickContinue, AwaitPasswordInput], flags)
    else if ans.passwordInputExists then PasswordStage(password, ans, flags.(passwordFieldReady := true))
    else LoginRun(Fail(AuthenticationError, "Neither continue button nor password input field found"), [], flags)
  }

  /** The steps before the email, in order. */
  const BeforeEmail := [OpenDashboard, CheckLogin, OpenLogin, CookieConsent]

  /** The email, after which the email flag is set, then the choice of the password page (lines 79-110). */
  function EmailStage(email: string, password: string, ans: LoginAnswers, flags: Flags): LoginRun {
    var entered := EmailResult(email, ans);
    if entered.Threw? then LoginRun(entered, [EnterEmail], flags)
    else After([EnterEmail, CheckContinueButton, CheckPasswordInput], ChoosePath(password, ans, flags.(emailVerified := true)))
  }

  /** The `try` block of `performLogin`, from the flags it starts with. */
  function TryLogin(email: string, password: string, ans: LoginAnswers, flags: Flags): LoginRun {
    if ans.dashboard.Threw? then LoginRun(Threw(ans.dashboard.thrown), [OpenDashboard], flags)
    else if IsLoggedIn(ans.snapshot) then LoginRun(Ok(true), [OpenDashboard, CheckLogin], flags)
    else if ans.loginPage.Threw? then LoginRun(Threw(ans.loginPage.thrown), [OpenDashboard, CheckLogin, OpenLogin], flags)
    else if ans.cookieConsent.Threw? then
      LoginRun(Threw(ans.cookieConsent.thrown), [OpenDashboard, CheckLogin, OpenLogin, CookieConsent], flags)
    else After(BeforeEmail, EmailStage(email, password, ans, flags))
  }

  /**
   * `performLogin`: the `try` block, and its `catch`, which takes the error screenshot, reads the
   * page, and throws an AuthenticationError naming the cause; an exception of the screenshot or the
   * page read leaves unwrapped.
   */
  function PerformLoginRun(email: string, password: string, ans: LoginAnswers, flags: Flags): LoginRun {
    var run := TryLogin(email, password, ans, flags);
    if run.result.Ok? then run
    else if ans.errorScreenshot.Threw? then LoginRun(Threw(ans.errorScreenshot.thrown), run.steps + [ErrorScreenshot], run.flags)
    else if ans.errorReport.Threw? then LoginRun(Threw(ans.errorReport.thrown), run.steps + [ErrorScreenshot, ErrorReport], run.flags)
    else LoginRun(Fail(AuthenticationError, "Login flow failed: " + Cause(run.result.thrown)),
                  run.steps + [ErrorScreenshot, ErrorReport], run.flags)
  }

  /** The `try` block gets past the login check to the login page and the cookie banner. */
  predicate ReachesEmail(ans: LoginAnswers) {
    ans.dashboard.Ok? && !IsLoggedIn(ans.snapshot) && ans.loginPage.Ok? && ans.cookieConsent.Ok?
  }

  /** A session that is already logged in returns true at once, without entering any credentials. */
  lemma AlreadyLoggedIn(email: string, password: string, ans: LoginAnswers, flags: Flags)
    requires ans.dashboard.Ok? && IsLoggedIn(ans.snapshot)
    ensures var run := PerformLoginRun(email, password, ans, flags);
            && run == LoginRun(Ok(true), [OpenDashboard, CheckLogin], flags)
            && EnterEmail !in run.steps && EnterPassword !in run.steps
  {
  }

  /** `handleInput` never returns false, so a successful email step returned true. */
  lemma EmailNeverFalse(email: string, ans: LoginAnswers)
    ensures EmailResult(email, ans) != Ok(false)
  {
    InputOutcome(email, ans.email, 0);
  }

  /**
   * The order a run keeps: the password is typed only into a ready field; the checkbox is reached
   * only after the password was entered, and the submit follows it; and a run ends without an
   * exception only once the submit succeeded, with the post-login flow's result.
   */
  predicate SubmitsInOrder(password: string, ans: LoginAnswers, run: LoginRun) {
    && (EnterPassword in run.steps ==> run.flags.passwordFieldReady)
    && (KeepLoggedIn in run.steps ==> run.flags.passwordEntered && PasswordResult(password, ans).Ok? && EnterPassword in run.steps)
    && (Submit in run.steps <==> KeepLoggedIn in run.steps)
    && (run.result.Ok? <==> Submit in run.steps && SubmitResult(ans).Ok?)
    && (run.result.Ok? ==> run.result.value == PostLoginOutcome(ans.postLogin))
  }

  /** Steps before a run that type no password and press nothing keep its order. */
  lemma AfterKeepsOrder(password: string, ans: LoginAnswers, steps: seq<Step>, run: LoginRun)
    requires EnterPassword !in steps && KeepLoggedIn !in steps && Submit !in steps
    requires SubmitsInOrder(password, ans, run)
    ensures SubmitsInOrder(password, ans, After(steps, run))
  {
  }

  /** The submit stage keeps the flags, and submits exactly when the password was entered. */
  lemma SubmitStageFacts(ans: LoginAnswers, flags: Flags)
    ensures var run := SubmitStage(ans, flags);
            && run.flags == flags
            && (Submit in run.steps <==> flags.passwordEntered)
            && EnterPassword !in run.steps && ClickContinue !in run.steps && KeepLoggedIn !in run.steps
            && (run.result.Ok? <==> Submit in run.steps && SubmitResult(ans).Ok?)
            && (run.result.Ok? ==> run.result.value == PostLoginOutcome(ans.postLogin))
  {
    var run := SubmitStage(ans, flags);
    if flags.passwordEntered && SubmitResult(ans).Ok? {
      PostLoginStepsInOrder(ans.postLogin);
      assert run.steps == [Submit] + PostLoginSteps(ans.postLogin);
      assert run.steps[0] == Submit;
    } else if flags.passwordEntered {
      assert run.steps == [Submit] && run.result.Threw?;
    } else {
      assert run.steps == [] && run.result.Threw?;
    }
  }

  /** From a ready password field, the password stage types the password and keeps the order. */
  lemma PasswordStageFacts(password: string, ans: LoginAnswers, flags: Flags)
    requires flags.passwordFieldReady
    ensures var run := PasswordStage(password, ans, flags);
            && run.flags.passwordFieldReady && run.flags.emailVerified == flags.emailVerified
            && EnterPassword in run.steps && ClickContinue !in run.steps
            && SubmitsInOrder(password, ans, run)
  {
    var run := PasswordStage(password, ans, flags);
    assert run.steps[0] == EnterPassword;
    if PasswordResult(password, ans).Ok? {
      SubmitStageFacts(ans, flags.(passwordEntered := true));
      assert run.steps[1] == KeepLoggedIn;
    }
  }

  /** The continue-button page: the click, the wait for the password field, then the password stage. */
  lemma ContinuePathFacts(password: string, ans: LoginAnswers, flags: Flags)
    requires ans.continueButtonExists && flags.emailVerified
    ensures var run := ChoosePath(password, ans, flags);
            && run.flags.emailVerified && ClickContinue in run.steps
            && SubmitsInOrder(password, ans, run)
  {
    var run := ChoosePath(password, ans, flags);
    var clicked := ContinueResult(ans);
    if clicked.Threw? {
      assert run.steps == [ClickContinue];
    } else if ans.passwordAppeared != Ok(true) {
      assert run.steps == [ClickContinue, AwaitPasswordInput];
    } else {
      var ready := flags.(passwordFieldReady := true);
      PasswordStageFacts(password, ans, ready);
      AfterKeepsOrder(password, ans, [ClickContinue, AwaitPasswordInput], PasswordStage(password, ans, ready));
      assert run == After([ClickContinue, AwaitPasswordInput], PasswordStage(password, ans, ready));
    }
  }

  /**
   * The choice of the password page keeps the email flag and the order; it clicks the continue
   * button exactly when that button was found and the email is verified; and with neither element
   * found it fails at once.
   */
  lemma ChoosePathFacts(password: string, ans: LoginAnswers, flags: Flags)
    ensures var run := ChoosePath(password, ans, flags);
            && run.flags.emailVerified == flags.emailVerified
            && (ClickContinue in run.steps <==> ans.continueButtonExists && flags.emailVerified)
            && SubmitsInOrder(password, ans, run)
            && (!ans.continueButtonExists && ans.passwordInputExists ==> EnterPassword in run.steps)
            && (!ans.continueButtonExists && !ans.passwordInputExists ==>
                  run == LoginRun(Fail(AuthenticationError, "Neither continue button nor password input field found"), [], flags))
  {
    if ans.continueButtonExists && flags.emailVerified {
      ContinuePathFacts(password, ans, flags);
    } else if ans.passwordInputExists {
      PasswordStageFacts(password, ans, flags.(passwordFieldReady := true));
    }
  }

  /** The email stage sets the email flag exactly when the email step succeeds, and keeps the order. */
  lemma EmailStageFacts(email: string, password: string, ans: LoginAnswers, flags: Flags)
    ensures var run := EmailStage(email, password, ans, flags);
            var entered := EmailResult(email, ans);
            && EnterEmail in run.steps
            && (run.flags.emailVerified <==> flags.emailVerified || entered.Ok?)
            && (run.flags != flags ==> entered == Ok(true))
            && (ClickContinue in run.steps <==> entered.Ok? && ans.continueButtonExists)
            && SubmitsInOrder(password, ans, run)
  {
    var run := EmailStage(email, password, ans, flags);
    EmailNeverFalse(email, ans);
    if EmailResult(email, ans).Ok? {
      var verified := flags.(emailVerified := true);
      var chosen := ChoosePath(password, ans, verified);
      ChoosePathFacts(password, ans, verified);
      AfterKeepsOrder(password, ans, [EnterEmail, CheckContinueButton, CheckPasswordInput], chosen);
      assert run == After([EnterEmail, CheckContinueButton, CheckPasswordInput], chosen);
      assert run.steps[0] == EnterEmail;
    } else {
      assert run == LoginRun(EmailResult(email, ans), [EnterEmail], flags);
    }
  }

  /**
   * The email flag is set only once the email step succeeded, and no flag changes before that:
   * a run that ends earlier leaves the login state as it found it (the `catch` block keeps the
   * flags, see FailuresWrapped).
   */
  lemma EmailVerifiedAfterEmail(email: string, password: string, ans: LoginAnswers, flags: Flags)
    ensures var run := TryLogin(email, password, ans, flags);
            && (run.flags.emailVerified <==> flags.emailVerified || (ReachesEmail(ans) && EmailResult(email, ans).Ok?))
            && (run.flags != flags ==> ReachesEmail(ans) && EmailResult(email, ans) == Ok(true) && EnterEmail in run.steps)
  {
    var run := TryLogin(email, password, ans, flags);
    if ReachesEmail(ans) {
      EmailStageFacts(email, password, ans, flags);
      assert run == After(BeforeEmail, EmailStage(email, password, ans, flags));
    } else {
      assert run.flags == flags;
    }
  }

  /**
   * Once the email is entered, the continue-button page is taken exactly when its button was found,
   * the password page when only the password field was found, and neither page means an
   * AuthenticationError; a continue button that does not reveal the password field is one too.
   */
  lemma PasswordPathChoice(email: string, password: string, ans: LoginAnswers, flags: Flags)
    requires ReachesEmail(ans) && EmailResult(email, ans).Ok?
    ensures var run := TryLogin(email, password, ans, flags);
            && (ClickContinue in run.steps <==> ans.continueButtonExists)
            && (!ans.continueButtonExists && ans.passwordInputExists ==> EnterPassword in run.steps)
            && (!ans.continueButtonExists && !ans.passwordInputExists ==>
                  run == LoginRun(Fail(AuthenticationError, "Neither continue button nor password input field found"),
                                  BeforeEmail + [EnterEmail, CheckContinueButton, CheckPasswordInput], flags.(emailVerified := true)))
            && (ans.continueButtonExists && ContinueResult(ans).Ok? && ans.passwordAppeared == Ok(false) ==>
                  run.result == Fail(AuthenticationError, "Password input field did not appear after clicking continue button"))
  {
    var verified := flags.(emailVerified := true);
    var chosen := ChoosePath(password, ans, verified);
    EmailStageFacts(email, password, ans, flags);
    ChoosePathFacts(password, ans, verified);
    if ans.continueButtonExists {
      ContinuePathFacts(password, ans, verified);
    }
    assert TryLogin(email, password, ans, flags) == After(BeforeEmail, EmailStage(email, password, ans, flags));
    assert EmailStage(email, password, ans, flags) == After([EnterEmail, CheckContinueButton, CheckPasswordInput], chosen);
  }

  /**
   * The password is typed only into a ready password field, the submit button is pressed only
   * after the password was entered, and every run that reaches the checkbox has entered the
   * password and submits, so the "Login verification failed" error is never raised.
   */
  lemma SubmitOnlyAfterPassword(email: string, password: string, ans: LoginAnswers, flags: Flags)
    ensures var run := TryLogin(email, password, ans, flags);
            && (EnterPassword in run.steps ==> run.flags.passwordFieldReady)
            && (KeepLoggedIn in run.steps ==>
                  run.flags.passwordEntered && PasswordResult(password, ans).Ok? && EnterPassword in run.steps)
            && (Submit in run.steps <==> KeepLoggedIn in run.steps)
            && (run.result.Ok? <==> (ans.dashboard.Ok? && IsLoggedIn(ans.snapshot)) || (Submit in run.steps && SubmitResult(ans).Ok?))
            && (run.result.Ok? && !(ans.dashboard.Ok? && IsLoggedIn(ans.snapshot)) ==> run.result.value == PostLoginOutcome(ans.postLogin))
  {
    if ReachesEmail(ans) {
      EmailStageFacts(email, password, ans, flags);
      AfterKeepsOrder(password, ans, BeforeEmail, EmailStage(email, password, ans, flags));
    }
  }

  /**
   * A failure of the `try` block leaves as an AuthenticationError "Login flow failed: "
   * followed by its cause, unless the error screenshot or the page read of the `catch` block throws
   * first; the login state is that which the `try` block left.
   */
  lemma FailuresWrapped(email: string, password: string, ans: LoginAnswers, flags: Flags)
    ensures var tried := TryLogin(email, password, ans, flags);
            var run := PerformLoginRun(email, password, ans, flags);
            && run.flags == tried.flags
            && (run.result.Ok? <==> tried.result.Ok?)
            && (run.result.Ok? ==> run == tried)
            && (tried.result.Threw? && ans.errorScreenshot.Ok? && ans.errorReport.Ok? ==>
                  run.result == Fail(AuthenticationError, "Login flow failed: " + Cause(tried.result.thrown)))
            && (run.result.Threw? ==>
                  || ans.errorScreenshot == Threw(run.result.thrown)
                  || ans.errorReport == Threw(run.result.thrown)
                  || (tried.result.Threw? && run.result == Fail(AuthenticationError, "Login flow failed: " + Cause(tried.result.thrown))))
  {
  }

  /**
   * `performLogin` returns true exactly when the session was already logged in, or the submit was
   * pressed without error and the post-login flow returned true; it returns false exactly when the
   * post-login flow did.
   */
  lemma LoginSucceedsIff(email: string, password: string, ans: LoginAnswers, flags: Flags)
    ensures var run := PerformLoginRun(email, password, ans, flags);
            && (run.result == Ok(true) <==>
                  || (ans.dashboard.Ok? && IsLoggedIn(ans.snapshot))
                  || (Submit in run.steps && SubmitResult(ans).Ok? && PostLoginOutcome(ans.postLogin)))
            && (run.result == Ok(false) <==> Submit in run.steps && SubmitResult(ans).Ok? && !PostLoginOutcome(ans.postLogin))
  {
    SubmitOnlyAfterPassword(email, password, ans, flags);
  }

  class AuthFlowService {
    const page: Page
    const fs: FileSystem
    const loginState: LoginStateService
    const postLoginHandler: PostLoginHandlerService

    /** The post-login handler works on the same page and disk as the service. */
    predicate Valid() {
      postLoginHandler.page == page && postLoginHandler.fs == fs
    }

    constructor(page: Page, fs: FileSystem)
      ensures this.page == page && this.fs == fs && Valid()
      ensures fresh(loginState) && loginState.state == Cleared
    {
      this.page := page;
      this.fs := fs;
      loginState := new LoginStateService();
      postLoginHandler := new PostLoginHandlerService(page, fs);
    }

    /** `attemptStoredLogin`: it never throws. */
    method AttemptStoredLogin(ans: StoredLoginAnswers) returns (ok: bool, steps: seq<Step>)
      modifies page
      ensures ok == StoredLoginOutcome(fs.files, ans)
      ensures steps == StoredLoginSteps(fs.files, ans)
      ensures ok ==> page.localStorage == StoredEntries(fs.files).value
      ensures StoredCookies(fs.files).None? || StoredEntries(fs.files).None? || ans.load.setCookie.Threw? ==>
                page.cookies == old(page.cookies) && page.localStorage == old(page.localStorage)
      ensures StoredCookies(fs.files).Some? && StoredEntries(fs.files).Some? && ans.load.setCookie.Ok? ==>
                page.cookies == SetCookies(old(page.cookies), StoredCookies(fs.files).value)
    {
      steps := [LoadStored];
      var authLoaded := LoadAuthData(page, fs, ans.load);
      if authLoaded.Threw? {
        return false, steps;
      }
      if !authLoaded.value {
        return false, steps;
      }
      steps := steps + [OpenDashboard];
      if ans.dashboard.Threw? {
        return false, steps;
      }
      steps := steps + [CheckLogin];
      ok := IsLoggedIn(ans.snapshot);
    }

    /** The `try` block of `performLogin`: the check for an existing session, the login page and the cookie banner. */
    method TryPerformLogin(email: string, password: string, ans: LoginAnswers) returns (r: Result<bool>, steps: seq<Step>)
      requires Valid()
      modifies loginState, fs
      ensures var run := TryLogin(email, password, ans, old(loginState.state));
              r == run.result && steps == run.steps && loginState.state == run.flags
      ensures SaveSession !in steps ==> fs.files == old(fs.files)
      ensures SaveSession in steps ==> fs.files == SavedFiles(old(fs.files), page.cookies, page.localStorage, ans.postLogin.save)
    {
      steps := [OpenDashboard];
      if ans.dashboard.Threw? {
        return Threw(ans.dashboard.thrown), steps;
      }
      steps := steps + [CheckLogin];
      if IsLoggedIn(ans.snapshot) {
        return Ok(true), steps;
      }
      steps := steps + [OpenLogin];
      if ans.loginPage.Threw? {
        return Threw(ans.loginPage.thrown), steps;
      }
      steps := steps + [CookieConsent];
      if ans.cookieConsent.Threw? {
        return Threw(ans.cookieConsent.thrown), steps;
      }
      assert steps == BeforeEmail;
      var rest;
      r, rest := EnterEmailAndPassword(email, password, ans);
      steps := steps + rest;
    }

    /** Lines 79-110 of `performLogin`: the email, the email flag, and the password page. */
    method EnterEmailAndPassword(email: string, password: string, ans: LoginAnswers) returns (r: Result<bool>, steps: seq<Step>)
      requires Valid()
      modifies loginState, fs
      ensures var run := EmailStage(email, password, ans, old(loginState.state));
              r == run.result && steps == run.steps && loginState.state == run.flags
      ensures SaveSession !in steps ==> fs.files == old(fs.files)
      ensures SaveSession in steps ==> fs.files == SavedFiles(old(fs.files), page.cookies, page.localStorage, ans.postLogin.save)
    {
      steps := [EnterEmail];
      var entered, emailAttempts := HandleInput(email, EmailOptions, ans.email);
      if entered.Threw? {
        return entered, steps;
      }
      loginState.SetEmailVerified(true);
      steps := steps + [CheckContinueButton, CheckPasswordInput];
      var rest;
      r, rest := ChoosePasswordPage(password, ans);
      steps := steps + rest;
    }

    /** Lines 88-110 of `performLogin`: the password page, reached by the continue button or directly. */
    method ChoosePasswordPage(password: string, ans: LoginAnswers) returns (r: Result<bool>, steps: seq<Step>)
      requires Valid()
      modifies loginState, fs
      ensures var run := ChoosePath(password, ans, old(loginState.state));
              r == run.result && steps == run.steps && loginState.state == run.flags
      ensures SaveSession !in steps ==> fs.files == old(fs.files)
      ensures SaveSession in steps ==> fs.files == SavedFiles(old(fs.files), page.cookies, page.localStorage, ans.postLogin.save)
    {
      var continueButtonExists := ans.continueButtonExists;
      var passwordInputExists := ans.passwordInputExists;
      steps := [];
      if continueButtonExists && loginState.EmailVerified() {
        steps := [ClickContinue];
        var clicked, clickAttempts := HandleButton(ContinueOptions, ans.continueClick);
        if clicked.Threw? {
          return clicked, steps;
        }
        steps := steps + [AwaitPasswordInput];
        match ans.passwordAppeared {
          case Threw(t) =>
            return Threw(t), steps;
          case Ok(appeared) =>
            if !appeared {
              return Fail(AuthenticationError, "Password input field did not appear after clicking continue button"), steps;
            }
        }
        loginState.SetPasswordFieldReady(true);
      } else if passwordInputExists {
        loginState.SetPasswordFieldReady(true);
      } else {
        return Fail(AuthenticationError, "Neither continue button nor password input field found"), steps;
      }
      var rest;
      r, rest := EnterPasswordAndSubmit(password, ans);
      steps := steps + rest;
    }

    /** Lines 112-131 of `performLogin`: the password and the checkbox, then the submit. */
    method EnterPasswordAndSubmit(password: string, ans: LoginAnswers) returns (r: Result<bool>, steps: seq<Step>)
      requires Valid()
      modifies loginState, fs
      ensures var run := PasswordStage(password, ans, old(loginState.state));
              r == run.result && steps == run.steps && loginState.state == run.flags
      ensures SaveSession !in steps ==> fs.files == old(fs.files)
      ensures SaveSession in steps ==> fs.files == SavedFiles(old(fs.files), page.cookies, page.localStorage, ans.postLogin.save)
    {
      steps := [];
      if loginState.PasswordFieldReady() {
        steps := [EnterPassword];
        var typed, passwordAttempts := HandleInput(password, PasswordOptions, ans.password);
        if typed.Threw? {
          return typed, steps;
        }
        loginState.SetPasswordEntered(true);
      }
      steps := steps + [KeepLoggedIn];
      var rest;
      r, rest := SubmitLogin(ans);
      steps := steps + rest;
    }

    /** Lines 133-144 of `performLogin`: the submit, once the password was entered, and the post-login flow. */
    method SubmitLogin(ans: LoginAnswers) returns (r: Result<bool>, steps: seq<Step>)
      requires Valid()
      modifies fs
      ensures var run := SubmitStage(ans, loginState.state);
              r == run.result && steps == run.steps
      ensures SaveSession !in steps ==> fs.files == old(fs.files)
      ensures SaveSession in steps ==> fs.files == SavedFiles(old(fs.files), page.cookies, page.localStorage, ans.postLogin.save)
    {
      if loginState.PasswordEntered() {
        steps := [Submit];
        var submitted, submitAttempts := HandleButton(SubmitOptions, ans.submit);
        if submitted.Threw? {
          return submitted, steps;
        }
        var ok, postSteps := postLoginHandler.HandlePostLoginFlow(ans.postLogin);
        return Ok(ok), steps + postSteps;
      }
      return Fail(AuthenticationError, "Login verification failed"), [];
    }

    /** `performLogin`: the `try` block and its `catch`. */
    method PerformLogin(email: string, password: string, ans: LoginAnswers) returns (r: Result<bool>, steps: seq<Step>)
      requires Valid()
      modifies loginState, fs
      ensures var run := PerformLoginRun(email, password, ans, old(loginState.state));
              r == run.result && steps == run.steps && loginState.state == run.flags
      ensures SaveSession !in steps ==> fs.files == old(fs.files)
      ensures SaveSession in steps ==> fs.files == SavedFiles(old(fs.files), page.cookies, page.localStorage, ans.postLogin.save)
    {
      r, steps := TryPerformLogin(email, password, ans);
      if r.Ok? {
        return;
      }
      var error := r.thrown;
      steps := steps + [ErrorScreenshot];
      if ans.errorScreenshot.Threw? {
        return Threw(ans.errorScreenshot.thrown), steps;
      }
      steps := steps + [ErrorReport];
      if ans.errorReport.Threw? {
        return Threw(ans.errorReport.thrown), steps;
      }
      r := Fail(AuthenticationError, "Login flow failed: " + Cause(error));
    }
  }
}
