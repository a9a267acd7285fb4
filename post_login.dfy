/**
 * `PostLoginHandlerService.handlePostLoginFlow` of src/services/post-login-handler.service.ts: the
 * fixed sequence of steps after the credentials are submitted, ending with the login check and,
 * on success only, the save of the session.
 */
module PostLogin {
  import opened Errors
  import opened Browser
  import opened Storage
  import opened LoginCheck
  import opened SaveAuth

  /**
   * What each step does: the cookie banner, the security question, the profile modal and the
   * popovers (whose own logic is not modelled), the navigation to the dashboard, the page snapshot
   * of the login check, the save, and the success screenshot.
   */
  datatype PostLoginAnswers = PostLoginAnswers(
    cookieConsent: Result<()>,
    securityQuestion: Result<()>,
    profileModal: Result<()>,
    popovers: Result<()>,
    dashboard: Result<()>,
    snapshot: Result<Snapshot>,
    save: SaveAnswers,
    screenshot: Result<()>)

  /** Every step of the flow, in the order it runs them. */
  const PostLoginOrder := [CookieConsent, SecurityQuestion, ProfileModal, Popovers, OpenDashboard, CheckLogin, SaveSession, Screenshot]

  /** The flow reaches the login check: the two steps whose failure is not swallowed succeeded. */
  predicate ReachesCheck(ans: PostLoginAnswers) {
    ans.cookieConsent.Ok? && ans.dashboard.Ok?
  }

  /** The steps the flow runs: a prefix of the fixed order, ending at the first step whose failure ends the flow. */
  function PostLoginSteps(ans: PostLoginAnswers): seq<Step> {
    if ans.cookieConsent.Threw? then PostLoginOrder[..1]
    else if ans.dashboard.Threw? then PostLoginOrder[..5]
    else if !IsLoggedIn(ans.snapshot) then PostLoginOrder[..6]
    else if SaveOutcome(ans.save).Threw? then PostLoginOrder[..7]
    else PostLoginOrder
  }

  /** What the flow returns: true only when the login check passes and the save and the screenshot succeed. */
  function PostLoginOutcome(ans: PostLoginAnswers): bool {
    ReachesCheck(ans) && IsLoggedIn(ans.snapshot) && SaveOutcome(ans.save) == Ok(true) && ans.screenshot.Ok?
  }

  /** The steps run are a prefix of the fixed order. */
  lemma PostLoginStepsInOrder(ans: PostLoginAnswers)
    ensures var steps := PostLoginSteps(ans);
            && 1 <= |steps| <= |PostLoginOrder| && steps == PostLoginOrder[..|steps|]
            && (forall s :: s in steps ==> s in PostLoginOrder)
            && (SaveSession in steps ==> |steps| >= 7) && (Screenshot in steps ==> |steps| == 8)
  {
    var steps := PostLoginSteps(ans);
    forall s | s in steps
      ensures s in PostLoginOrder
    {
      var i :| 0 <= i < |steps| && steps[i] == s;
      assert PostLoginOrder[i] == s;
    }
    if SaveSession in steps {
      var i :| 0 <= i < |steps| && steps[i] == SaveSession;
      assert PostLoginOrder[i] == SaveSession;
    }
    if Screenshot in steps {
      var i :| 0 <= i < |steps| && steps[i] == Screenshot;
      assert PostLoginOrder[i] == Screenshot;
    }
  }

  /**
   * The session is saved only when the login check passed, so a failed check returns false
   * without saving; the screenshot is taken only after a successful save; and a true result means
   * every step ran.
   */
  lemma PostLoginRules(ans: PostLoginAnswers)
    ensures var steps := PostLoginSteps(ans);
            && (SaveSession in steps <==> ReachesCheck(ans) && IsLoggedIn(ans.snapshot))
            && (Screenshot in steps ==> SaveOutcome(ans.save) == Ok(true))
            && (PostLoginOutcome(ans) ==> steps == PostLoginOrder)
    ensures !IsLoggedIn(ans.snapshot) ==> !PostLoginOutcome(ans) && SaveSession !in PostLoginSteps(ans)
  {
    PostLoginStepsInOrder(ans);
    if ReachesCheck(ans) && IsLoggedIn(ans.snapshot) {
      assert PostLoginSteps(ans)[6] == SaveSession;
    }
  }

  /** Failures of the security question, the modal and the popovers change neither the steps run nor the result. */
  lemma BestEffortStepsSwallowed(ans: PostLoginAnswers, security: Result<()>, modal: Result<()>, popovers: Result<()>)
    ensures var other := ans.(securityQuestion := security, profileModal := modal, popovers := popovers);
            PostLoginOutcome(other) == PostLoginOutcome(ans) && PostLoginSteps(other) == PostLoginSteps(ans)
  {
  }

  class PostLoginHandlerService {
    const page: Page
    const fs: FileSystem

    constructor(page: Page, fs: FileSystem)
      ensures this.page == page && this.fs == fs
    {
      this.page := page;
      this.fs := fs;
    }

    /** `handlePostLoginFlow`: the result and the steps it ran. It never throws. */
    method HandlePostLoginFlow(ans: PostLoginAnswers) returns (ok: bool, steps: seq<Step>)
      modifies fs
      ensures ok == PostLoginOutcome(ans) && steps == PostLoginSteps(ans)
      ensures fs.files == if SaveSession in steps then SavedFiles(old(fs.files), page.cookies, page.localStorage, ans.save)
                          else old(fs.files)
    {
      steps := [CookieConsent];
      if ans.cookieConsent.Threw? {
        return false, steps;
      }
      steps := steps + [SecurityQuestion, ProfileModal, Popovers];
      steps := steps + [OpenDashboard];
      if ans.dashboard.Threw? {
        return false, steps;
      }
      steps := steps + [CheckLogin];
      var isLoginSuccessful := IsLoggedIn(ans.snapshot);
      if isLoginSuccessful {
        steps := steps + [SaveSession];
        var saved := SaveAuthData(page, fs, ans.save);
        if saved.Threw? {
          return false, steps;
        }
        steps := steps + [Screenshot];
        if ans.screenshot.Threw? {
          return false, steps;
        }
        return true, steps;
      }
      return false, steps;
    }
  }
}
