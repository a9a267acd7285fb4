/** The logged-in decision of src/services/login-check.service.ts. */
module LoginCheck {
  import opened Text
  import opened Errors

  /** What the page evaluation reports: which markers are present, and the page's URL. */
  datatype Snapshot = Snapshot(
    hasSidebarProfile: bool,
    hasSidebarLinks: bool,
    hasConnectsSection: bool,
    hasProfileSection: bool,
    hasLoginForm: bool,
    hasLoginButton: bool,
    cookies: bool,
    localStorage: bool,
    url: string)

  const ProtectedPath := "/nx/find-work"

  /** Both profile markers: logged in whatever else the page shows. */
  predicate Definitive(s: Snapshot) {
    s.hasSidebarProfile && s.hasProfileSection
  }

  predicate ShowsLoginForm(s: Snapshot) {
    s.hasLoginForm || s.hasLoginButton
  }

  /** On the protected page, with cookies and local storage, and with a sidebar link or connects marker. */
  ghost predicate OnProtectedPage(s: Snapshot) {
    (exists i :: OccursAt(s.url, ProtectedPath, i)) && s.cookies && s.localStorage
    && (s.hasSidebarLinks || s.hasConnectsSection)
  }

  /**
   * `isLoggedIn`, given the snapshot the page evaluation produced or the exception it threw. The
   * second evaluation only feeds a log entry: whether it succeeds or throws, the answer is false.
   */
  function IsLoggedIn(snapshot: Result<Snapshot>): (loggedIn: bool)
    ensures snapshot.Threw? ==> !loggedIn
    ensures snapshot.Ok? && Definitive(snapshot.value) ==> loggedIn
    ensures snapshot.Ok? && !Definitive(snapshot.value) && ShowsLoginForm(snapshot.value) ==> !loggedIn
    ensures loggedIn <==> (snapshot.Ok? && (Definitive(snapshot.value)
              || (!ShowsLoginForm(snapshot.value) && OnProtectedPage(snapshot.value))))
  {
    match snapshot
    case Threw(_) => false
    case Ok(s) =>
      IncludesIff(s.url, ProtectedPath);
      if s.hasSidebarProfile && s.hasProfileSection then true
      else if s.hasLoginForm || s.hasLoginButton then false
      else if Includes(s.url, ProtectedPath) && s.cookies && s.localStorage then
        s.hasSidebarLinks || s.hasConnectsSection
      else false
  }
}
