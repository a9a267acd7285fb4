/**
 * `loadAuthData` of src/services/load-auth.service.ts: restores the saved cookies and local
 * storage into the page, then checks that the critical cookies are present.
 */
module LoadAuth {
  import opened Optional
  import opened Errors
  import opened Config
  import opened Browser
  import opened Storage
  import opened SaveAuth

  /** The saved cookie list, when its file exists and holds one. */
  function StoredCookies(files: map<string, Content>): Option<seq<Cookie>> {
    if CookiePath in files && files[CookiePath].CookieList? then Some(files[CookiePath].cookies) else None
  }

  /** The saved local-storage map, when its file exists and holds one. */
  function StoredEntries(files: map<string, Content>): Option<map<string, string>> {
    if LocalStoragePath in files && files[LocalStoragePath].Entries? then Some(files[LocalStoragePath].entries) else None
  }

  /** The critical cookie names, in order, that no cookie of the jar carries. */
  function MissingCritical(names: seq<string>, jar: seq<Cookie>): (missing: seq<string>)
    ensures forall n :: n in missing <==> n in names && n !in Names(jar)
    ensures |missing| <= |names|
  {
    if names == [] then []
    else (if names[0] in Names(jar) then [] else [names[0]]) + MissingCritical(names[1..], jar)
  }

  /**
   * The answers `loadAuthData` gets: whether setting the cookies throws, whether the page
   * evaluation that rewrites local storage throws, whether `localStorage.clear()` throws inside
   * it (local storage inaccessible), which keys local storage refuses to store, the cookies
   * `page.cookies()` returns (or its exception), and whether the final state read throws.
   */
  datatype LoadAnswers = LoadAnswers(
    setCookie: Result<()>,
    evaluate: Result<()>,
    clearFails: bool,
    refused: set<string>,
    readCookies: Result<seq<Cookie>>,
    finalProbe: Result<()>)

  /**
   * The browser invents no cookie: every cookie `page.cookies()` returns is in the jar the
   * restore left. It may leave out cookies, such as expired ones or ones outside the page's URL.
   */
  predicate ReadFromJar(files: map<string, Content>, jar: seq<Cookie>, ans: LoadAnswers) {
    StoredCookies(files).Some? && ans.readCookies.Ok? ==>
      forall c :: c in ans.readCookies.value ==> c in SetCookies(jar, StoredCookies(files).value)
  }

  /** The browser returns the whole jar the restore left: no restored cookie expired or is out of scope. */
  predicate ReadsWholeJar(files: map<string, Content>, jar: seq<Cookie>, ans: LoadAnswers) {
    StoredCookies(files).Some? && ans.readCookies == Ok(SetCookies(jar, StoredCookies(files).value))
  }

  function LoadError(t: Thrown): Result<bool> {
    Fail(AuthenticationError, "Failed to load auth data: " + Cause(t))
  }

  /** What `loadAuthData` returns, given the disk and the page's answers. */
  function LoadOutcome(files: map<string, Content>, ans: LoadAnswers): Result<bool> {
    if StoredCookies(files).None? || StoredEntries(files).None? then Ok(false)
    else
      var data := StoredEntries(files).value;
      if ans.setCookie.Threw? then LoadError(ans.setCookie.thrown)
      else if ans.evaluate.Threw? then LoadError(ans.evaluate.thrown)
      else if ans.clearFails || data.Keys * ans.refused != {} then Ok(false)
      else if ans.readCookies.Threw? then LoadError(ans.readCookies.thrown)
      else if |MissingCritical(CriticalCookies, ans.readCookies.value)| > 0 then Ok(false)
      else if ans.finalProbe.Threw? then LoadError(ans.finalProbe.thrown)
      else Ok(true)
  }

  /**
   * `loadAuthData` returns true exactly when both saved items load, every step succeeds, local
   * storage accepts every saved key, and each critical cookie name is carried by a cookie the
   * browser reads back. A missing item gives false; every exception leaves as an
   * AuthenticationError naming its cause.
   */
  lemma LoadOutcomeCharacterized(files: map<string, Content>, ans: LoadAnswers)
    ensures StoredCookies(files).None? || StoredEntries(files).None? ==> LoadOutcome(files, ans) == Ok(false)
    ensures LoadOutcome(files, ans) == Ok(true) <==>
              StoredCookies(files).Some? && StoredEntries(files).Some?
              && ans.setCookie.Ok? && ans.evaluate.Ok? && ans.readCookies.Ok? && ans.finalProbe.Ok?
              && !ans.clearFails && StoredEntries(files).value.Keys * ans.refused == {}
              && forall n :: n in CriticalCookies ==> n in Names(ans.readCookies.value)
    ensures LoadOutcome(files, ans).Threw? ==>
              LoadOutcome(files, ans).thrown.Raised?
              && LoadOutcome(files, ans).thrown.error.cls == AuthenticationError
  {
    if StoredCookies(files).Some? && StoredEntries(files).Some? && ans.readCookies.Ok? {
      var missing := MissingCritical(CriticalCookies, ans.readCookies.value);
      if |missing| > 0 {
        assert missing[0] in missing;
      }
    }
  }

  /**
   * A true load needs every critical cookie in the old jar or the saved file, whatever the browser
   * drops; when the browser reads back the whole jar, that condition, with the other steps, is
   * also enough.
   */
  lemma LoadNeedsCriticalCookies(files: map<string, Content>, jar: seq<Cookie>, ans: LoadAnswers)
    ensures LoadOutcome(files, ans) == Ok(true) && ReadFromJar(files, jar, ans) ==>
              forall n :: n in CriticalCookies ==> n in Names(jar) || n in Names(StoredCookies(files).value)
    ensures ReadsWholeJar(files, jar, ans) ==>
              ReadFromJar(files, jar, ans)
              && (LoadOutcome(files, ans) == Ok(true) <==>
                    StoredEntries(files).Some? && ans.setCookie.Ok? && ans.evaluate.Ok? && ans.finalProbe.Ok?
                    && !ans.clearFails && StoredEntries(files).value.Keys * ans.refused == {}
                    && forall n :: n in CriticalCookies ==> n in Names(jar) || n in Names(StoredCookies(files).value))
  {
    LoadOutcomeCharacterized(files, ans);
    if StoredCookies(files).Some? {
      var restored := SetCookies(jar, StoredCookies(files).value);
      SetCookiesNames(jar, StoredCookies(files).value);
      if ans.readCookies.Ok? && ReadFromJar(files, jar, ans) {
        forall n | n in Names(ans.readCookies.value) ensures n in Names(restored) {
          var c :| c in ans.readCookies.value && c.name == n;
          assert c in restored;
        }
      }
    }
  }

  /**
   * The page evaluation that rewrites local storage: clears it, then stores each saved entry,
   * stopping with failure at the first key local storage refuses. When the clear itself throws,
   * it fails with local storage untouched. The order of the entries is not modelled, so on a
   * refused key the map holds some of the saved entries.
   */
  method RestoreLocalStorage(page: Page, data: map<string, string>, clearFails: bool, refused: set<string>)
    returns (success: bool)
    modifies page
    ensures page.cookies == old(page.cookies)
    ensures success <==> !clearFails && data.Keys * refused == {}
    ensures success ==> page.localStorage == data
    ensures clearFails ==> page.localStorage == old(page.localStorage)
    ensures !clearFails && !success ==>
              (page.localStorage.Keys < data.Keys
               && forall k :: k in page.localStorage ==> page.localStorage[k] == data[k])
  {
    if clearFails {
      return false;
    }
    page.ClearLocalStorage();
    var remaining := data.Keys;
    while remaining != {}
      invariant remaining <= data.Keys
      invariant remaining * refused == data.Keys * refused
      invariant page.cookies == old(page.cookies)
      invariant page.localStorage == map k | k in data && k !in remaining :: data[k]
      decreases |remaining|
    {
      var key :| key in remaining;
      if key in refused {
        assert key !in page.localStorage;
        return false;
      }
      page.SetItem(key, data[key]);
      remaining := remaining - {key};
    }
    return true;
  }

  /**
   * `loadAuthData` on a page and a disk. When a saved item is missing, or setting the cookies
   * throws, the page is left untouched. Once the cookies are set the jar holds the saved cookies
   * set over the old jar, whatever happens afterwards; local storage is untouched when the
   * evaluation or the clear throws, and equals the saved map when every key is stored. On success
   * the browser read back every critical cookie, and when it invents none the jar holds them all.
   */
  method LoadAuthData(page: Page, fs: FileSystem, ans: LoadAnswers) returns (r: Result<bool>)
    modifies page
    ensures r == LoadOutcome(fs.files, ans)
    ensures StoredCookies(fs.files).None? || StoredEntries(fs.files).None? || ans.setCookie.Threw? ==>
              page.cookies == old(page.cookies) && page.localStorage == old(page.localStorage)
    ensures StoredCookies(fs.files).Some? && StoredEntries(fs.files).Some? && ans.setCookie.Ok? ==>
              page.cookies == SetCookies(old(page.cookies), StoredCookies(fs.files).value)
    ensures StoredCookies(fs.files).Some? && StoredEntries(fs.files).Some? && ans.setCookie.Ok?
            && (ans.evaluate.Threw? || ans.clearFails) ==>
              page.localStorage == old(page.localStorage)
    ensures StoredCookies(fs.files).Some? && StoredEntries(fs.files).Some? && ans.setCookie.Ok?
            && ans.evaluate.Ok? && !ans.clearFails && StoredEntries(fs.files).value.Keys * ans.refused == {} ==>
              page.localStorage == StoredEntries(fs.files).value
    ensures r == Ok(true) ==>
              (page.localStorage == StoredEntries(fs.files).value
               && forall n :: n in CriticalCookies ==> n in Names(ans.readCookies.value))
    ensures r == Ok(true) && ReadFromJar(fs.files, old(page.cookies), ans) ==>
              forall n :: n in CriticalCookies ==> n in Names(page.cookies)
  {
    var cookies := StoredCookies(fs.files);
    var localStorage := StoredEntries(fs.files);
    if cookies.None? || localStorage.None? {
      return Ok(false);
    }
    if ans.setCookie.Threw? {
      return LoadError(ans.setCookie.thrown);
    }
    page.SetCookie(cookies.value);
    if ans.evaluate.Threw? {
      return LoadError(ans.evaluate.thrown);
    }
    var success := RestoreLocalStorage(page, localStorage.value, ans.clearFails, ans.refused);
    if !success {
      return Ok(false);
    }
    if ans.readCookies.Threw? {
      return LoadError(ans.readCookies.thrown);
    }
    var currentCookies := ans.readCookies.value;
    var missingCookies := MissingCritical(CriticalCookies, currentCookies);
    if |missingCookies| > 0 {
      return Ok(false);
    }
    if ans.finalProbe.Threw? {
      return LoadError(ans.finalProbe.thrown);
    }
    forall n | n in CriticalCookies ensures n in Names(currentCookies) {
      assert n !in missingCookies;
    }
    LoadNeedsCriticalCookies(fs.files, old(page.cookies), ans);
    SetCookiesNames(old(page.cookies), cookies.value);
    return Ok(true);
  }

  /**
   * Restoring twice from the same files: the second `setCookie` leaves the jar as the first left
   * it, so a browser that returns the whole jar answers the second read-back as it answered the
   * first.
   */
  lemma LoadTwice(files: map<string, Content>, jar: seq<Cookie>, ans: LoadAnswers)
    ensures StoredCookies(files).Some? ==>
              var once := SetCookies(jar, StoredCookies(files).value);
              && SetCookies(once, StoredCookies(files).value) == once
              && (ReadsWholeJar(files, once, ans) <==> ReadsWholeJar(files, jar, ans))
  {
    if StoredCookies(files).Some? {
      SetCookiesIdempotent(jar, StoredCookies(files).value);
    }
  }

  /**
   * Round trip: after a save whose reads and writes all succeed, both saved items load and the
   * cookie file holds the page's cookies. A true load needs every critical cookie in the old jar or
   * the saved cookies; when the browser reads back the whole jar, that and local storage taking
   * every key are also enough, and local storage then equals the saved page's map without its
   * entries with an empty key or value.
   */
  lemma {:induction false} SaveThenLoad(files: map<string, Content>, cookies: seq<Cookie>, storage: map<string, string>,
                                        jar: seq<Cookie>, ans: LoadAnswers)
    requires ans.setCookie.Ok? && ans.evaluate.Ok? && ans.finalProbe.Ok?
    ensures var saved := SavedFiles(files, cookies, storage, SaveAnswers(Ok(()), Ok(()), false, false));
            && StoredCookies(saved) == Some(cookies)
            && StoredEntries(saved) == Some(Persistable(storage))
            && (LoadOutcome(saved, ans) == Ok(true) && ReadFromJar(saved, jar, ans) ==>
                  !ans.clearFails && Persistable(storage).Keys * ans.refused == {}
                  && forall n :: n in CriticalCookies ==> n in Names(jar) || n in Names(cookies))
            && (ReadsWholeJar(saved, jar, ans) ==>
                  (LoadOutcome(saved, ans) == Ok(true) <==>
                     !ans.clearFails && Persistable(storage).Keys * ans.refused == {}
                     && forall n :: n in CriticalCookies ==> n in Names(jar) || n in Names(cookies)))
  {
    var saved := SavedFiles(files, cookies, storage, SaveAnswers(Ok(()), Ok(()), false, false));
    LoadOutcomeCharacterized(saved, ans);
    LoadNeedsCriticalCookies(saved, jar, ans);
  }
}
