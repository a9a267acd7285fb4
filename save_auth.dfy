/**
 * `saveAuthData` of src/services/save-auth.service.ts: snapshots the page's cookies and its
 * non-empty local-storage entries and writes each to its file; both writes must succeed.
 */
module SaveAuth {
  import opened Optional
  import opened Errors
  import opened Config
  import opened Browser
  import opened Storage

  /** The local-storage entries the snapshot keeps: those whose key and value are both non-empty. */
  function Persistable(storage: map<string, string>): (data: map<string, string>)
    ensures forall k :: k in data <==> k in storage && k != "" && storage[k] != ""
    ensures forall k :: k in data ==> data[k] == storage[k]
  {
    map k | k in storage && k != "" && storage[k] != "" :: storage[k]
  }

  /** The page evaluation that builds the snapshot, walking the keys of local storage. */
  method SnapshotLocalStorage(storage: map<string, string>) returns (data: map<string, string>)
    ensures data == Persistable(storage)
  {
    data := map[];
    var remaining := storage.Keys;
    while remaining != {}
      invariant remaining <= storage.Keys
      invariant data == map k | k in storage && k !in remaining && k != "" && storage[k] != "" :: storage[k]
      decreases |remaining|
    {
      var key :| key in remaining;
      if key != "" {
        var value := storage[key];
        if value != "" {
          data := data[key := value];
        }
      }
      remaining := remaining - {key};
    }
  }

  /**
   * The answers `saveAuthData` gets: whether reading the cookies and taking the snapshot throw,
   * and whether each of the two file writes fails.
   */
  datatype SaveAnswers = SaveAnswers(readCookies: Result<()>, snapshot: Result<()>, cookieWriteFails: bool, storageWriteFails: bool)

  /** Every error leaves as an AuthenticationError that names its cause. */
  function SaveError(t: Thrown): Result<bool> {
    Fail(AuthenticationError, "Failed to save auth data: " + Cause(t))
  }

  /** What `saveAuthData` returns: true when both reads succeed and both writes succeed; it never returns false. */
  function SaveOutcome(ans: SaveAnswers): (r: Result<bool>)
    ensures r == Ok(true) <==> ans.readCookies.Ok? && ans.snapshot.Ok? && !ans.cookieWriteFails && !ans.storageWriteFails
    ensures r != Ok(false)
    ensures r.Threw? ==> r.thrown.Raised? && r.thrown.error.cls == AuthenticationError
    ensures ans.readCookies.Ok? && ans.snapshot.Ok? && (ans.cookieWriteFails || ans.storageWriteFails) ==>
              r == SaveError(Raised(NewError(AuthenticationError, "Failed to save authentication data")))
  {
    if ans.readCookies.Threw? then SaveError(ans.readCookies.thrown)
    else if ans.snapshot.Threw? then SaveError(ans.snapshot.thrown)
    else if ans.cookieWriteFails || ans.storageWriteFails then
      SaveError(Raised(NewError(AuthenticationError, "Failed to save authentication data")))
    else Ok(true)
  }

  /**
   * The disk after `saveAuthData`: both writes are attempted once the reads succeed, the second
   * even when the first failed, and each one that succeeds replaces its file.
   */
  function SavedFiles(files: map<string, Content>, cookies: seq<Cookie>, storage: map<string, string>, ans: SaveAnswers)
    : (after: map<string, Content>)
    ensures ans.readCookies.Threw? || ans.snapshot.Threw? ==> after == files
    ensures forall p :: p != CookiePath && p != LocalStoragePath ==> (p in after <==> p in files)
    ensures ans.readCookies.Ok? && ans.snapshot.Ok? && !ans.storageWriteFails ==>
              LocalStoragePath in after && after[LocalStoragePath] == Entries(Persistable(storage))
    ensures ans.readCookies.Ok? && ans.snapshot.Ok? && !ans.cookieWriteFails ==>
              CookiePath in after && after[CookiePath] == CookieList(cookies)
  {
    if ans.readCookies.Threw? || ans.snapshot.Threw? then files
    else
      var afterCookies := if ans.cookieWriteFails then files else files[CookiePath := CookieList(cookies)];
      if ans.storageWriteFails then afterCookies else afterCookies[LocalStoragePath := Entries(Persistable(storage))]
  }

  /** A failed write leaves its file as it was, and no file other than the two saved ones changes. */
  lemma SavedFilesFrame(files: map<string, Content>, cookies: seq<Cookie>, storage: map<string, string>, ans: SaveAnswers)
    ensures var after := SavedFiles(files, cookies, storage, ans);
            && (forall p :: p != CookiePath && p != LocalStoragePath && p in files ==> after[p] == files[p])
            && (ans.cookieWriteFails ==>
                  (CookiePath in after <==> CookiePath in files)
                  && (CookiePath in files ==> after[CookiePath] == files[CookiePath]))
            && (ans.storageWriteFails ==>
                  (LocalStoragePath in after <==> LocalStoragePath in files)
                  && (LocalStoragePath in files ==> after[LocalStoragePath] == files[LocalStoragePath]))
  {
  }

  /** `saveAuthData` on a page and a disk. */
  method SaveAuthData(page: Page, fs: FileSystem, ans: SaveAnswers) returns (r: Result<bool>)
    modifies fs
    ensures r == SaveOutcome(ans)
    ensures fs.files == SavedFiles(old(fs.files), page.cookies, page.localStorage, ans)
  {
    if ans.readCookies.Threw? {
      return SaveError(ans.readCookies.thrown);
    }
    var cookies := page.cookies;
    if ans.snapshot.Threw? {
      return SaveError(ans.snapshot.thrown);
    }
    var localStorage := SnapshotLocalStorage(page.localStorage);
    var cookiesSaved := fs.SaveToFile(CookiePath, CookieList(cookies), ans.cookieWriteFails);
    var localStorageSaved := fs.SaveToFile(LocalStoragePath, Entries(localStorage), ans.storageWriteFails);
    if !cookiesSaved || !localStorageSaved {
      return SaveError(Raised(NewError(AuthenticationError, "Failed to save authentication data")));
    }
    return Ok(true);
  }
}
