/**
 * The JSON file store of src/services/storage.service.ts, over an abstract disk that maps a path
 * to the value saved there.
 */
module Storage {
  import opened Optional
  import opened Browser

  /** What a file holds: a saved cookie list, a saved key/value map, or text that does not parse. */
  datatype Content = CookieList(cookies: seq<Cookie>) | Entries(entries: map<string, string>) | Unparseable

  class FileSystem {
    var files: map<string, Content>

    constructor(files: map<string, Content>)
      ensures this.files == files
    {
      this.files := files;
    }

    /**
     * `saveToFile`: writes the value and returns true, or returns false when creating the directory
     * or writing the file throws (`fails`), leaving the disk as it was.
     */
    method SaveToFile(path: string, content: Content, fails: bool) returns (saved: bool)
      modifies this
      ensures saved == !fails
      ensures files == if saved then old(files)[path := content] else old(files)
    {
      if fails {
        saved := false;
      } else {
        files := files[path := content];
        saved := true;
      }
    }

    /** `loadFromFile`: the parsed value, or null for a missing file or one that does not parse. */
    function LoadFromFile(path: string): (r: Option<Content>)
      reads this
      ensures r.Some? <==> path in files && files[path] != Unparseable
      ensures r.Some? ==> r.value == files[path]
    {
      if path in files && files[path] != Unparseable then Some(files[path]) else None
    }
  }
}
