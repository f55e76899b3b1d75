/**
 * The gitignore templates of the "create repository" flow: a catalog of the
 * template files found in the bundled `static/gitignore` directory (built on
 * the first request and then kept for the life of the process), lookup of a
 * template's text by name, and the write of a repository's `.gitignore`.
 *
 * The operating system is not modelled: what `readdir`, `readFile` and
 * `writeFile` report is given as a `FileSystem` value.
 */
module GitIgnores {
  import opened Wrappers
  import opened JsMap

  // ---------------------------------------------------------------------
  // The operating system's answers, and the errors of this component
  // ---------------------------------------------------------------------

  /** An error reported by the operating system (its code, e.g. "ENOENT"). */
  datatype IoError = IoError(code: string)

  /** What listing the template directory reports. */
  datatype Listing = Listed(names: seq<string>) | ListFailed(error: IoError)

  /**
   * One snapshot of the file system as this component sees it: the listing of
   * the template directory, the text of every readable file by path, and the
   * outcome of the next write (`None` when it succeeds).
   */
  datatype FileSystem = FileSystem(listing: Listing, files: map<string, string>, writeError: Option<IoError>)

  datatype GitIgnoreError =
    | ReadDirFailed(cause: IoError)
    | UnknownGitIgnore(name: string)
    | ReadFileFailed(path: string)
    | WriteFileFailed(path: string, cause: IoError)

  datatype Result<+T> = Ok(value: T) | Err(error: GitIgnoreError)

  /**
   * The write handed to `writeFile`: destination and content. A content of
   * `None` is JavaScript's `undefined`, passed on as the caller gave it.
   */
  datatype FileWrite = FileWrite(path: string, content: Option<string>)

  // ---------------------------------------------------------------------
  // Names and paths
  // ---------------------------------------------------------------------

  const GitIgnoreExtension: string := ".gitignore"

  /** `Path.join(dir, name)`, without normalisation. */
  function Join(dir: string, name: string): (r: string)
    ensures |r| == |dir| + 1 + |name|
    ensures r[|r| - |name|..] == name
  {
    dir + "/" + name
  }

  /** A joined path lies inside `dir`: it starts with `dir` and a separator. */
  lemma JoinIsInsideDir(dir: string, name: string)
    ensures Join(dir, name)[..|dir| + 1] == dir + "/"
  {
    assert Join(dir, name) == (dir + "/") + name;
  }

  /** The template directory: `Path.join(__dirname, 'static', 'gitignore')`. */
  function TemplateRoot(dirname: string): (r: string)
    ensures |r| > |dirname| + 1 && r[..|dirname| + 1] == dirname + "/"
    ensures EndsWith(r, "/static/gitignore")
  {
    JoinIsInsideDir(dirname, "static");
    JoinIsInsideDir(Join(dirname, "static"), "gitignore");
    assert Join(Join(dirname, "static"), "gitignore") == dirname + "/static/gitignore";
    Join(Join(dirname, "static"), "gitignore")
  }

  /** `s.endsWith(suffix)` */
  predicate EndsWith(s: string, suffix: string)
  {
    |suffix| <= |s| && s[|s| - |suffix|..] == suffix
  }

  /** A directory entry the catalog takes in: its name ends with `.gitignore`. */
  predicate IsIgnoreFile(file: string)
  {
    EndsWith(file, GitIgnoreExtension)
  }

  /** `files.filter(file => file.endsWith(GitIgnoreExtension))` */
  function IgnoreFiles(files: seq<string>): (r: seq<string>)
    ensures forall f :: f in r <==> f in files && IsIgnoreFile(f)
    ensures Distinct(files) ==> Distinct(r)
  {
    if files == [] then []
    else (if IsIgnoreFile(files[0]) then [files[0]] else []) + IgnoreFiles(files[1..])
  }

  /**
   * The filter keeps listing order: filtering two parts of a listing one after
   * the other gives the filter of the whole, and a single entry is kept
   * exactly when it is a template file.
   */
  lemma {:induction false} IgnoreFilesKeepsOrder(a: seq<string>, b: seq<string>)
    ensures IgnoreFiles(a + b) == IgnoreFiles(a) + IgnoreFiles(b)
    ensures forall f :: IgnoreFiles([f]) == if IsIgnoreFile(f) then [f] else []
  {
    if a != [] {
      assert (a + b)[1..] == a[1..] + b;
      IgnoreFilesKeepsOrder(a[1..], b);
    } else {
      assert a + b == b;
    }
  }

  /**
   * `Path.basename(file, GitIgnoreExtension)` for a directory entry: the name
   * without its `.gitignore` suffix; a name without that suffix is kept whole.
   */
  function TemplateName(file: string): (r: string)
    ensures IsIgnoreFile(file) ==> r + GitIgnoreExtension == file
    ensures !IsIgnoreFile(file) ==> r == file
  {
    if IsIgnoreFile(file) then file[..|file| - |GitIgnoreExtension|] else file
  }

  /** The template names of a sequence of template files, in the same order. */
  function TemplateNames(files: seq<string>): (r: seq<string>)
    ensures |r| == |files|
    ensures forall i :: 0 <= i < |files| ==> r[i] == TemplateName(files[i])
  {
    seq(|files|, i requires 0 <= i < |files| => TemplateName(files[i]))
  }

  /** Stripping the fixed suffix is injective: distinct template files have distinct names. */
  lemma TemplateNameInjective(a: string, b: string)
    requires IsIgnoreFile(a) && IsIgnoreFile(b)
    requires TemplateName(a) == TemplateName(b)
    ensures a == b
  {
  }

  // ---------------------------------------------------------------------
  // The catalog
  // ---------------------------------------------------------------------

  /**
   * The map the scan builds from the filtered listing: one `set` per template
   * file, in listing order, name to `Path.join(root, file)`.
   */
  function CatalogOf(root: string, ignoreFiles: seq<string>): (r: StringMap)
    ensures |r.keys| <= |ignoreFiles|
    ensures ignoreFiles != [] ==> TemplateName(ignoreFiles[|ignoreFiles| - 1]) in r.entries
  {
    if ignoreFiles == [] then Empty
    else
      var file := ignoreFiles[|ignoreFiles| - 1];
      Set(CatalogOf(root, ignoreFiles[..|ignoreFiles| - 1]), TemplateName(file), Join(root, file))
  }

  /** What every catalog of templates under `root` looks like. */
  ghost predicate CatalogShape(root: string, catalog: StringMap)
  {
    && JsMap.Valid(catalog)
    && forall k :: k in catalog.entries ==> catalog.entries[k] == Join(root, k + GitIgnoreExtension)
  }

  /**
   * The catalog has an entry for a name exactly when `name + ".gitignore"` is
   * one of the template files, and that entry is the file's path under `root`.
   */
  lemma {:induction false} CatalogOfDescribesListing(root: string, ignoreFiles: seq<string>)
    requires forall f :: f in ignoreFiles ==> IsIgnoreFile(f)
    ensures CatalogShape(root, CatalogOf(root, ignoreFiles))
    ensures forall k :: k in CatalogOf(root, ignoreFiles).entries <==> k + GitIgnoreExtension in ignoreFiles
  {
    if ignoreFiles != [] {
      var n := |ignoreFiles| - 1;
      var file, prefix := ignoreFiles[n], ignoreFiles[..n];
      assert ignoreFiles == prefix + [file];
      CatalogOfDescribesListing(root, prefix);
      var name := TemplateName(file);
      assert name + GitIgnoreExtension == file;
      var c := CatalogOf(root, ignoreFiles);
      forall k
        ensures k in c.entries <==> k + GitIgnoreExtension in ignoreFiles
      {
        if k + GitIgnoreExtension == file {
          assert k == name by { TemplateNameInjective(file, k + GitIgnoreExtension); }
        }
      }
    }
  }

  /**
   * In a sequence of template files without repeats, the part before the last
   * file is such a sequence too, and does not hold the last file.
   */
  lemma LastIsNew(s: seq<string>)
    requires s != [] && Distinct(s)
    requires forall f :: f in s ==> IsIgnoreFile(f)
    ensures Distinct(s[..|s| - 1]) && s[|s| - 1] !in s[..|s| - 1]
    ensures forall f :: f in s[..|s| - 1] ==> IsIgnoreFile(f)
  {
    var n := |s| - 1;
    forall j | 0 <= j < n
      ensures s[..n][j] != s[n]
    {
      assert s[..n][j] == s[j];
    }
  }

  /** The names of a sequence of files are the names of all but the last, then the last one's. */
  lemma TemplateNamesSnoc(s: seq<string>)
    requires s != []
    ensures TemplateNames(s) == TemplateNames(s[..|s| - 1]) + [TemplateName(s[|s| - 1])]
  {
    var n := |s| - 1;
    assert forall i :: 0 <= i < n ==> s[..n][i] == s[i];
  }

  /**
   * With a listing that names each file once (as a directory listing does),
   * the catalog's names are the template files' names, one per file, in
   * listing order.
   */
  lemma {:induction false} CatalogNamesFollowListing(root: string, ignoreFiles: seq<string>)
    requires forall f :: f in ignoreFiles ==> IsIgnoreFile(f)
    requires Distinct(ignoreFiles)
    ensures CatalogOf(root, ignoreFiles).keys == TemplateNames(ignoreFiles)
  {
    if ignoreFiles != [] {
      var n := |ignoreFiles| - 1;
      var file, prefix := ignoreFiles[n], ignoreFiles[..n];
      LastIsNew(ignoreFiles);
      CatalogNamesFollowListing(root, prefix);
      var name := TemplateName(file);
      var before := CatalogOf(root, prefix);
      assert name !in before.entries by {
        CatalogOfDescribesListing(root, prefix);
        assert name + GitIgnoreExtension == file;
      }
      assert CatalogOf(root, ignoreFiles).keys == before.keys + [name];
      TemplateNamesSnoc(ignoreFiles);
    }
  }

  /** One more `set` of the loop extends the catalog of the files before it by the next file. */
  lemma CatalogOfStep(root: string, ignoreFiles: seq<string>, i: nat)
    requires i < |ignoreFiles|
    ensures CatalogOf(root, ignoreFiles[..i + 1])
         == Set(CatalogOf(root, ignoreFiles[..i]), TemplateName(ignoreFiles[i]), Join(root, ignoreFiles[i]))
  {
    assert ignoreFiles[..i + 1][..i] == ignoreFiles[..i];
  }

  /** The catalog scanned from any listing is a catalog of templates under `root`. */
  lemma ScanHasCatalogShape(root: string, files: seq<string>)
    ensures CatalogShape(root, CatalogOf(root, IgnoreFiles(files)))
  {
    CatalogOfDescribesListing(root, IgnoreFiles(files));
  }

  /**
   * The catalog a call resolves to: the cached one if there is one; otherwise
   * the scan of the listing, or the listing's error.
   */
  function Resolve(cached: Option<StringMap>, root: string, listing: Listing): (r: Result<StringMap>)
    ensures cached.Some? ==> r == Ok(cached.value)
    ensures cached.None? && listing.ListFailed? ==> r == Err(ReadDirFailed(listing.error))
  {
    if cached.Some? then Ok(cached.value)
    else match listing
      case ListFailed(e) => Err(ReadDirFailed(e))
      case Listed(files) => Ok(CatalogOf(root, IgnoreFiles(files)))
  }

  /** The cache after a call: set by a successful scan, otherwise as before. */
  function CacheAfter(cached: Option<StringMap>, root: string, listing: Listing): (r: Option<StringMap>)
    ensures cached.Some? ==> r == cached
    ensures cached.None? ==> (r.Some? <==> listing.Listed?)
  {
    var res := Resolve(cached, root, listing);
    if res.Ok? then Some(res.value) else cached
  }

  /** A successful first scan describes the listing: its names are the template files' names. */
  lemma ScannedCatalogDescribesListing(root: string, files: seq<string>, name: string)
    ensures Resolve(None, root, Listed(files)).Ok?
    ensures CatalogShape(root, Resolve(None, root, Listed(files)).value)
    ensures name in Resolve(None, root, Listed(files)).value.entries
        <==> name + GitIgnoreExtension in files
  {
    CatalogOfDescribesListing(root, IgnoreFiles(files));
    assert IsIgnoreFile(name + GitIgnoreExtension);
  }

  /**
   * The names a first scan yields are those of the listing's template files,
   * one per file and in listing order.
   */
  lemma ScannedNamesFollowListing(root: string, files: seq<string>)
    requires Distinct(files)
    ensures Resolve(None, root, Listed(files)) == Ok(CatalogOf(root, IgnoreFiles(files)))
    ensures CatalogOf(root, IgnoreFiles(files)).keys == TemplateNames(IgnoreFiles(files))
  {
    CatalogNamesFollowListing(root, IgnoreFiles(files));
  }

  // ---------------------------------------------------------------------
  // Lookup
  // ---------------------------------------------------------------------

  /** The message of the error for a name the catalog does not know. */
  function UnknownGitIgnoreMessage(name: string): (msg: string)
    ensures exists i :: OccursAt(msg, name, i)
  {
    var prefix := "Unknown gitignore: ";
    var msg := prefix + name + ". Only names returned from getGitIgnoreNames() can be used.";
    assert OccursAt(msg, name, |prefix|);
    msg
  }

  /**
   * The message an error is reported with: the "unknown gitignore" text for
   * an unknown name; for an operating system error, its code.
   */
  function Message(e: GitIgnoreError): (msg: string)
    ensures e.UnknownGitIgnore? ==> exists i :: OccursAt(msg, e.name, i)
    ensures e.ReadDirFailed? || e.WriteFileFailed? ==> exists i :: OccursAt(msg, e.cause.code, i)
  {
    match e
    case UnknownGitIgnore(name) => UnknownGitIgnoreMessage(name)
    case ReadDirFailed(cause) => assert OccursAt(cause.code, cause.code, 0); cause.code
    case WriteFileFailed(_, cause) => assert OccursAt(cause.code, cause.code, 0); cause.code
    case ReadFileFailed(path) => path
  }

  /** `t` stands in `s` at position `i`. */
  predicate OccursAt(s: string, t: string, i: int)
  {
    0 <= i <= |s| - |t| && s[i..i + |t|] == t
  }

  /** `gitIgnores.get(name)` followed by the `!path` test: a missing or empty path is unknown. */
  function LookupPath(catalog: StringMap, name: string): (r: Result<string>)
    ensures r.Err? ==> r.error == UnknownGitIgnore(name)
    ensures r.Ok? ==> Get(catalog, name) == Some(r.value) && r.value != ""
  {
    match Get(catalog, name)
    case None => Err(UnknownGitIgnore(name))
    case Some(path) => if path == "" then Err(UnknownGitIgnore(name)) else Ok(path)
  }

  /** In a catalog of templates every path is non-empty, so lookup fails exactly for unknown names. */
  lemma LookupFailsExactlyForUnknownNames(root: string, catalog: StringMap, name: string)
    requires CatalogShape(root, catalog)
    ensures LookupPath(catalog, name).Err? <==> name !in catalog.entries
    ensures name in catalog.entries ==> LookupPath(catalog, name) == Ok(Join(root, name + GitIgnoreExtension))
  {
  }

  /** `readFile(path, 'utf8')`: the file's text, or an error when it cannot be read. */
  function ReadFile(fs: FileSystem, path: string): (r: Result<string>)
    ensures r.Ok? <==> path in fs.files
    ensures r.Ok? ==> r.value == fs.files[path]
  {
    if path in fs.files then Ok(fs.files[path]) else Err(ReadFileFailed(path))
  }

  /**
   * `getGitIgnoreText` once the catalog is at hand: an unknown name fails
   * before any file is read; a known one yields its file's text.
   */
  function GitIgnoreText(catalog: StringMap, fs: FileSystem, name: string): (r: Result<string>)
    ensures name !in catalog.entries ==> r == Err(UnknownGitIgnore(name))
    ensures r.Ok? ==> name in catalog.entries && catalog.entries[name] in fs.files
                      && r.value == fs.files[catalog.entries[name]]
    ensures name in catalog.entries && catalog.entries[name] != "" ==>
              r == if catalog.entries[name] in fs.files then Ok(fs.files[catalog.entries[name]])
                   else Err(ReadFileFailed(catalog.entries[name]))
  {
    match LookupPath(catalog, name)
    case Err(e) => Err(e)
    case Ok(path) => ReadFile(fs, path)
  }

  // ---------------------------------------------------------------------
  // Writing the repository's .gitignore
  // ---------------------------------------------------------------------

  /** JavaScript truthiness of `name: string | null`: present and not empty. */
  predicate IsTruthy(name: Option<string>): (b: bool)
    ensures name == None ==> !b
    ensures name == Some("") ==> !b
    ensures forall s :: name == Some(s) && |s| > 0 ==> b
  {
    name.Some? && name.value != ""
  }

  /** The destination: `Path.join(repositoryPath, '.gitignore')`. */
  function GitIgnorePath(repositoryPath: string): (r: string)
    ensures |r| > |repositoryPath| + 1 && r[..|repositoryPath| + 1] == repositoryPath + "/"
    ensures EndsWith(r, "/" + GitIgnoreExtension)
  {
    JoinIsInsideDir(repositoryPath, GitIgnoreExtension);
    Join(repositoryPath, GitIgnoreExtension)
  }

  /**
   * The write `writeGitIgnore` issues, or the error that stops it first.
   * `catalog` is what resolving the catalog gives; it is consulted only for a
   * truthy name.
   */
  function PlanWrite(catalog: Result<StringMap>, fs: FileSystem, repositoryPath: string,
                     name: Option<string>, value: Option<string>): (r: Result<FileWrite>)
    ensures r.Ok? ==> r.value.path == GitIgnorePath(repositoryPath)
    ensures !IsTruthy(name) ==> r == Ok(FileWrite(GitIgnorePath(repositoryPath), value))
    ensures IsTruthy(name) && catalog.Err? ==> r == Err(catalog.error)
    ensures IsTruthy(name) && catalog.Ok? && r.Ok? ==>
              && name.value in catalog.value.entries
              && catalog.value.entries[name.value] in fs.files
              && r.value.content == Some(fs.files[catalog.value.entries[name.value]])
    ensures IsTruthy(name) && catalog.Ok? && name.value !in catalog.value.entries ==>
              r == Err(UnknownGitIgnore(name.value))
  {
    if IsTruthy(name) then
      match catalog
      case Err(e) => Err(e)
      case Ok(c) =>
        match GitIgnoreText(c, fs, name.value)
        case Err(e) => Err(e)
        case Ok(text) => Ok(FileWrite(GitIgnorePath(repositoryPath), Some(text)))
    else Ok(FileWrite(GitIgnorePath(repositoryPath), value))
  }

  /** What the whole call reports: the planning error, else the write's own outcome. */
  function WriteOutcome(plan: Result<FileWrite>, fs: FileSystem): (r: Result<()>)
    ensures plan.Err? ==> r == Err(plan.error)
    ensures plan.Ok? ==> (r.Ok? <==> fs.writeError.None?)
  {
    match plan
    case Err(e) => Err(e)
    case Ok(w) => if fs.writeError.Some? then Err(WriteFileFailed(w.path, fs.writeError.value)) else Ok(())
  }

  /**
   * Writing a template by the name the scan gave it puts that template file's
   * text, unchanged, at `repositoryPath/.gitignore`.
   */
  lemma TemplateWrittenVerbatim(root: string, files: seq<string>, file: string, fs: FileSystem,
                                repositoryPath: string, value: Option<string>)
    requires file in files && IsIgnoreFile(file) && TemplateName(file) != ""
    requires Join(root, file) in fs.files
    ensures PlanWrite(Resolve(None, root, Listed(files)), fs, repositoryPath, Some(TemplateName(file)), value)
         == Ok(FileWrite(GitIgnorePath(repositoryPath), Some(fs.files[Join(root, file)])))
  {
    var name := TemplateName(file);
    ScannedCatalogDescribesListing(root, files, name);
  }

  /**
   * A truthy name that is no template file's name stops `writeGitIgnore`
   * with "unknown gitignore" before anything is written.
   */
  lemma UnknownNameMeansNoWrite(root: string, files: seq<string>, fs: FileSystem,
                                repositoryPath: string, name: string, value: Option<string>)
    requires name != ""
    requires name + GitIgnoreExtension !in files
    ensures PlanWrite(Resolve(None, root, Listed(files)), fs, repositoryPath, Some(name), value)
         == Err(UnknownGitIgnore(name))
  {
    ScannedCatalogDescribesListing(root, files, name);
  }

  // ---------------------------------------------------------------------
  // The module state: the compute-once catalog cache
  // ---------------------------------------------------------------------

  /**
   * The module-level state of the component: the template root and
   * `cachedGitIgnores`, `None` until the first successful scan.
   */
  class GitIgnoreStore {
    const root: string
    var cachedGitIgnores: Option<StringMap>

    /** A cached catalog is a catalog of templates under `root`. */
    ghost predicate Valid()
      reads this
    {
      cachedGitIgnores.Some? ==> CatalogShape(root, cachedGitIgnores.value)
    }

    constructor (dirname: string)
      ensures Valid()
      ensures root == TemplateRoot(dirname) && cachedGitIgnores == None
    {
      root := TemplateRoot(dirname);
      cachedGitIgnores := None;
    }

    /**
     * `getCachedGitIgnores`: the cached catalog if set, without looking at the
     * listing; otherwise scan it, keeping the result for every later call.
     * A failed listing leaves the cache unset.
     */
    method GetCachedGitIgnores(fs: FileSystem) returns (r: Result<StringMap>)
      requires Valid()
      modifies this
      ensures Valid()
      ensures r == Resolve(old(cachedGitIgnores), root, fs.listing)
      ensures cachedGitIgnores == CacheAfter(old(cachedGitIgnores), root, fs.listing)
    {
      if cachedGitIgnores.Some? {
        return Ok(cachedGitIgnores.value);
      }
      match fs.listing
      case ListFailed(e) =>
        r := Err(ReadDirFailed(e));
      case Listed(files) =>
        var ignoreFiles := IgnoreFiles(files);
        cachedGitIgnores := Some(Empty);
        for i := 0 to |ignoreFiles|
          invariant cachedGitIgnores == Some(CatalogOf(root, ignoreFiles[..i]))
        {
          var file := ignoreFiles[i];
          CatalogOfStep(root, ignoreFiles, i);
          cachedGitIgnores := Some(Set(cachedGitIgnores.value, TemplateName(file), Join(root, file)));
        }
        assert ignoreFiles[..|ignoreFiles|] == ignoreFiles;
        ScanHasCatalogShape(root, files);
        r := Ok(cachedGitIgnores.value);
    }

    /** `getGitIgnoreNames`: the catalog's names, in the order they were added. */
    method GetGitIgnoreNames(fs: FileSystem) returns (r: Result<seq<string>>)
      requires Valid()
      modifies this
      ensures Valid()
      ensures cachedGitIgnores == CacheAfter(old(cachedGitIgnores), root, fs.listing)
      ensures var c := Resolve(old(cachedGitIgnores), root, fs.listing);
              r == if c.Ok? then Ok(c.value.keys) else Err(c.error)
    {
      var c := GetCachedGitIgnores(fs);
      if c.Err? {
        return Err(c.error);
      }
      r := Ok(Keys(c.value));
    }

    /** `getGitIgnoreText`: resolve the catalog, then look the name up and read its file. */
    method GetGitIgnoreText(fs: FileSystem, name: string) returns (r: Result<string>)
      requires Valid()
      modifies this
      ensures Valid()
      ensures cachedGitIgnores == CacheAfter(old(cachedGitIgnores), root, fs.listing)
      ensures var c := Resolve(old(cachedGitIgnores), root, fs.listing);
              r == if c.Ok? then GitIgnoreText(c.value, fs, name) else Err(c.error)
    {
      var c := GetCachedGitIgnores(fs);
      if c.Err? {
        return Err(c.error);
      }
      var path := LookupPath(c.value, name);
      if path.Err? {
        return Err(path.error);
      }
      r := ReadFile(fs, path.value);
    }

    /**
     * `writeGitIgnore`: with a truthy name, that template's text; otherwise
     * `value` as given; written to `repositoryPath/.gitignore`. `issued` is the
     * write handed to `writeFile`, `None` when an error came first.
     */
    method WriteGitIgnore(fs: FileSystem, repositoryPath: string, name: Option<string>, value: Option<string>)
      returns (issued: Option<FileWrite>, r: Result<()>)
      requires Valid()
      modifies this
      ensures Valid()
      ensures cachedGitIgnores == if IsTruthy(name) then CacheAfter(old(cachedGitIgnores), root, fs.listing)
                                  else old(cachedGitIgnores)
      ensures var plan := PlanWrite(Resolve(old(cachedGitIgnores), root, fs.listing), fs, repositoryPath, name, value);
              && issued == (if plan.Ok? then Some(plan.value) else None)
              && r == WriteOutcome(plan, fs)
    {
      var fullPath := GitIgnorePath(repositoryPath);
      var text: Option<string>;
      if IsTruthy(name) {
        var t := GetGitIgnoreText(fs, name.value);
        if t.Err? {
          return None, Err(t.error);
        }
        text := Some(t.value);
      } else {
        text := value;
      }
      issued := Some(FileWrite(fullPath, text));
      if fs.writeError.Some? {
        r := Err(WriteFileFailed(fullPath, fs.writeError.value));
      } else {
        r := Ok(());
      }
    }
  }

  // ---------------------------------------------------------------------
  // The cache seen from a caller
  // ---------------------------------------------------------------------

  /**
   * Once a scan has succeeded, a later call gives the same names whatever the
   * directory lists by then, even a listing error.
   */
  method LaterListingIsIgnored(dirname: string, before: FileSystem, after: FileSystem)
    returns (first: Result<seq<string>>, second: Result<seq<string>>)
    requires before.listing.Listed?
    ensures first == Ok(CatalogOf(TemplateRoot(dirname), IgnoreFiles(before.listing.names)).keys)
    ensures second == first
  {
    var store := new GitIgnoreStore(dirname);
    first := store.GetGitIgnoreNames(before);
    second := store.GetGitIgnoreNames(after);
  }

  /** A failed listing leaves nothing cached, so the next call scans again. */
  method FailedListingIsRescanned(dirname: string, failing: IoError, after: FileSystem)
    returns (first: Result<seq<string>>, second: Result<seq<string>>)
    requires after.listing.Listed?
    ensures first == Err(ReadDirFailed(failing))
    ensures second == Ok(CatalogOf(TemplateRoot(dirname), IgnoreFiles(after.listing.names)).keys)
  {
    var store := new GitIgnoreStore(dirname);
    first := store.GetGitIgnoreNames(FileSystem(ListFailed(failing), after.files, after.writeError));
    second := store.GetGitIgnoreNames(after);
  }

  // ---------------------------------------------------------------------
  // The built-in template
  // ---------------------------------------------------------------------

  /** `KactusGitIgnoreTextValue`: macOS metadata files and Sketch documents. */
  const KactusGitIgnoreTextValue: string :=
    "*.DS_Store\n"
    + ".AppleDouble\n.LSOverride\n\n# Icon must end with two \r\nIcon\n\n\n# Thumbnails\n._*\n\n"
    + "# Files that might appear in the root of a volume\n.DocumentRevisions-V100\n.fseventsd\n"
    + ".Spotlight-V100\n.TemporaryItems\n.Trashes\n.VolumeIcon.icns\n.com.apple.timemachine.donotpresent\n\n"
    + "# Directories potentially created on remote AFP share\n.AppleDB\n.AppleDesktop\nNetwork Trash Folder\n"
    + "Temporary Items\n.apdisk\n\n# Sketch files\n"
    + "*.sketch\n"

  /** Its first line ignores `*.DS_Store`, its last line `*.sketch`. */
  lemma KactusGitIgnorePatterns()
    ensures |KactusGitIgnoreTextValue| > 0
    ensures KactusGitIgnoreTextValue[..11] == "*.DS_Store\n"
    ensures EndsWith(KactusGitIgnoreTextValue, "\n*.sketch\n")
  {
  }
}
