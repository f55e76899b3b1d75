# gitignore templates of the "create repository" flow

A Dafny model of `app/src/ui/add-repository/gitignores.ts`. This module
finds the bundled `.gitignore` templates, resolves a template's text by name,
and writes a new repository's `.gitignore`:

- **Catalog.** The first request lists the template directory
  (`<dirname>/static/gitignore`). It keeps the entries whose names end in
  `.gitignore`. It maps each template name (the file name without that
  suffix) to the file's path. The result is kept in a module-level cache.
- **Cache.** The cache starts unset. The first successful scan sets it, and
  nothing changes it afterwards. A failed listing leaves it unset.
- **Names.** The names offered are the catalog's keys, in the order they were
  inserted.
- **Lookup.** A name that is not in the catalog fails with an "Unknown
  gitignore" error before any file is read. A known name yields its file's
  text.
- **Write.** A truthy name (present and non-empty) selects that template's
  text. Otherwise the caller's `value` is used as given. The destination is
  always `repositoryPath/.gitignore`.
- **Built-in template.** `KactusGitIgnoreTextValue` is a fixed template for
  macOS metadata files and Sketch documents.

Layout:

- `wrappers.dfy` (module `Wrappers`): `Option`, standing for `null` / `undefined`.
- `js_map.dfy` (module `JsMap`): a JavaScript `Map<string, string>` as a
  value, with its entries and its key insertion order.
- `gitignores.dfy` (module `GitIgnores`): the source file itself.
  - The operating system's answers form one `FileSystem` value: the template
    directory's listing or its error, the text of each readable path, and
    the outcome of the next write.
  - The module state is the class `GitIgnoreStore`. Its field
    `cachedGitIgnores` is `None` until the first successful scan.
  - `GetCachedGitIgnores` fills the map in a loop, as the source does.
  - Each operation of the class is specified by a pure function. `Resolve`
    and `CacheAfter` specify the cache, `GitIgnoreText` the lookup and
    `PlanWrite` the write. The lemmas prove the source's promises about
    these functions.

`writeGitIgnore` does not report a missing content as an error. With no
name and no `value`, the code passes `undefined` on to `writeFile`. A
stricter design would reject this case, but the model follows the code: it
issues a write whose content is `None`.

## Model

| member | source | states |
|---|---|---|
| `JsMap.Get` | app/src/ui/add-repository/gitignores.ts:44 | `map.get` is defined exactly on the map's keys and yields the stored value |
| `JsMap.Set` | app/src/ui/add-repository/gitignores.ts:23 | `map.set` stores the value under its key and leaves every other key's value alone; a new key goes last in the key order, an existing key keeps its place; a well-formed map stays well-formed |
| `JsMap.Keys` | app/src/ui/add-repository/gitignores.ts:36 | `Array.from(map.keys())` lists each key of the map exactly once and nothing else |
| `GitIgnores.Join` | app/src/ui/add-repository/gitignores.ts:23 | a joined path is one separator longer than its two parts together and ends with the file name |
| `GitIgnores.JoinIsInsideDir` | app/src/ui/add-repository/gitignores.ts:23 | a joined path starts with the directory followed by a separator |
| `GitIgnores.TemplateRoot` | app/src/ui/add-repository/gitignores.ts:6 | the template directory lies inside `__dirname` and ends with `/static/gitignore` |
| `GitIgnores.IgnoreFiles` | app/src/ui/add-repository/gitignores.ts:19 | the filter keeps exactly the listed entries ending in `.gitignore`; a listing without repeats gives a result without repeats |
| `GitIgnores.IgnoreFilesKeepsOrder` | app/src/ui/add-repository/gitignores.ts:19 | the filter keeps listing order: filtering two parts in turn gives the filter of the whole, and one entry is kept exactly when it ends in `.gitignore` |
| `GitIgnores.TemplateName` | app/src/ui/add-repository/gitignores.ts:23 | for a template file, name + `.gitignore` gives back the file name; any other name is kept whole |
| `GitIgnores.TemplateNameInjective` | app/src/ui/add-repository/gitignores.ts:22-24 | two template files with the same name are the same file |
| `GitIgnores.CatalogOf` | app/src/ui/add-repository/gitignores.ts:21-24 | the map filled by the loop has at most one key per file set, and holds an entry for the name of the last file set |
| `GitIgnores.CatalogOfStep` | app/src/ui/add-repository/gitignores.ts:22-23 | each pass of the loop extends the map built so far by one `set` of the next file's name and path |
| `GitIgnores.ScanHasCatalogShape` | app/src/ui/add-repository/gitignores.ts:19-24 | the map scanned from any listing is well-formed and maps every name to name + `.gitignore` under the root |
| `GitIgnores.CatalogOfDescribesListing` | app/src/ui/add-repository/gitignores.ts:19-24 | after the loop, a name has an entry exactly when name + `.gitignore` is a listed template file; the entry is that file's path under the root; keys are unique and the key list matches the entries |
| `GitIgnores.CatalogNamesFollowListing` | app/src/ui/add-repository/gitignores.ts:22-24 | for template files listed once each, the map's key order is the files' names in listing order, one per file |
| `GitIgnores.ScannedNamesFollowListing` | app/src/ui/add-repository/gitignores.ts:19-36 | a first scan of a listing without repeats succeeds; the names it offers are the listing's template names in listing order |
| `GitIgnores.Resolve` | app/src/ui/add-repository/gitignores.ts:10-31 | a cached catalog is returned whatever the listing says; without a cache, a listing error is rejected as that error |
| `GitIgnores.CacheAfter` | app/src/ui/add-repository/gitignores.ts:11-21 | a set cache never changes; an unset cache becomes set exactly when the listing succeeds |
| `GitIgnores.ScannedCatalogDescribesListing` | app/src/ui/add-repository/gitignores.ts:15-24 | a first scan of a successful listing succeeds; it yields a catalog of templates under the root, and knows a name exactly when name + `.gitignore` was listed |
| `GitIgnores.UnknownGitIgnoreMessage` | app/src/ui/add-repository/gitignores.ts:46 | the "Unknown gitignore" message contains the rejected name |
| `GitIgnores.Message` | app/src/ui/add-repository/gitignores.ts:46 | an "unknown gitignore" error is reported with a message that contains the rejected name; a listing or write error's message contains its code |
| `GitIgnores.LookupPath` | app/src/ui/add-repository/gitignores.ts:44-47 | a missing or empty path fails with "unknown gitignore" for that name; success gives the non-empty path stored under the name |
| `GitIgnores.LookupFailsExactlyForUnknownNames` | app/src/ui/add-repository/gitignores.ts:44-47 | in a catalog of templates, lookup fails exactly for names that are not keys, and otherwise yields the path of name + `.gitignore` under the root |
| `GitIgnores.ReadFile` | app/src/ui/add-repository/gitignores.ts:50-56 | a read succeeds exactly for a readable path and yields that file's text |
| `GitIgnores.GitIgnoreText` | app/src/ui/add-repository/gitignores.ts:40-58 | an unknown name fails with "unknown gitignore" and reads nothing; a known name with a non-empty path yields its file's text when the file is readable and a read error for that path otherwise; success means the name is known and the text is its file's content |
| `GitIgnores.GitIgnorePath` | app/src/ui/add-repository/gitignores.ts:62 | the destination lies inside `repositoryPath` and ends with `/.gitignore` |
| `GitIgnores.IsTruthy` | app/src/ui/add-repository/gitignores.ts:64 | JavaScript truthiness of `name`: `null` and the empty string are falsy, every other string is truthy |
| `GitIgnores.PlanWrite` | app/src/ui/add-repository/gitignores.ts:61-67 | every write goes to `repositoryPath/.gitignore`; a falsy name writes `value` unchanged without consulting the catalog; with a truthy name a catalog error stops the write, an unknown name stops it with "unknown gitignore", and a write that goes ahead carries the template file's text |
| `GitIgnores.WriteOutcome` | app/src/ui/add-repository/gitignores.ts:66-74 | an error before the write is reported as is; otherwise the call succeeds exactly when `writeFile` does |
| `GitIgnores.TemplateWrittenVerbatim` | app/src/ui/add-repository/gitignores.ts:62-64 | writing a listed template by its name puts that template file's text, unchanged, at `repositoryPath/.gitignore` |
| `GitIgnores.UnknownNameMeansNoWrite` | app/src/ui/add-repository/gitignores.ts:64-67 | a non-empty name whose `.gitignore` file was not listed fails with "unknown gitignore" and issues no write |
| `GitIgnores.GitIgnoreStore.constructor` | app/src/ui/add-repository/gitignores.ts:6-8 | the root is `dirname/static/gitignore` and the cache starts unset |
| `GitIgnores.GitIgnoreStore.GetCachedGitIgnores` | app/src/ui/add-repository/gitignores.ts:10-31 | the result is the resolved catalog; the cache is set by the first successful scan and otherwise unchanged; a cached catalog is always a catalog of templates under the root |
| `GitIgnores.GitIgnoreStore.GetGitIgnoreNames` | app/src/ui/add-repository/gitignores.ts:34-37 | the names are the resolved catalog's keys in insertion order, or the listing error |
| `GitIgnores.GitIgnoreStore.GetGitIgnoreText` | app/src/ui/add-repository/gitignores.ts:40-58 | the text is the lookup-and-read on the resolved catalog, or the listing error; the cache moves as in `GetCachedGitIgnores` |
| `GitIgnores.GitIgnoreStore.WriteGitIgnore` | app/src/ui/add-repository/gitignores.ts:61-75 | the write issued is `PlanWrite`'s, and none when it fails; the outcome is `WriteOutcome`'s; the cache is consulted only for a truthy name |
| `GitIgnores.LaterListingIsIgnored` | app/src/ui/add-repository/gitignores.ts:11-12 | after a successful scan, a later call returns the same names whatever the directory then lists, a listing error included |
| `GitIgnores.FailedListingIsRescanned` | app/src/ui/add-repository/gitignores.ts:15-17 | a failed listing is rejected and caches nothing, so the next call scans again and returns that listing's names |
| `GitIgnores.KactusGitIgnorePatterns` | app/src/ui/add-repository/gitignores.ts:77-106 | the built-in template is non-empty; its first line is `*.DS_Store` and its last line `*.sketch` |

## Left out

- File system I/O: `readdir`, `readFile` and `writeFile` are not modelled. Their answers are given as a `FileSystem` value. UTF-8 decoding is not modelled either.
- Read errors: every unreadable path fails the same way (`ReadFileFailed`). The operating system's error code for a read is not kept.
- Promises, callbacks and `async`/`await` are not modelled. Neither is the first-call race, where two overlapping first calls can both scan. Calls are modelled one after another.
- `Path.join` normalisation: a join is `dir + "/" + name`.
- `Path.basename` on a file named exactly `.gitignore`: the model strips the suffix plainly and gives the empty name. Node's own result for this case depends on library code that is not part of this model. Directory parts are never stripped, because listing entries hold no `/`.
- `__dirname` is a constructor parameter.
- What `writeFile` does with its content: overwriting an existing file, and writing JavaScript's `undefined`. The model stops at the write it issues. So "a second write replaces the first" is not stated.
- Operating system error messages: a listing or write error is reported by its code, and a read error by its path. The text Node puts in these messages is not modelled.
- KactusGitIgnorePatterns: only the first and last lines of the built-in template are proved. The whole text is in the constant, but no other line is stated as a property.
