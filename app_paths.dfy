/** The application's paths: `resolveApp`, the extension priority list,
    `resolveModule` and the `paths` table computed when the configuration
    file is loaded (config/webpack.config.js:15-56).

    The file system is abstracted as the set of paths that exist, and the
    application directory (`fs.realpathSync(process.cwd())`) as a parameter. */
module AppPaths {
  import opened Outcome

  /** A path starting at the file-system root. */
  predicate IsAbsolute(p: string) {
    |p| > 0 && p[0] == '/'
  }

  /** `p` lies inside directory `dir`. */
  predicate IsUnder(dir: string, p: string) {
    dir + "/" <= p
  }

  /** A segment of `p` begins at index `i`. */
  predicate SegmentStart(p: string, i: int)
    requires 0 <= i < |p|
  {
    i == 0 || p[i - 1] == '/'
  }

  /** The segment beginning at index `i` is `.` or `..`. */
  predicate DotSegmentAt(p: string, i: int)
    requires 0 <= i < |p|
  {
    p[i] == '.'
    && (i + 1 == |p| || p[i + 1] == '/'
        || (p[i + 1] == '.' && (i + 2 == |p| || p[i + 2] == '/')))
  }

  /** A relative path that `path.resolve` leaves as it is: non-empty, with no
      leading or trailing separator, no empty segment and no `.` or `..`
      segment. Every relative path the configuration file passes is one. */
  predicate NormalRelative(p: string) {
    && |p| > 0 && p[0] != '/' && p[|p| - 1] != '/'
    && (forall i :: 0 < i < |p| && p[i] == '/' ==> p[i - 1] != '/')
    && (forall i :: 0 <= i < |p| && SegmentStart(p, i) ==> !DotSegmentAt(p, i))
  }

  /** Appending `.<ext>` to a normalised path, for an extension without a
      separator, keeps it normalised. */
  lemma NormalRelativeWithExtension(base: string, extension: string)
    requires NormalRelative(base)
    requires |extension| > 0 && forall k :: 0 <= k < |extension| ==> extension[k] != '/'
    ensures NormalRelative(Candidate(base, extension))
  {
    var q := Candidate(base, extension);
    assert forall k :: 0 <= k < |base| ==> q[k] == base[k];
    assert q[|base|] == '.';
    assert forall k :: 0 <= k < |extension| ==> q[|base| + 1 + k] == extension[k];
    forall i | 0 < i < |q| && q[i] == '/' ensures q[i - 1] != '/' {
      assert i < |base|;
    }
    forall i | 0 <= i < |q| && SegmentStart(q, i) ensures !DotSegmentAt(q, i) {
      assert i < |base|;
      assert SegmentStart(base, i);
      assert !DotSegmentAt(base, i);
    }
  }

  /** `path.resolve(appDirectory, relativePath)`: an absolute argument wins,
      a relative one is joined to the application directory. Normalisation
      of the joined path is not modelled; for a normalised relative path
      there is nothing to normalise. */
  function ResolveApp(appDirectory: string, relativePath: string): string {
    if IsAbsolute(relativePath) then relativePath else appDirectory + "/" + relativePath
  }

  /** `resolveApp` as the function value handed to `resolveModule`. */
  function AppResolver(appDirectory: string): string -> string {
    p => ResolveApp(appDirectory, p)
  }

  /** Normalised relative paths are joined without loss: different ones give
      different results, and every result lies inside the directory. */
  lemma ResolveAppRelative(appDirectory: string, a: string, b: string)
    requires NormalRelative(a) && NormalRelative(b)
    ensures IsUnder(appDirectory, ResolveApp(appDirectory, a))
    ensures ResolveApp(appDirectory, a) == ResolveApp(appDirectory, b) <==> a == b
  {
    var prefix := appDirectory + "/";
    assert ResolveApp(appDirectory, a) == prefix + a;
    assert ResolveApp(appDirectory, b) == prefix + b;
    if prefix + a == prefix + b {
      assert a == (prefix + a)[|prefix|..];
      assert b == (prefix + b)[|prefix|..];
    }
  }

  /** The extensions tried for an entry file, highest priority first. */
  const MODULE_FILE_EXTENSIONS: seq<string> :=
    ["web.mjs", "mjs", "web.js", "js", "web.ts", "ts", "web.tsx", "tsx", "json", "web.jsx", "jsx"]

  /** The template literal `${filePath}.${extension}`. */
  function Candidate(filePath: string, extension: string): string {
    filePath + "." + extension
  }

  /** `fs.existsSync(resolveFn(`${filePath}.${extension}`))`. */
  predicate CandidateExists(resolveFn: string -> string, existing: set<string>, filePath: string, extension: string) {
    resolveFn(Candidate(filePath, extension)) in existing
  }

  /** `extensions.find(...)`: the first extension whose candidate file exists. */
  function FindExtension(extensions: seq<string>, resolveFn: string -> string, existing: set<string>, filePath: string)
    : (found: Option<string>)
    ensures found.Some? ==> found.value in extensions && CandidateExists(resolveFn, existing, filePath, found.value)
    ensures found.None? <==> forall e :: e in extensions ==> !CandidateExists(resolveFn, existing, filePath, e)
    decreases |extensions|
  {
    if extensions == [] then None
    else if CandidateExists(resolveFn, existing, filePath, extensions[0]) then Some(extensions[0])
    else FindExtension(extensions[1..], resolveFn, existing, filePath)
  }

  /** The search stops at the first extension, in list order, whose file exists. */
  lemma {:induction false} FindExtensionIsFirst(
    extensions: seq<string>, resolveFn: string -> string, existing: set<string>, filePath: string, i: nat)
    requires i < |extensions|
    requires CandidateExists(resolveFn, existing, filePath, extensions[i])
    requires forall j :: 0 <= j < i ==> !CandidateExists(resolveFn, existing, filePath, extensions[j])
    ensures FindExtension(extensions, resolveFn, existing, filePath) == Some(extensions[i])
  {
    if i > 0 {
      assert !CandidateExists(resolveFn, existing, filePath, extensions[0]);
      var rest := extensions[1..];
      forall j | 0 <= j < i - 1
        ensures !CandidateExists(resolveFn, existing, filePath, rest[j])
      {
        assert rest[j] == extensions[j + 1];
      }
      FindExtensionIsFirst(rest, resolveFn, existing, filePath, i - 1);
    }
  }

  /** JavaScript truthiness of a string: only the empty string is falsy. */
  predicate Truthy(s: string) {
    s != ""
  }

  /** `resolveModule(resolveFn, filePath)`: the first existing candidate in
      priority order, or `<filePath>.js` when none exists. It never fails. */
  function ResolveModule(resolveFn: string -> string, existing: set<string>, filePath: string): (r: string)
    ensures exists i :: 0 <= i < |MODULE_FILE_EXTENSIONS| && r == resolveFn(Candidate(filePath, MODULE_FILE_EXTENSIONS[i]))
    ensures (exists e :: e in MODULE_FILE_EXTENSIONS && CandidateExists(resolveFn, existing, filePath, e))
      ==> r in existing
    ensures (forall e :: e in MODULE_FILE_EXTENSIONS ==> !CandidateExists(resolveFn, existing, filePath, e))
      ==> r == resolveFn(Candidate(filePath, "js"))
  {
    var extension := FindExtension(MODULE_FILE_EXTENSIONS, resolveFn, existing, filePath);
    ExtensionsAreWellFormed();
    assert MODULE_FILE_EXTENSIONS[3] == "js";
    if extension.Some? && Truthy(extension.value) then
      assert exists i :: 0 <= i < |MODULE_FILE_EXTENSIONS| && MODULE_FILE_EXTENSIONS[i] == extension.value;
      resolveFn(Candidate(filePath, extension.value))
    else
      resolveFn(Candidate(filePath, "js"))
  }

  /** Every listed extension is a non-empty (so truthy) string without a
      path separator. The truthiness test on the found extension therefore
      never turns a match into the fallback. */
  lemma ExtensionsAreWellFormed()
    ensures forall i :: 0 <= i < |MODULE_FILE_EXTENSIONS| ==> WellFormedExtension(MODULE_FILE_EXTENSIONS[i])
  {
    forall i | 0 <= i < |MODULE_FILE_EXTENSIONS| ensures WellFormedExtension(MODULE_FILE_EXTENSIONS[i]) {
      var e := MODULE_FILE_EXTENSIONS[i];
      assert e in {"web.mjs", "mjs", "web.js", "js", "web.ts", "ts", "web.tsx", "tsx", "json", "web.jsx", "jsx"};
    }
  }

  /** A truthy extension without a path separator. */
  predicate WellFormedExtension(e: string) {
    Truthy(e) && forall k :: 0 <= k < |e| ==> e[k] != '/'
  }

  /** If the i-th extension is the first whose file exists, its path is returned. */
  lemma ResolveModuleFirstMatch(resolveFn: string -> string, existing: set<string>, filePath: string, i: nat)
    requires i < |MODULE_FILE_EXTENSIONS|
    requires CandidateExists(resolveFn, existing, filePath, MODULE_FILE_EXTENSIONS[i])
    requires forall j :: 0 <= j < i ==> !CandidateExists(resolveFn, existing, filePath, MODULE_FILE_EXTENSIONS[j])
    ensures ResolveModule(resolveFn, existing, filePath) == resolveFn(Candidate(filePath, MODULE_FILE_EXTENSIONS[i]))
  {
    FindExtensionIsFirst(MODULE_FILE_EXTENSIONS, resolveFn, existing, filePath, i);
    ExtensionsAreWellFormed();
  }

  /** A lower-priority extension never wins over an existing higher-priority
      one: if the i-th candidate exists, the result comes from an extension at
      position i or earlier whose file exists. */
  lemma {:induction false} ResolveModulePriority(
    resolveFn: string -> string, existing: set<string>, filePath: string, i: nat)
    requires i < |MODULE_FILE_EXTENSIONS|
    requires CandidateExists(resolveFn, existing, filePath, MODULE_FILE_EXTENSIONS[i])
    ensures exists k :: (0 <= k <= i
      && CandidateExists(resolveFn, existing, filePath, MODULE_FILE_EXTENSIONS[k])
      && ResolveModule(resolveFn, existing, filePath) == resolveFn(Candidate(filePath, MODULE_FILE_EXTENSIONS[k])))
    decreases i
  {
    if j :| 0 <= j < i && CandidateExists(resolveFn, existing, filePath, MODULE_FILE_EXTENSIONS[j]) {
      ResolveModulePriority(resolveFn, existing, filePath, j);
    } else {
      ResolveModuleFirstMatch(resolveFn, existing, filePath, i);
    }
  }

  /** The `paths` object (config/webpack.config.js:47-56). */
  datatype Paths = Paths(
    appPath: string,
    appIndexJs: string,
    appHtml: string,
    buildPath: string,
    appSrc: string,
    appNodeModules: string,
    appTsConfig: string,
    appPublic: string)

  /** Builds `paths` for an application directory and a set of existing files. */
  function MakePaths(appDirectory: string, existing: set<string>): (p: Paths)
    ensures IsUnder(appDirectory, p.appPath) && IsUnder(appDirectory, p.appHtml)
    ensures IsUnder(appDirectory, p.buildPath) && IsUnder(appDirectory, p.appSrc)
    ensures IsUnder(appDirectory, p.appNodeModules) && IsUnder(appDirectory, p.appTsConfig)
    ensures IsUnder(appDirectory, p.appPublic)
    ensures exists i :: (0 <= i < |MODULE_FILE_EXTENSIONS|
      && p.appIndexJs == ResolveApp(appDirectory, Candidate("src/index", MODULE_FILE_EXTENSIONS[i])))
    ensures IsUnder(appDirectory, p.appIndexJs)
  {
    SourcePathsAreNormal();
    ModuleInside(appDirectory, existing, "src/index");
    PublicPathsAreNormal();
    RootPathsAreNormal();
    InsideAppDirectory(appDirectory, "src/index.ts");
    InsideAppDirectory(appDirectory, "public/index.html");
    InsideAppDirectory(appDirectory, "dist");
    InsideAppDirectory(appDirectory, "src");
    InsideAppDirectory(appDirectory, "node_modules");
    InsideAppDirectory(appDirectory, "tsconfig.json");
    InsideAppDirectory(appDirectory, "public");
    Paths(
      ResolveApp(appDirectory, "src/index.ts"),
      ResolveModule(AppResolver(appDirectory), existing, "src/index"),
      ResolveApp(appDirectory, "public/index.html"),
      ResolveApp(appDirectory, "dist"),
      ResolveApp(appDirectory, "src"),
      ResolveApp(appDirectory, "node_modules"),
      ResolveApp(appDirectory, "tsconfig.json"),
      ResolveApp(appDirectory, "public"))
  }

  /** A normalised relative path stays inside the application directory. */
  lemma InsideAppDirectory(appDirectory: string, relativePath: string)
    requires NormalRelative(relativePath)
    ensures IsUnder(appDirectory, ResolveApp(appDirectory, relativePath))
  {
    ResolveAppRelative(appDirectory, relativePath, relativePath);
  }

  /** The relative paths the configuration file passes to `resolveApp` are normalised. */
  lemma SourcePathsAreNormal()
    ensures NormalRelative("src/index.ts") && NormalRelative("src") && NormalRelative("src/index")
  {
  }

  lemma PublicPathsAreNormal()
    ensures NormalRelative("public/index.html") && NormalRelative("public")
  {
  }

  lemma RootPathsAreNormal()
    ensures NormalRelative("dist") && NormalRelative("node_modules") && NormalRelative("tsconfig.json")
  {
  }

  /** A module resolved under the application directory is `<filePath>.<ext>`
      for one of the listed extensions, and lies inside the directory. */
  lemma ModuleInside(appDirectory: string, existing: set<string>, filePath: string)
    requires NormalRelative(filePath)
    ensures var r := ResolveModule(AppResolver(appDirectory), existing, filePath);
      IsUnder(appDirectory, r)
      && exists i :: (0 <= i < |MODULE_FILE_EXTENSIONS|
        && r == ResolveApp(appDirectory, Candidate(filePath, MODULE_FILE_EXTENSIONS[i])))
  {
    var i := ModuleCandidateIndex(appDirectory, existing, filePath);
    CandidateInside(appDirectory, filePath, i);
  }

  /** The position of the extension chosen for a module under the application directory. */
  lemma ModuleCandidateIndex(appDirectory: string, existing: set<string>, filePath: string) returns (i: nat)
    ensures i < |MODULE_FILE_EXTENSIONS|
    ensures ResolveModule(AppResolver(appDirectory), existing, filePath)
      == ResolveApp(appDirectory, filePath + "." + MODULE_FILE_EXTENSIONS[i])
  {
    var resolveApp := AppResolver(appDirectory);
    i := ResolvedIndex(resolveApp, existing, filePath);
    var c := Candidate(filePath, MODULE_FILE_EXTENSIONS[i]);
    assert resolveApp(c) == ResolveApp(appDirectory, c);
  }

  /** Every candidate `<filePath>.<ext>` of a normalised path resolves inside the application directory. */
  lemma CandidateInside(appDirectory: string, filePath: string, i: nat)
    requires NormalRelative(filePath)
    requires i < |MODULE_FILE_EXTENSIONS|
    ensures IsUnder(appDirectory, ResolveApp(appDirectory, filePath + "." + MODULE_FILE_EXTENSIONS[i]))
  {
    ExtensionsAreWellFormed();
    NormalRelativeWithExtension(filePath, MODULE_FILE_EXTENSIONS[i]);
    assert Candidate(filePath, MODULE_FILE_EXTENSIONS[i]) == filePath + "." + MODULE_FILE_EXTENSIONS[i];
    InsideAppDirectory(appDirectory, filePath + "." + MODULE_FILE_EXTENSIONS[i]);
  }

  /** The position in the extension list of the candidate that `resolveModule` returns. */
  lemma ResolvedIndex(resolveFn: string -> string, existing: set<string>, filePath: string) returns (i: nat)
    ensures i < |MODULE_FILE_EXTENSIONS|
    ensures ResolveModule(resolveFn, existing, filePath) == resolveFn(Candidate(filePath, MODULE_FILE_EXTENSIONS[i]))
  {
    i :| 0 <= i < |MODULE_FILE_EXTENSIONS|
      && ResolveModule(resolveFn, existing, filePath) == resolveFn(Candidate(filePath, MODULE_FILE_EXTENSIONS[i]));
  }


  /** `js` beats `ts`: with both `src/index.js` and `src/index.ts` present and
      none of the three higher-priority candidates, the entry is `src/index.js`. */
  lemma AppIndexPrefersJsOverTs(appDirectory: string, existing: set<string>)
    requires ResolveApp(appDirectory, "src/index.js") in existing
    requires ResolveApp(appDirectory, "src/index.ts") in existing
    requires ResolveApp(appDirectory, "src/index.web.mjs") !in existing
    requires ResolveApp(appDirectory, "src/index.mjs") !in existing
    requires ResolveApp(appDirectory, "src/index.web.js") !in existing
    ensures MakePaths(appDirectory, existing).appIndexJs == ResolveApp(appDirectory, "src/index.js")
  {
    var resolveApp := AppResolver(appDirectory);
    assert Candidate("src/index", "web.mjs") == "src/index.web.mjs";
    assert Candidate("src/index", "mjs") == "src/index.mjs";
    assert Candidate("src/index", "web.js") == "src/index.web.js";
    assert Candidate("src/index", "js") == "src/index.js";
    ResolveModuleFirstMatch(resolveApp, existing, "src/index", 3);
  }

  /** `web.js` beats `js`. */
  lemma AppIndexPrefersWebJsOverJs(appDirectory: string, existing: set<string>)
    requires ResolveApp(appDirectory, "src/index.web.js") in existing
    requires ResolveApp(appDirectory, "src/index.js") in existing
    requires ResolveApp(appDirectory, "src/index.web.mjs") !in existing
    requires ResolveApp(appDirectory, "src/index.mjs") !in existing
    ensures MakePaths(appDirectory, existing).appIndexJs == ResolveApp(appDirectory, "src/index.web.js")
  {
    var resolveApp := AppResolver(appDirectory);
    assert Candidate("src/index", "web.mjs") == "src/index.web.mjs";
    assert Candidate("src/index", "mjs") == "src/index.mjs";
    assert Candidate("src/index", "web.js") == "src/index.web.js";
    ResolveModuleFirstMatch(resolveApp, existing, "src/index", 2);
  }

  /** With no candidate file at all, the entry silently becomes `src/index.js`,
      a path that does not exist. */
  lemma AppIndexFallsBackToJs(appDirectory: string)
    ensures MakePaths(appDirectory, {}).appIndexJs == ResolveApp(appDirectory, "src/index.js")
  {
    assert Candidate("src/index", "js") == "src/index.js";
  }
}
