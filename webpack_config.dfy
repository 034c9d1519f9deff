/** The exported `env => {...}` function of config/webpack.config.js:58-225:
    the webpack configuration chosen by `env.NODE_ENV`.

    Loaders and plugins are opaque tags carrying the options this file passes
    them; what webpack does with them is not modelled. Package lookups
    (`require.resolve`, `resolve.sync`) are supplied by a `Host`. */
module WebpackConfig {
  import opened Outcome
  import opened AppPaths

  /** The `env` object webpack passes in; only `NODE_ENV` is read. */
  datatype Env = Env(nodeEnv: Option<string>)

  /** `isEnvDevelopment` (line 59). */
  predicate IsEnvDevelopment(env: Env) {
    env.nodeEnv == Some("development")
  }

  /** `isEnvProduction` (line 60). */
  predicate IsEnvProduction(env: Env) {
    env.nodeEnv == Some("production")
  }

  /** The three environments the flags can describe. */
  datatype EnvKind = Production | Development | Neither

  function KindOf(env: Env): (k: EnvKind)
    ensures k == Production <==> IsEnvProduction(env)
    ensures k == Development <==> IsEnvDevelopment(env)
  {
    match env.nodeEnv
    case Some("production") => Production
    case Some("development") => Development
    case _ => Neither
  }

  /** The two flags are never both set. */
  lemma FlagsExclusive(env: Env)
    ensures !(IsEnvProduction(env) && IsEnvDevelopment(env))
  {
  }

  /** A JavaScript value that a `cond && 'text'` or `cond ? x : undefined`
      expression can produce. */
  datatype JsValue = Str(s: string) | False | Undefined

  /** One entry of the CSS rule's `use` array (lines 127-152). */
  datatype UseEntry =
    | FalseEntry                     // `false`, left in the array unfiltered
    | ExtractLoader                  // `MiniCssExtractPlugin.loader`
    | LoaderName(name: string)       // a loader given by package name
    | CssLoader(sourceMap: bool)     // css-loader and its `sourceMap` option
    | PostcssLoader(path: string)    // `require.resolve('postcss-loader')`

  /** The type checker's `formatter` option. */
  datatype Formatter = NoFormatter | TypescriptFormatter

  /** The plugins of lines 182-224, with the options this file gives them. */
  datatype Plugin =
    | CleanPlugin
    | HtmlPlugin(template: string)
    | InlineChunkHtmlPlugin
    | HashedModuleIdsPlugin
    | MiniCssExtractPlugin(filename: string, chunkFilename: string)
    | ManifestPlugin(fileName: string, publicPath: string)
    | ForkTsCheckerPlugin(typescript: string, async: bool, formatter: Formatter, tsconfig: string, watch: string)

  /** An element of the plugin array literal: `false` from `cond && new X()`, or a plugin. */
  datatype Slot = FalseSlot | Instance(plugin: Plugin)

  /** `.filter(Boolean)`: plugin objects are truthy, `false` is not. */
  function FilterBoolean(slots: seq<Slot>): (kept: seq<Plugin>)
    ensures |kept| <= |slots|
  {
    if slots == [] then []
    else
      var rest := FilterBoolean(slots[1..]);
      assert slots == [slots[0]] + slots[1..];
      match slots[0]
      case FalseSlot => rest
      case Instance(p) => [p] + rest
  }

  /** Filtering keeps exactly the plugins of the array. */
  lemma {:induction false} FilterBooleanMembers(slots: seq<Slot>, p: Plugin)
    ensures p in FilterBoolean(slots) <==> Instance(p) in slots
  {
    if slots != [] {
      assert slots == [slots[0]] + slots[1..];
      FilterBooleanMembers(slots[1..], p);
    }
  }

  /** Filtering keeps the order: it distributes over concatenation. */
  lemma {:induction false} FilterBooleanConcat(a: seq<Slot>, b: seq<Slot>)
    ensures FilterBoolean(a + b) == FilterBoolean(a) + FilterBoolean(b)
  {
    if a == [] {
      assert a + b == b;
    } else {
      assert (a + b)[0] == a[0];
      assert (a + b)[1..] == a[1..] + b;
      FilterBooleanConcat(a[1..], b);
    }
  }

  /** The head slot of the array: `false` disappears, a plugin stays in front. */
  lemma FilterBooleanCons(s: Slot, rest: seq<Slot>)
    ensures FilterBoolean([s] + rest) == (if s.Instance? then [s.plugin] else []) + FilterBoolean(rest)
  {
    assert ([s] + rest)[0] == s;
    assert ([s] + rest)[1..] == rest;
  }

  /** Package lookups the configuration performs while it is evaluated:
      `require.resolve(name)` and `resolve.sync(name, {basedir})`. */
  datatype Host = Host(
    requireResolve: string -> Option<string>,
    resolveSync: (string, string) -> Option<string>)

  /** What evaluating the function can throw. */
  datatype ConfigError =
    | EnvIsUndefined                 // TypeError: reading `NODE_ENV` of undefined
    | ModuleNotFound(request: string)
    | ReferenceError(identifier: string)

  datatype Output = Output(filename: JsValue, chunkFilename: JsValue, path: JsValue)

  /** The configuration object, restricted to what this file computes. */
  datatype Config = Config(
    mode: JsValue,
    entryApp: string,
    output: Output,
    devtool: string,
    minimize: bool,
    cssUse: seq<UseEntry>,
    urlLoader: string,
    fileLoader: string,
    plugins: seq<Plugin>)

  /** The plugin array literal before filtering, in source order. */
  function PluginSlots(isEnvProduction: bool, paths: Paths, checker: Plugin): seq<Slot> {
    [ if isEnvProduction then Instance(CleanPlugin) else FalseSlot,
      Instance(HtmlPlugin(paths.appHtml)),
      if isEnvProduction then Instance(InlineChunkHtmlPlugin) else FalseSlot,
      if isEnvProduction then Instance(HashedModuleIdsPlugin) else FalseSlot,
      if isEnvProduction
      then Instance(MiniCssExtractPlugin("assets/css/[name].[contenthash:8].css",
                                         "assets/css/[name].[contenthash:8].chunk.css"))
      else FalseSlot,
      Instance(ManifestPlugin("asset-manifest.json", "/")),
      Instance(checker) ]
  }

  /** The unfiltered array has seven slots: Html, Manifest and the checker are
      always plugins, and Clean, InlineChunk, HashedModuleIds and
      MiniCssExtract are `false` exactly outside production. */
  lemma PluginSlotsShape(isEnvProduction: bool, paths: Paths, checker: Plugin)
    ensures var s := PluginSlots(isEnvProduction, paths, checker);
      |s| == 7
      && (forall i :: 0 <= i < 7 ==> (s[i] == FalseSlot <==> !isEnvProduction && i in {0, 2, 3, 4}))
      && s[1] == Instance(HtmlPlugin(paths.appHtml))
      && s[5] == Instance(ManifestPlugin("asset-manifest.json", "/"))
      && s[6] == Instance(checker)
  {
  }

  /** Evaluates the exported function on `env`. `formatterInScope` says
      whether the identifier `typescriptFormatter` is bound when line 221 is
      evaluated; in the file as written it is not. Errors surface in
      evaluation order: `env.NODE_ENV`, then the three `require.resolve`
      calls of the rules, then `resolve.sync('typescript')`, then the formatter. */
  function BuildConfig(env: Option<Env>, paths: Paths, host: Host, formatterInScope: bool)
    : (r: Result<Config, ConfigError>)
    ensures env.None? ==> r == Err(EnvIsUndefined)
    ensures r.Ok? ==> env.Some? && (IsEnvProduction(env.value) ==> formatterInScope)
    ensures r.Ok? ==> r.value.entryApp == paths.appIndexJs && |r.value.cssUse| == 3
    ensures r.Err? && r.error.ModuleNotFound? ==>
      r.error.request in {"postcss-loader", "url-loader", "file-loader", "typescript"}
    ensures r.Ok? ==> HostResolvesAll(host, paths)
    ensures env.Some? && host.requireResolve("postcss-loader").None? ==>
      r == Err(ModuleNotFound("postcss-loader"))
    ensures env.Some? && host.requireResolve("postcss-loader").Some? && host.requireResolve("url-loader").None? ==>
      r == Err(ModuleNotFound("url-loader"))
    ensures (env.Some? && host.requireResolve("postcss-loader").Some? && host.requireResolve("url-loader").Some?
             && host.requireResolve("file-loader").None?) ==>
      r == Err(ModuleNotFound("file-loader"))
    ensures (env.Some? && host.requireResolve("postcss-loader").Some? && host.requireResolve("url-loader").Some?
             && host.requireResolve("file-loader").Some? && host.resolveSync("typescript", paths.appNodeModules).None?) ==>
      r == Err(ModuleNotFound("typescript"))
  {
    if env.None? then Err(EnvIsUndefined)
    else
      var isEnvDevelopment := IsEnvDevelopment(env.value);
      var isEnvProduction := IsEnvProduction(env.value);
      var postcss := host.requireResolve("postcss-loader");
      var url := host.requireResolve("url-loader");
      var file := host.requireResolve("file-loader");
      var typescript := host.resolveSync("typescript", paths.appNodeModules);
      if postcss.None? then Err(ModuleNotFound("postcss-loader"))
      else if url.None? then Err(ModuleNotFound("url-loader"))
      else if file.None? then Err(ModuleNotFound("file-loader"))
      else if typescript.None? then Err(ModuleNotFound("typescript"))
      else if isEnvProduction && !formatterInScope then Err(ReferenceError("typescriptFormatter"))
      else
        var checker := ForkTsCheckerPlugin(
          typescript.value, isEnvDevelopment,
          if isEnvProduction then TypescriptFormatter else NoFormatter,
          paths.appTsConfig, paths.appSrc);
        Ok(Config(
          if isEnvProduction then Str("production")
          else if isEnvDevelopment then Str("development") else False,
          paths.appIndexJs,
          Output(
            if isEnvProduction then Str("assets/js/[name].[chunkhash:8].js")
            else if isEnvDevelopment then Str("assets/js/bundle.js") else False,
            if isEnvProduction then Str("assets/js/[name].[chunkhash:8].chunk.js")
            else if isEnvDevelopment then Str("assets/js/[name].chunk.js") else False,
            if isEnvProduction then Str(paths.buildPath) else Undefined),
          if isEnvProduction then "source-map" else "cheap-module-source-map",
          isEnvProduction,
          [ if isEnvProduction then ExtractLoader
            else if isEnvDevelopment then LoaderName("style-loader") else FalseEntry,
            CssLoader(isEnvDevelopment),
            PostcssLoader(postcss.value) ],
          url.value,
          file.value,
          FilterBoolean(PluginSlots(isEnvProduction, paths, checker))))
  }

  /** The file as written: `typescriptFormatter` is declared nowhere. */
  function ExportedConfig(env: Option<Env>, paths: Paths, host: Host): Result<Config, ConfigError> {
    BuildConfig(env, paths, host, false)
  }

  /** The file with `typescriptFormatter` bound, as evidently intended. */
  function CorrectedConfig(env: Option<Env>, paths: Paths, host: Host): Result<Config, ConfigError> {
    BuildConfig(env, paths, host, true)
  }

  /** Every package lookup the configuration performs succeeds. */
  predicate HostResolvesAll(host: Host, paths: Paths) {
    && host.requireResolve("postcss-loader").Some?
    && host.requireResolve("url-loader").Some?
    && host.requireResolve("file-loader").Some?
    && host.resolveSync("typescript", paths.appNodeModules).Some?
  }

  /** The mode-dependent part of a configuration. */
  datatype Settings = Settings(
    mode: JsValue,
    output: Output,
    devtool: string,
    minimize: bool,
    cssHead: UseEntry,
    cssSourceMap: bool,
    plugins: seq<Plugin>)

  function SettingsOf(c: Config): Settings
    requires |c.cssUse| == 3 && c.cssUse[1].CssLoader?
  {
    Settings(c.mode, c.output, c.devtool, c.minimize, c.cssUse[0], c.cssUse[1].sourceMap, c.plugins)
  }

  /** The decision table, one row per environment. `typescript` is the
      type checker's resolved package path. */
  function Table(kind: EnvKind, paths: Paths, typescript: string): Settings {
    var html := HtmlPlugin(paths.appHtml);
    var manifest := ManifestPlugin("asset-manifest.json", "/");
    match kind
    case Production =>
      Settings(
        Str("production"),
        Output(Str("assets/js/[name].[chunkhash:8].js"), Str("assets/js/[name].[chunkhash:8].chunk.js"),
               Str(paths.buildPath)),
        "source-map", true, ExtractLoader, false,
        [ CleanPlugin, html, InlineChunkHtmlPlugin, HashedModuleIdsPlugin,
          MiniCssExtractPlugin("assets/css/[name].[contenthash:8].css",
                               "assets/css/[name].[contenthash:8].chunk.css"),
          manifest,
          ForkTsCheckerPlugin(typescript, false, TypescriptFormatter, paths.appTsConfig, paths.appSrc) ])
    case Development =>
      Settings(
        Str("development"),
        Output(Str("assets/js/bundle.js"), Str("assets/js/[name].chunk.js"), Undefined),
        "cheap-module-source-map", false, LoaderName("style-loader"), true,
        [ html, manifest,
          ForkTsCheckerPlugin(typescript, true, NoFormatter, paths.appTsConfig, paths.appSrc) ])
    case Neither =>
      Settings(
        False,
        Output(False, False, Undefined),
        "cheap-module-source-map", false, FalseEntry, false,
        [ html, manifest,
          ForkTsCheckerPlugin(typescript, false, NoFormatter, paths.appTsConfig, paths.appSrc) ])
  }

  /** Filtering the plugin array: seven plugins in production, three otherwise, in source order. */
  lemma PluginList(isEnvProduction: bool, paths: Paths, checker: Plugin)
    ensures FilterBoolean(PluginSlots(isEnvProduction, paths, checker)) ==
      if isEnvProduction then
        [ CleanPlugin, HtmlPlugin(paths.appHtml), InlineChunkHtmlPlugin, HashedModuleIdsPlugin,
          MiniCssExtractPlugin("assets/css/[name].[contenthash:8].css",
                               "assets/css/[name].[contenthash:8].chunk.css"),
          ManifestPlugin("asset-manifest.json", "/"), checker ]
      else
        [ HtmlPlugin(paths.appHtml), ManifestPlugin("asset-manifest.json", "/"), checker ]
  {
    var s := PluginSlots(isEnvProduction, paths, checker);
    assert s == [s[0], s[1], s[2], s[3], s[4], s[5], s[6]];
    assert [s[6]] == [s[6]] + [];
    FilterBooleanCons(s[6], []);
    FilterBooleanCons(s[5], [s[6]]);
    FilterBooleanCons(s[4], [s[5], s[6]]);
    FilterBooleanCons(s[3], [s[4], s[5], s[6]]);
    FilterBooleanCons(s[2], [s[3], s[4], s[5], s[6]]);
    FilterBooleanCons(s[1], [s[2], s[3], s[4], s[5], s[6]]);
    FilterBooleanCons(s[0], [s[1], s[2], s[3], s[4], s[5], s[6]]);
  }

  /** Every configuration the function produces is the table's row for its
      environment. */
  lemma BuildConfigFollowsTable(env: Option<Env>, paths: Paths, host: Host, formatterInScope: bool)
    requires BuildConfig(env, paths, host, formatterInScope).Ok?
    ensures var c := BuildConfig(env, paths, host, formatterInScope).value;
      |c.cssUse| == 3 && c.cssUse[1].CssLoader?
      && SettingsOf(c) == Table(KindOf(env.value), paths, host.resolveSync("typescript", paths.appNodeModules).value)
  {
    var e := env.value;
    var typescript := host.resolveSync("typescript", paths.appNodeModules).value;
    var checker := ForkTsCheckerPlugin(
      typescript, IsEnvDevelopment(e),
      if IsEnvProduction(e) then TypescriptFormatter else NoFormatter,
      paths.appTsConfig, paths.appSrc);
    PluginList(IsEnvProduction(e), paths, checker);
  }

  /** `isEnvProduction` alone decides mode, output naming and path, devtool,
      minimize, the CSS extract loader and the seven-plugin list. */
  lemma ProductionFlagCoupling(env: Env, paths: Paths, host: Host, formatterInScope: bool)
    requires BuildConfig(Some(env), paths, host, formatterInScope).Ok?
    ensures var c := BuildConfig(Some(env), paths, host, formatterInScope).value;
      |c.cssUse| == 3
      && (c.minimize <==> IsEnvProduction(env))
      && (c.devtool == "source-map" <==> IsEnvProduction(env))
      && (c.devtool != "source-map" ==> c.devtool == "cheap-module-source-map")
      && (c.mode == Str("production") <==> IsEnvProduction(env))
      && (c.output.path.Str? <==> IsEnvProduction(env))
      && (c.output.filename == Str("assets/js/[name].[chunkhash:8].js") <==> IsEnvProduction(env))
      && (c.cssUse[0] == ExtractLoader <==> IsEnvProduction(env))
      && (|c.plugins| == 7 <==> IsEnvProduction(env))
  {
    BuildConfigFollowsTable(Some(env), paths, host, formatterInScope);
  }

  /** `isEnvDevelopment` alone decides the development mode and file names,
      the style loader, css-loader's `sourceMap` and the checker's `async`. */
  lemma DevelopmentFlagCoupling(env: Env, paths: Paths, host: Host, formatterInScope: bool)
    requires BuildConfig(Some(env), paths, host, formatterInScope).Ok?
    ensures var c := BuildConfig(Some(env), paths, host, formatterInScope).value;
      |c.cssUse| == 3 && |c.plugins| > 0
      && c.cssUse[1] == CssLoader(IsEnvDevelopment(env))
      && (c.mode == Str("development") <==> IsEnvDevelopment(env))
      && (c.output.filename == Str("assets/js/bundle.js") <==> IsEnvDevelopment(env))
      && (c.cssUse[0] == LoaderName("style-loader") <==> IsEnvDevelopment(env))
      && c.plugins[|c.plugins| - 1].ForkTsCheckerPlugin?
      && (c.plugins[|c.plugins| - 1].async <==> IsEnvDevelopment(env))
  {
    BuildConfigFollowsTable(Some(env), paths, host, formatterInScope);
  }

  /** The configuration depends on `NODE_ENV` only through the environment
      kind: 'staging', '' and a missing value all give the same result. */
  lemma BuildConfigDependsOnKindOnly(e1: Env, e2: Env, paths: Paths, host: Host, formatterInScope: bool)
    requires KindOf(e1) == KindOf(e2)
    ensures BuildConfig(Some(e1), paths, host, formatterInScope) == BuildConfig(Some(e2), paths, host, formatterInScope)
  {
  }

  /** As written, a production build never yields a configuration; when every
      package resolves it fails with a ReferenceError on `typescriptFormatter`. */
  lemma ProductionReferenceError(env: Env, paths: Paths, host: Host)
    requires IsEnvProduction(env)
    ensures ExportedConfig(Some(env), paths, host).Err?
    ensures HostResolvesAll(host, paths) ==>
      ExportedConfig(Some(env), paths, host) == Err(ReferenceError("typescriptFormatter"))
  {
  }

  /** The two versions differ only in production: elsewhere the formatter is never evaluated. */
  lemma CorrectedAgreesOutsideProduction(env: Option<Env>, paths: Paths, host: Host)
    requires env.None? || !IsEnvProduction(env.value)
    ensures CorrectedConfig(env, paths, host) == ExportedConfig(env, paths, host)
  {
  }

  /** With the formatter bound and all packages found, every environment
      yields its table row; in production that is the seven-plugin list. */
  lemma CorrectedConfigFollowsTable(env: Env, paths: Paths, host: Host)
    requires HostResolvesAll(host, paths)
    ensures CorrectedConfig(Some(env), paths, host).Ok?
    ensures var c := CorrectedConfig(Some(env), paths, host).value;
      |c.cssUse| == 3 && c.cssUse[1].CssLoader?
      && SettingsOf(c) == Table(KindOf(env), paths, host.resolveSync("typescript", paths.appNodeModules).value)
  {
    BuildConfigFollowsTable(Some(env), paths, host, true);
  }

  /** The file as written still works outside production: with every package
      found, each such environment yields its table row and three plugins. */
  lemma ExportedConfigOutsideProduction(env: Env, paths: Paths, host: Host)
    requires !IsEnvProduction(env) && HostResolvesAll(host, paths)
    ensures ExportedConfig(Some(env), paths, host).Ok?
    ensures var c := ExportedConfig(Some(env), paths, host).value;
      |c.cssUse| == 3 && c.cssUse[1].CssLoader? && |c.plugins| == 3
      && SettingsOf(c) == Table(KindOf(env), paths, host.resolveSync("typescript", paths.appNodeModules).value)
  {
    CorrectedAgreesOutsideProduction(Some(env), paths, host);
    CorrectedConfigFollowsTable(env, paths, host);
  }

  /** A missing loader package fails every environment, before the formatter is reached. */
  lemma MissingPostcssLoaderFails(env: Env, paths: Paths, host: Host, formatterInScope: bool)
    requires host.requireResolve("postcss-loader").None?
    ensures BuildConfig(Some(env), paths, host, formatterInScope) == Err(ModuleNotFound("postcss-loader"))
  {
  }
}
