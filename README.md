# Webpack configuration boilerplate: entry resolution and environment selection

This project models the logic written in `config/webpack.config.js` of a webpack
boilerplate repository, and proves properties of it in Dafny. The file holds two
pieces of logic. Everything else in it is declarative data for webpack.

1. **Entry-file resolution** (`AppPaths`). `resolveApp` joins a relative path to the
   application directory. `resolveModule` tries the extensions of
   `moduleFileExtensions` in list order on a base path. It returns the first
   candidate that exists, and otherwise falls back silently to `<base>.js`. The
   `paths` table uses it to choose `appIndexJs`. The file system is a set of
   existing paths, and the application directory is a parameter.
2. **Environment-to-configuration selection** (`WebpackConfig`). The exported
   `env => {...}` function derives `isEnvProduction` and `isEnvDevelopment` from
   `env.NODE_ENV`. Every mode-dependent option is a conditional on those flags:
   `mode`, the output file names and path, `devtool`, `minimize`, the CSS head
   loader, css-loader's `sourceMap`, the type checker's `async` and `formatter`,
   and the plugin list filtered with `.filter(Boolean)`. The JavaScript
   `cond && value` idiom is kept, so when `NODE_ENV` is neither value, several
   fields are `false` (`JsValue.False`) rather than strings. Evaluating the
   function can throw. The model returns `Result<Config, ConfigError>` for the
   three ways it can fail: `env` undefined, a package that cannot be resolved,
   and the undeclared `typescriptFormatter`.

`WebpackConfig.Table` is the decision table, with one row per environment.
`BuildConfigFollowsTable` proves that the conditionals compute exactly that table.

When no candidate exists, `resolveModule` silently falls back to `<base>.js`
instead of failing. The model does the same (`AppPaths.ResolveModule`,
`AppPaths.AppIndexFallsBackToJs`).

## Model

| member | source | states |
|---|---|---|
| `AppPaths.ResolveAppRelative` | config/webpack.config.js:17-19 | for normalised relative paths (non-empty, no empty, `.` or `..` segment), `resolveApp` gives a path inside the application directory, and distinct paths give distinct results |
| `AppPaths.NormalRelativeWithExtension` | config/webpack.config.js:37 | appending `.<ext>` to a normalised base path, for an extension without a separator, keeps it normalised, so every candidate of `src/index` resolves inside the directory |
| `AppPaths.FindExtension` | config/webpack.config.js:36-38 | `find` returns a listed extension whose candidate file exists, and returns nothing exactly when no listed extension's file exists |
| `AppPaths.FindExtensionIsFirst` | config/webpack.config.js:36-38 | if the i-th extension is the first in list order whose file exists, `find` returns it |
| `AppPaths.ExtensionsAreWellFormed` | config/webpack.config.js:21-33 | every entry of `moduleFileExtensions` is a non-empty (truthy) string without a path separator, so the `if (extension)` test at line 40 never discards a match |
| `AppPaths.ResolveModule` | config/webpack.config.js:35-45 | the result is always one of the listed candidates; it exists whenever any candidate exists; with no existing candidate it is `<base>.js`; it never fails |
| `AppPaths.ResolveModuleFirstMatch` | config/webpack.config.js:35-42 | the result is the resolved path of the first extension, in list order, whose file exists |
| `AppPaths.ResolveModulePriority` | config/webpack.config.js:21-42 | if the i-th candidate exists, the result comes from an existing candidate at position i or earlier, so a lower-priority extension never wins |
| `AppPaths.MakePaths` | config/webpack.config.js:47-56 | every entry of `paths` lies inside the application directory, and `appIndexJs` is `src/index.<ext>` for a listed extension |
| `AppPaths.AppIndexPrefersJsOverTs` | config/webpack.config.js:21-49 | with both `src/index.js` and `src/index.ts` present and no higher candidate, `appIndexJs` is `src/index.js` |
| `AppPaths.AppIndexPrefersWebJsOverJs` | config/webpack.config.js:21-49 | `src/index.web.js` beats `src/index.js` when neither `.web.mjs` nor `.mjs` exists |
| `AppPaths.AppIndexFallsBackToJs` | config/webpack.config.js:44-49 | with no file present, `appIndexJs` is still `src/index.js` |
| `WebpackConfig.KindOf` | config/webpack.config.js:59-60 | the environment is Production exactly when `isEnvProduction`, and Development exactly when `isEnvDevelopment` |
| `WebpackConfig.FlagsExclusive` | config/webpack.config.js:59-60 | `isEnvProduction` and `isEnvDevelopment` are never both true |
| `WebpackConfig.FilterBoolean` | config/webpack.config.js:182-224 | `.filter(Boolean)` never lengthens the plugin array |
| `WebpackConfig.FilterBooleanMembers` | config/webpack.config.js:182-224 | a plugin survives filtering exactly when it is an element of the array; `false` entries are dropped |
| `WebpackConfig.FilterBooleanConcat` | config/webpack.config.js:224 | filtering distributes over concatenation, so the order of the plugins is preserved |
| `WebpackConfig.PluginSlotsShape` | config/webpack.config.js:182-223 | the unfiltered plugin array has seven slots; Html, Manifest and the checker are always plugins, and Clean, InlineChunk, HashedModuleIds and MiniCssExtract are `false` exactly outside production |
| `WebpackConfig.PluginList` | config/webpack.config.js:182-224 | production gives Clean, Html, InlineChunk, HashedModuleIds, MiniCssExtract, Manifest and ForkTsChecker in that order; any other environment gives Html, Manifest and ForkTsChecker |
| `WebpackConfig.BuildConfig` | config/webpack.config.js:58-225 | undefined `env` throws; a build succeeds only if all four package lookups resolve, and the first failing lookup in evaluation order (`postcss-loader`, `url-loader`, `file-loader`, then `typescript`) is the module-not-found error; a production build succeeds only with the formatter in scope; a successful build's entry is `paths.appIndexJs` and its CSS `use` array has three entries |
| `WebpackConfig.BuildConfigFollowsTable` | config/webpack.config.js:62-224 | every configuration produced is its environment's row of the decision table: mode, output names and path, devtool, minimize, CSS head loader, css-loader `sourceMap`, and the plugin list with the checker's `async` and `formatter` |
| `WebpackConfig.ProductionFlagCoupling` | config/webpack.config.js:60-197 | `isEnvProduction` holds exactly when `minimize` is true, devtool is `source-map` (otherwise `cheap-module-source-map`), mode is `production`, the output path is set, file names carry `[chunkhash:8]`, the CSS head loader is the extract loader and there are seven plugins |
| `WebpackConfig.DevelopmentFlagCoupling` | config/webpack.config.js:59-206 | css-loader's `sourceMap` equals `isEnvDevelopment`, and `isEnvDevelopment` holds exactly when mode is `development`, the file name is `assets/js/bundle.js`, the head loader is `style-loader` and the last plugin, the type checker, runs with `async` |
| `WebpackConfig.BuildConfigDependsOnKindOnly` | config/webpack.config.js:59-63 | two `NODE_ENV` values with the same environment kind give the same result |
| `WebpackConfig.ProductionReferenceError` | config/webpack.config.js:221 | as written, a production build never yields a configuration, and when every package resolves it throws a ReferenceError on `typescriptFormatter` |
| `WebpackConfig.CorrectedAgreesOutsideProduction` | config/webpack.config.js:221 | outside production, binding `typescriptFormatter` changes nothing, because the formatter is only evaluated in production |
| `WebpackConfig.CorrectedConfigFollowsTable` | config/webpack.config.js:182-224 | with the formatter bound and all packages resolvable, every environment succeeds with its table row, so production gets its seven plugins |
| `WebpackConfig.ExportedConfigOutsideProduction` | config/webpack.config.js:58-225 | the exported function as written, outside production and with every package found, succeeds with its environment's table row and three plugins |
| `WebpackConfig.MissingPostcssLoaderFails` | config/webpack.config.js:136 | an unresolvable `postcss-loader` fails every environment with module-not-found, before the formatter is reached |

## Left out

- Real file-system and path semantics: `fs.realpathSync(process.cwd())` is a parameter, and `fs.existsSync` is membership in a set of existing paths. `path.resolve` is modelled only as "an absolute path wins, a relative one is joined with `/`"; the file never passes an absolute path, so no property is stated for that branch. Normalisation of `.`, `..`, empty and trailing segments is not modelled, so `AppPaths.ResolveApp` agrees with `path.resolve` only for normalised relative paths (`AppPaths.NormalRelative`), which are all the file passes, and only for an application directory other than `/` (there `path.resolve('/', 'src')` is `/src`, while the join gives `//src`). The properties about relative paths are stated for those paths only. The application directory is assumed to be canonical, as `fs.realpathSync` returns it.
- Everything webpack, its loaders and its plugins do with the configuration is not modelled. That includes `oneOf` first-match rules, `exclude` and `include`, url-loader's `limit: 10000`, `splitChunks` and `runtimeChunk`, hash computation, and manifest and HTML emission. None of it is implemented in this repository.
- Static parts of the configuration object are not in `Config`: `resolve`, `devServer`, `optimization.minimizer`, `runtimeChunk`, `splitChunks`, the babel rule, the media file names and the type checker's fixed options. They contain no logic. webpack's own `resolve.extensions` belongs to webpack's resolver, not to `resolveModule`.
- Package lookups are the parameter `Host`. `require.resolve` (lines 136, 161, 171) and `resolve.sync` (line 203) either give a path or fail with module-not-found. The `require` calls at lines 1-13, and plugin and loader constructors throwing, are not modelled.
- The type-checker plugin's behaviour is not modelled. It is an external, asynchronous process, so only its options are.
- webpack.config.js (the root-level static configuration) is not part of this model. It has no logic of its own.
- The demo modules src/index.js, src/index.ts and src/index.tsx are not modelled. They are UI code.

## Findings

| source | as written | input that shows it | evidently intended | confidence | as-written member | corrected member |
|---|---|---|---|---|---|---|
| config/webpack.config.js:221 | `formatter: isEnvProduction ? typescriptFormatter : undefined` refers to an identifier that is never declared or required in the file | `env = { NODE_ENV: 'production' }`: evaluating the plugin array throws a ReferenceError, so no production configuration is ever built | `typescriptFormatter` bound to the type checker's formatter, so production gets its seven-plugin configuration | high; not executed | `WebpackConfig.ProductionReferenceError` | `WebpackConfig.CorrectedConfigFollowsTable` |
