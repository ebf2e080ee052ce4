# genesis-template build orchestration, modelled in Dafny

This project models the build and launch logic of the genesis-template
repository, a starter kit for applications with a web stack (an Express
server plus a browser client) and an electron stack (main process,
renderer, preload). The model covers:

- the keyed dispatcher `select`;
- the build identity `BuildInfo`, a (context, variant) pair with its memo
  cache, its key `"context,variant"` and the derived `shortVariant`, `side`
  and `stack`;
- the data fields of the per-identity webpack configuration, including the
  sandbox rule that keeps one side from importing the other side's sources;
- the output-path safety gate that runs before output directories are
  wiped;
- the `develop`, `build`, `package` and `run` commands:
  - which contexts each one compiles;
  - which processes `run` starts, with which arguments and which
    `NODE_OPTIONS`;
  - the watch callback that releases startup on the first finished
    compilation (any without a fatal `err`) and sends `SIGUSR2` to every
    started process after each later one;
- the argv patch preloaded into electron;
- the browserslist table;
- the two backend entry points:
  - the server's path-rewriting middleware, option defaults, secure-mode
    check and URL;
  - electron's extraction of `--dev-server-*` options and its choice of
    window URL.

Modules and the source files they model:

- `Wrappers`: `Option` and `Result`.
- `Strings`: the string helpers the source uses: prefix and suffix tests,
  ASCII lower-casing, `join`, and JavaScript's `split`.
- `Dispatch`: `select` (build/main.js).
- `Identity`: `BuildInfo` and the class `Registry` that holds its cache
  (build/main.js).
- `Paths`: POSIX paths as segment sequences, with `Path.resolve` and
  `Path.relative`.
- `OutPaths`: `clearOutPaths` (build/main.js).
- `Webpack` and `WebpackProperties`: build/webpack.config.js.
- `BrowserList`: build/browserlist.config.js.
- `ElectronPatch`: build/electron.patch.js.
- `Orchestrator`: `getWebpackConfigs`, `run`, `runElectron` and `main`
  (build/main.js).
- `ServerEntry`: src/backend/main.server.js.
- `ElectronEntry`: src/backend/main.electron.js.

State the source updates in place is modelled with classes:

- the identity cache is `Identity.Registry`;
- the watch callback's closure is `Orchestrator.WatchSession`;
- the patched process is `ElectronPatch.NodeProcess`;
- the request object is `ServerEntry.Request`.

Loops the source runs are methods with loop invariants, each proved
against a specification function. The pure selections are functions, and
the properties are lemmas about those functions.

## Model

| member | source | states |
|---|---|---|
| Dispatch.Select | build/main.js:315-322 | a key in the table yields its branch; otherwise the default branch applied to the key; with neither it fails as not implemented, and only then |
| Dispatch.TotalTableNeverFails | build/main.js:316-317 | a key the table covers always yields its own branch, whatever the default |
| Dispatch.DefaultMakesTotal | build/main.js:318-319 | with a default branch the dispatcher never fails |
| Identity.ParseContext | build/main.js:45-46 | exactly the five context names are accepted, each naming its context |
| Identity.ParseVariant | build/main.js:47-48 | exactly `development` and `production` are accepted |
| Identity.ParseContextName | build/main.js:45 | every context's name parses back to that context |
| Identity.ParseVariantName | build/main.js:47 | every variant's name parses back to that variant |
| Identity.Validate | build/main.js:44-51 | the constructor's checks: success iff both names are valid; an invalid context is reported before the variant is looked at |
| Identity.SideOf | build/main.js:64-76 | frontend exactly for client, renderer and preload |
| Identity.StackOf | build/main.js:78-90 | web exactly for client and server |
| Identity.ShortVariantDistinct | build/main.js:57-62 | the short variant names differ for the two variants |
| Identity.NamesHaveNoComma | build/main.js:35 | no context or variant name contains the key separator |
| Identity.SplitKey | build/main.js:33-35 | splitting a key at `,` gives back exactly its context and variant names |
| Identity.KeyInjective | build/main.js:53-55 | different identities have different keys |
| Identity.AllKeysSize | build/main.js:44-48 | there are at most ten valid keys |
| Identity.BuildInfo.constructor | build/main.js:44-51 | the instance holds the given context and variant |
| Identity.Registry.constructor | build/main.js:129 | the cache starts empty |
| Identity.Registry.Get | build/main.js:32-42 | a cached key returns the same instance and leaves the cache alone; an invalid identity fails and caches nothing; otherwise a fresh instance is cached under its key; every returned instance's key is the requested key |
| Identity.Registry.GetByKey | build/main.js:32-42 | the one-argument form looks up the first two comma-separated fields (a missing variant is `undefined`): a cached pair returns its instance and leaves the cache alone; an invalid pair fails and caches nothing; otherwise a fresh instance is cached under the pair's key. For a key of an identity this is the round trip `get(info.key)` |
| Identity.Registry.CacheBounded | build/main.js:36-40 | the cache holds only valid keys, at most ten |
| Identity.Registry.KeyFields | build/main.js:33-35 | a cached key splits into the names of the cached instance's context and variant |
| Strings.Split | build/main.js:34 | `split` always yields at least one field |
| Strings.SplitAtFirst | build/main.js:34 | splitting at the first separator yields the text before it followed by the split of the rest |
| Strings.SplitNoSeparator | build/main.js:34 | text without the separator splits into itself alone |
| Paths.Resolve | build/main.js:142 | the result of `Path.resolve` has no empty, `.` or `..` segments |
| Paths.ResolveIdempotent | build/main.js:142 | resolving a resolved path changes nothing |
| Paths.ResolveSibling | build/main.js:139 | `<dir>/<name>/../<sibling>` resolves to `<dir>/<sibling>` |
| Paths.CommonPrefix | build/main.js:143 | the common prefix is shared by both paths and cannot be extended |
| OutPaths.SafeAsWrittenExactly | build/main.js:143-145 | the guard as written accepts exactly the paths strictly inside `dist` plus the parent of `dist` |
| OutPaths.SafeExactly | build/main.js:143-145 | the corrected guard accepts exactly the paths strictly inside `dist` |
| OutPaths.ParentOfDistSlipsThrough | build/main.js:144 | with `dist` at `/app/dist`, the guard as written accepts `/app` and the corrected guard refuses it |
| OutPaths.DistinctProperties | build/main.js:140-148 | the set-to-array conversion has no repeated paths and holds exactly the paths of its input |
| OutPaths.AddOnce | build/main.js:146 | adding a path to the set keeps the paths seen so far in first-occurrence order, without repeats |
| OutPaths.ResolveAll | build/main.js:141-142 | each output path is resolved, in order |
| OutPaths.FirstUnsafe | build/main.js:141-145 | the index where the checks stop: every earlier path passes the corrected guard, and the path there (if any) fails it |
| OutPaths.FirstUnsafeNone | build/main.js:141-145 | the checks run to the end iff every path passes the corrected guard |
| OutPaths.ClearOutPaths | build/main.js:138-152 | with the corrected guard: success iff no resolved output path fails it; on success the distinct resolved paths to remove; on failure the first offending path, which nothing before it failed |
| BrowserList.QueryTableTotal | build/browserlist.config.js:8-14 | the table has a branch for every context, so the lookup without default never fails |
| BrowserList.Queries | build/browserlist.config.js:7-15 | client gets the four fixed queries, server `current node`, renderer and preload `chrome <version>`, electron `node <version>` |
| BrowserList.ElectronStackTargetsElectronVersions | build/browserlist.config.js:11-13 | a context targets the installed electron's chrome or node iff it is on the electron stack |
| Webpack.MakeEntry | build/webpack.config.js:35-41 | the base entry with the backend's source-map prepend and the development hot-reload prepend applied is the entry list `Entry` describes |
| Webpack.MakeExternals | build/webpack.config.js:186-187 | the resolver marker, `electron` on the electron stack, then the two node-module filters with their allowlist, as `Externals` describes |
| Webpack.MakeSandbox | build/webpack.config.js:22-25 | own side and `common`, plus the backend api modules for a frontend, as `Sandbox` describes |
| Webpack.MakeFilename | build/webpack.config.js:53-56 | the stack's file name, rewritten with a content hash only for the production client |
| Webpack.MakeConfig | build/webpack.config.js:31-513 | the step-by-step construction (initial literal, conditional prepends, pushes and the filename rewrite) yields exactly the configuration `ConfigFor` describes |
| Webpack.WebpackConfig | build/webpack.config.js:15-16 | empty context and variant default to client and development; a valid identity yields its configuration; a returned configuration always belongs to the requested key |
| Webpack.SandboxInclude | build/webpack.config.js:332-358 | the sandbox rule flags a path iff it is under `<root>/src/` and no sandbox pattern matches it |
| WebpackProperties.EntryOrder | build/webpack.config.js:436-442 | the context's own entry is last; backends put source-map support right before it; development puts the hot-reload client (signal listener for backends, hot middleware client for pages) first |
| WebpackProperties.OutputInsideDist | build/webpack.config.js:44-52 | every output path is strictly inside `<root>/dist`, so the output-path guard accepts it |
| WebpackProperties.OutputFolders | build/webpack.config.js:44-52 | renderer and preload write into electron's folder; client and server each write into their own |
| WebpackProperties.SharedFolderNamesDiffer | build/webpack.config.js:53-56 | the three electron-stack builds that share a folder have different file names |
| WebpackProperties.ContentHashOnlyForProductionClient | build/webpack.config.js:480-483 | the file name carries a content hash iff the build is the production client |
| WebpackProperties.PublicPathCases | build/webpack.config.js:57-61 | the public path is `./` iff renderer or preload in production, and `/<context>` otherwise |
| WebpackProperties.TargetCases | build/webpack.config.js:62-100 | the library target is unset exactly for frontend builds and `umd2` for backends; the target is `web` exactly for client and renderer |
| WebpackProperties.NodeExternalsCases | build/webpack.config.js:454-477 | node modules stay external iff server, or electron in development; `electron` is external exactly on the electron stack |
| WebpackProperties.AllowlistCases | build/webpack.config.js:454-477 | where node modules stay external, the api module is always bundled and the hot client iff development |
| WebpackProperties.HtmlIndexForPages | build/webpack.config.js:318-326 | an `index.html` is generated exactly for client and renderer |
| WebpackProperties.PatternsIsolate | build/webpack.config.js:331-374 | for any two side folders whose names start differently, the own side, `common` and everything outside `src` pass, and of the other side only its api modules, only for a frontend |
| WebpackProperties.SandboxIsolation | build/webpack.config.js:329-374 | paths outside `src`, under the own side or under `common` are never flagged; of the other side's sources only the backend's `*.api.js` modules pass, and only for a frontend build |
| ElectronPatch.ScanEndProperties | build/electron.patch.js:20-22 | the scan steps over `--require` flags two at a time and stops at the end or at the first non-`--require` at an odd offset |
| ElectronPatch.FixedArgvProperties | build/electron.patch.js:20-23 | `argv[0]` stays; the rest is a suffix of the old arguments that does not start with `--require`; every removed argument at an odd index is `--require`, and unless nothing is left an even number of arguments was removed, so only whole `--require <file>` pairs go |
| ElectronPatch.FixedArgvNoFlags | build/electron.patch.js:20-23 | arguments that do not start with `--require` after `argv[0]` are left alone |
| ElectronPatch.NodeProcess.ApplyPatch | build/electron.patch.js:9-23 | `electron` is appended to the builtin modules and `argv` becomes the fixed argument list |
| Orchestrator.StackSet | build/main.js:217-224 | no `--stack` option means both stacks; otherwise exactly the given ones |
| Orchestrator.InStacksMembers | build/main.js:274-278 | filtering by stack keeps exactly the contexts whose stack is selected |
| Orchestrator.InStacksAppend | build/main.js:274-278 | filtering distributes over concatenation, so the contexts keep their order |
| Orchestrator.DevelopContexts | build/main.js:228-237 | development with both stacks compiles only electron; otherwise server iff web and electron iff electron, in that order |
| Orchestrator.DevelopCompilesBackends | build/main.js:228-237 | outside the combined case `develop` compiles exactly the backend contexts of the selected stacks |
| Orchestrator.BuildContexts | build/main.js:274-278 | `build` compiles every context of the selected stacks in the order client, server, renderer, preload, electron |
| Orchestrator.InStacksAllContexts | build/main.js:274-278 | the selected contexts are client and server iff web, followed by renderer, preload and electron iff electron |
| Orchestrator.ContextConfig | build/main.js:133-135 | the config built for a known context and variant is that identity's configuration |
| Orchestrator.GetWebpackConfigs | build/main.js:131-136 | one configuration per context, in the order given |
| Orchestrator.ConfigsPassGate | build/main.js:238-239 | every configuration `develop` or `build` produces passes the output-path guard |
| Orchestrator.DropSpaces | build/main.js:185 | what a run of `\s+` consumes: the leading whitespace, leaving a suffix that is empty or starts with a non-space |
| Orchestrator.SplitSpaces | build/main.js:185 | splitting NODE_OPTIONS on whitespace always yields at least one token |
| Orchestrator.SplitNoSpaces | build/main.js:185 | text without whitespace is a single token |
| Orchestrator.SplitSpacesAt | build/main.js:185 | the first token runs up to the first whitespace, and the whole run of whitespace after it separates it from the rest |
| Orchestrator.SplitSpacesTokens | build/main.js:185 | no token holds whitespace |
| Orchestrator.StripFirstPairAt | build/main.js:186-191 | with the first `--require <pnp api>` pair at index i, exactly that pair is removed and every other token keeps its order |
| Orchestrator.StripFirstPairNone | build/main.js:186-191 | without such a pair the tokens are unchanged |
| Orchestrator.StripPnpRequire | build/main.js:186-191 | the loop removes the first adjacent pair and nothing else, so the token count drops by two or not at all |
| Orchestrator.RunElectron | build/main.js:178-206 | the launch `ElectronLaunch` describes: the electron main path comes first and the extra arguments follow; under Plug'n'Play the patch and api `--require` pairs are prepended and NODE_OPTIONS loses its pnp pair; an unset NODE_OPTIONS fails |
| Orchestrator.Run | build/main.js:154-169 | the processes `Launches` describes; development with both stacks starts one electron process ending in the three dev-server contexts; otherwise the server iff web, then electron iff electron |
| Orchestrator.Broadcast | build/main.js:260-261 | one SIGUSR2 to each started process, in order |
| Orchestrator.ReloadsAreLaterSuccesses | build/main.js:246-263 | the reloads are the finished compilations after the first, and startup is pending iff none has finished |
| Orchestrator.ReloadSignalsRounds | build/main.js:246-263 | fatal errors send nothing, the first finished compilation sends nothing, and every later one sends one full round of SIGUSR2 |
| Orchestrator.NoSignalsWhilePending | build/main.js:255-257 | no signal is sent before the first finished compilation |
| Orchestrator.WatchSession.constructor | build/main.js:241-243 | startup pending, no processes, nothing sent |
| Orchestrator.WatchSession.OnEvent | build/main.js:246-263 | a fatal error changes nothing; the first finished compilation releases startup and sends nothing; a later one sends SIGUSR2 to every started process |
| Orchestrator.WatchSession.Start | build/main.js:266 | the started processes become the ones the callback signals |
| Orchestrator.Prepare | build/main.js:238-239 | with a resolved project root, the guard passes and the distinct output folders are listed for removal |
| Orchestrator.Watch | build/main.js:240-270 | while no compilation has finished nothing is started or signalled; after the first, the processes started are those of `run(info, stack)` (or its error), and the signals sent are the reload rounds to them |
| Orchestrator.Develop | build/main.js:227-272 | compiles the `develop` contexts, clears exactly the distinct resolved output folders of those contexts and never fails the guard on a resolved root, starts the processes of `run(info, stack)` once a compilation has finished, fails exactly when that launch fails, and signals as the watch callback dictates |
| Orchestrator.Build | build/main.js:273-295 | compiles the `build` contexts after clearing their distinct output folders, and fails only on a fatal compiler error |
| Orchestrator.RunCommand | build/main.js:216-313 | the variant (default production) is checked before the command; an unknown command fails as not implemented; `package` always succeeds and acts iff electron is selected; `build` compiles the selected stacks, clears their distinct output folders and fails only on a fatal compiler error; `run` starts exactly the processes of `run(info, stack)` and fails iff that launch fails; `develop` compiles its contexts, clears their output folders, starts those processes after the first finished compilation and fails iff that launch fails; no guard failure on a resolved root |
| ServerEntry.ExtName | src/backend/main.server.js:47 | `Path.posix.extname` is empty or a dot followed by text without dots or slashes, ending the path |
| ServerEntry.ExtNameOfFile | src/backend/main.server.js:47 | a file `stem.ext` has the extension `.ext` |
| ServerEntry.IndexExtension | src/backend/main.server.js:48 | the index page has an extension, so it is not rewritten again |
| ServerEntry.ParseTarget | src/backend/main.server.js:38 | the parsed pathname starts with `/` and has no `?` or `#`; the search is empty or `?` with a non-empty query |
| ServerEntry.ParseFormat | src/backend/main.server.js:50 | formatting `pathname + search` and parsing it again gives back the same pathname and search |
| ServerEntry.HmrPassesThrough | src/backend/main.server.js:40-44 | in development the hot-reload endpoint's URL is untouched |
| ServerEntry.ExtensionlessGoesToIndex | src/backend/main.server.js:46-50 | a path without extension becomes `/client/index.html` and keeps its query string |
| ServerEntry.FilesKeepTheirPath | src/backend/main.server.js:46-50 | a path with an extension keeps its pathname and query string |
| ServerEntry.RewriteIdempotent | src/backend/main.server.js:36-52 | rewriting an already rewritten URL changes nothing |
| ServerEntry.Request.constructor | src/backend/main.server.js:36 | the request holds the given URL |
| ServerEntry.RewritePaths | src/backend/main.server.js:36-52 | `req.url` becomes the rewritten URL and `next` is called exactly once |
| ServerEntry.Configure | src/backend/main.server.js:55-63 | host defaults to localhost, port to 8080 and secure to "not development"; secure without key or certificate fails, and only then |
| ServerEntry.Url | src/backend/main.server.js:146-148 | the scheme is https iff secure, and the URL ends with `:<port>` |
| ServerEntry.ProductionNeedsCertificates | src/backend/main.server.js:58-63 | production with no options refuses to start |
| ServerEntry.DevelopmentDefaults | src/backend/main.server.js:55-61 | development with no options serves on `http://localhost:8080` |
| ServerEntry.DevContexts | src/backend/main.server.js:82-83 | the development server compiles `client` when no context is given, and the given contexts otherwise |
| ServerEntry.FirstUnknown | src/backend/main.server.js:84 | the first context name for which no configuration can be built (an empty name stands for `client`), if any |
| ServerEntry.Start | src/backend/main.server.js:62-84 | the checks before listening: they pass iff the options pass the secure check and, in development, a configuration can be built for every context; the result is the server URL |
| ServerEntry.EmptyContextStarts | src/backend/main.server.js:82-84 | an empty context name compiles the client, so it starts the same server as no name |
| ServerEntry.SecureStartServesHttps | src/backend/main.server.js:116-124 | as intended, a secure server that passes the checks listens on https |
| ServerEntry.StartAsWritten | src/backend/main.server.js:116-124 | as written, a server starts iff the checks pass and it is not secure; the secure branch always fails |
| ServerEntry.SecureStartFailsAsWritten | src/backend/main.server.js:118 | production with a key and a certificate: as intended it listens on `https://localhost:8080`, as written it fails |
| ElectronEntry.TakeLine | src/backend/main.electron.js:36 | what `(.+)` captures: the longest prefix without a line terminator |
| ElectronEntry.Renamed | src/backend/main.electron.js:40 | the new name starts with the lower-cased letter |
| ElectronEntry.RenamedPlain | src/backend/main.electron.js:36-40 | `devServer` + capital + rest (no line breaks) matches and becomes lower-cased letter + rest |
| ElectronEntry.RenamedInjective | src/backend/main.electron.js:36-41 | option names without line breaks never collide after renaming |
| ElectronEntry.ExtractDevServer | src/backend/main.electron.js:31-44 | production leaves the options alone; development removes every matching option, keeps every other one unchanged, and attaches `devServer` holding each matching option's value under its new name |
| ElectronEntry.ExtractedValues | src/backend/main.electron.js:35-42 | with no line breaks in option names, each matching option's value arrives under its own new name |
| ElectronEntry.DevServerContexts | src/backend/main.electron.js:113-114 | renderer and preload when no context is given, the given contexts otherwise |
| ElectronEntry.DevServerOptions | src/backend/main.electron.js:105-120 | each dev-server option is passed on under its own name and an unset one stays unset, so the server's defaults apply |
| ElectronEntry.WindowUrl | src/backend/main.electron.js:99-122 | production loads `file://<dirname>/index.html`; development loads `<server url>/renderer/index.html`, over https iff the server is secure, and fails iff the server's checks fail |
| ElectronEntry.DefaultDevServerStart | src/backend/main.electron.js:105-120 | example (one input): with no dev-server options the integrated server starts on `http://localhost:8080` |
| ElectronEntry.DevWindowFromStart | src/backend/main.electron.js:115-122 | the window URL is the server URL followed by the renderer page |
| ElectronEntry.DefaultDevWindow | src/backend/main.electron.js:99-122 | example (one input): with no dev-server options the window loads `http://localhost:8080/renderer/index.html` |

## Left out

- Processes, file system and I/O are parameters or results. The model does not perform:
  - `ChildProcess.fork` and `spawn`, `waitForExit` and signal delivery;
  - `Fs.remove`, `require.resolve`, `console` output;
  - webpack's compiler, its `run` and `watch`, and `watching.close`.

  Compilation outcomes are given as a flag for `build` and as a list of watcher reports for `develop`. The `develop` session ends when that list does.
- `package` only records whether electron packaging would run. electron-builder and build/electron-builder.config.js are not part of this model.
- Command-line parsing (`parseArgv` in all three entry points) is not modelled. Options arrive as values.
- Dispatch.Select: does not model that `key in obj` also sees inherited properties such as `toString`, nor that `select('default', …)` calls the default branch without an argument. The build scripts never pass such keys.
- Branches of `select` are thunks in the source, and `Dispatch.Select` holds their values. Two kinds of branch have effects:
  - the side branches at build/webpack.config.js:368-398 push onto `sandbox` and `config.plugins`; the model adds the sandbox entry in `MakeSandbox`, and plugins are not modelled;
  - the browserslist branches at build/browserlist.config.js:11-13 query the installed electron; the versions are parameters.
- Webpack.MakeConfig: applies the source's steps grouped by field (`MakeEntry`, `MakeExternals`, `MakeSandbox`, `MakeFilename`) rather than in the source's interleaved order. The externals step reads `config.plugins` and `config.resolve.plugins` (build/webpack.config.js:456-458). The model replaces those reads by the conditions under which the plugins were pushed: hot reload iff development, the api server plugin iff backend, and the pnp plugin always. No step whose result the model keeps reads a field another step writes, so the regrouping gives the same values for every modelled field. Two unmodelled results do read such fields: the eslint globals (build/webpack.config.js:415) read `config.plugins` after the Vue, HTML and api steps pushed onto it, and the `IS_ENTRY_MODULE` runtime value (:147) iterates `config.entry` after the prepends at :183 and :437.
- Webpack.WebpackConfig: only the empty string stands for a missing `env.context` or `env.variant`. `undefined` and `null` are not separate values here.
- The lazily cached `BuildInfo` getters are not modelled:
  - `webpackConfig`, `babelConfigPath`, `postcssConfigPath`, `browserListConfig`, `eslintConfig` and `electronBuilderConfig`;
  - the configuration is a deterministic function of the identity, so caching it is not observable.
- Loader and plugin objects of the webpack configuration are not modelled. These are babel, eslint, postcss, vue, source maps, define, api client and server plugins, pnp and chunk splitting, and the `externals` resolver callback. The callback appears only as a marker entry.
- Orchestrator.GetWebpackConfigs: takes contexts already parsed. The source throws on an unknown name. build/main.js only ever passes valid ones; the server's development contexts (src/backend/main.server.js:84) are names the user typed, and those are checked by `ServerEntry.FirstUnknown`.
- ServerEntry.ParseTarget: treats every request target as a path relative to `http://localhost`. It covers pathname, query and fragment only. It does not cover:
  - absolute-form targets: for `http://h/a.js` the URL parser gives the pathname `/a.js`, the model `/http://h/a.js`;
  - scheme-relative `//host` targets;
  - dot-segment removal, percent-encoding, backslashes.
- ServerEntry.Configure: an option is either set or left unset (`undefined`). An explicit `null` is not modelled. The port is kept as text.
- Express, HTTP and HTTPS servers, TLS file reading, the 404 handler and the electron `BrowserWindow`, `app` and IPC setup are not modelled. Neither is the window loop.
- ElectronEntry.ExtractDevServer: does not say which value wins when two options differ only after a line break and so land on the same name. It states only that the stored value is one of theirs. Option names are matched as Unicode scalar values, not UTF-16 code units.
- ElectronEntry.ExtractDevServer assumes the option parser returns the same options object it was given. It therefore assumes that deletions and the `devServer` entry are seen by the caller.
- The electron version query is a parameter of `BrowserList.Queries`.
- OutPaths.ClearOutPaths: applies the corrected guard `Safe`, not the guard as written at build/main.js:144. As written, the parent of `dist` also passes and would be removed (see Findings).
- OutPaths.FirstUnsafe: is stated with the corrected guard, as `ClearOutPaths` uses it.
- OutPaths.FirstUnsafeNone: is stated with the corrected guard, as `ClearOutPaths` uses it.
- ServerEntry.Start: stops at the point where the server would listen. As written, a secure server then fails at src/backend/main.server.js:118 (see Findings); `Start` gives the intended result.
- ElectronEntry.WindowUrl: follows the intended `Start`. As written, a secure integrated server fails, so no development window opens over https.
- Orchestrator.WatchSession.OnEvent: only webpack's fatal `err` counts as a failure. The callback never reads `stats.hasErrors()`, so a compilation with errors releases startup and later sends SIGUSR2 like any other.
- Orchestrator.Build: `completed` is false only for a fatal `err` from `compiler.run`. Compilation errors inside `stats` do not fail the command.
- Orchestrator.Run: when the server is forked and the electron launch then fails (Plug'n'Play with NODE_OPTIONS unset), the source has already started the server. The model returns only the error.

## Findings

| source | as written | input that shows it | evidently intended | confidence | as-written member | corrected member |
|---|---|---|---|---|---|---|
| build/main.js:144 | the guard refuses a relative path that is empty, starts with `../` or is absolute, so the relative path `..` passes | with `dist` at `/app/dist`, an output path of `/app` gives relative path `..` and would be wiped (the whole project) | only paths strictly inside `dist` may be wiped | not executed; no shipped configuration produces such a path | OutPaths.ParentOfDistSlipsThrough | OutPaths.SafeExactly |
| src/backend/main.server.js:118 | the key and certificate reads are destructured as an array straight from `Promise.all`, without `await`; a promise is not iterable, so the secure branch throws a `TypeError` | production with `--key-file` and `--cert-file` given: the checks pass and `main` then fails | await the reads, so that a secure server listens on `https://<host>:<port>` | not executed; follows from the language's destructuring rules | ServerEntry.SecureStartFailsAsWritten | ServerEntry.SecureStartServesHttps |
