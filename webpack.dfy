/**
 * The data part of the bundler configuration built by
 * build/webpack.config.js for one build identity: entries, output
 * location and naming, target, which modules stay external, the sandbox
 * rule that keeps each side from importing the other side's sources, and
 * the minimisation and HTML switches. Loader and plugin objects are not
 * modelled; where the source asks whether a plugin is present, the model
 * keeps the condition under which it was added.
 */
module Webpack {
  import opened Wrappers
  import opened Strings
  import opened Dispatch
  import opened Identity
  import opened Paths

  /** One entry of `config.externals`. */
  datatype External =
    | ResolveBuildScript                     // the resolver callback that keeps build/main.js external
    | ElectronModule                         // `{electron: 'commonjs2 electron'}`
    | NodeModules(allowlist: seq<string>)    // `WebpackNodeExternals({allowlist})`
    | PnpModules(exclude: seq<string>)       // `WebpackPnpExternals({exclude})`

  /** One entry of the sandbox list. */
  datatype SandboxPattern =
    | Prefix(dir: string)          // a string pattern: `path.startsWith(dir)`
    | ApiModules(dir: string)      // the function pattern: under `dir` and matching `/\.api\.js$/i`

  datatype Config = Config(
    name: string,
    mode: string,
    entry: seq<string>,
    outputPath: PathSegments,
    filename: string,
    publicPath: string,
    libraryTarget: Option<string>,
    target: string,
    nodeShims: bool,
    externals: seq<External>,
    sourceDir: string,
    sandbox: seq<SandboxPattern>,
    hotReload: bool,
    htmlIndex: bool,
    minimize: bool)

  const SourceMapSupport := "source-map-support/register"
  const HotSignal := "webpack/hot/signal"
  const HotPattern := "^webpack\\/hot\\/"
  const ServerApiPattern := "^webpack-api-plugin\\/api(\\?|$)"

  function BaseEntry(c: Context): string {
    match c
    case Client => "./src/frontend/main.js"
    case Server => "./src/backend/main.server.js"
    case Renderer => "./src/frontend/main.js"
    case Preload => "./src/frontend/preload.renderer.js"
    case Electron => "./src/backend/main.electron.js"
  }

  /** The hot-reload client prepended in development. */
  function HotEntry(c: Context): string {
    match SideOf(c)
    case Frontend => "webpack-hot-middleware/client?name=" + ContextName(c) + "&noInfo=true"
    case Backend => HotSignal
  }

  /** The entry list once every prepend has been applied. */
  function Entry(c: Context, v: Variant): seq<string> {
    (if v == Development then [HotEntry(c)] else [])
    + (if SideOf(c) == Backend then [SourceMapSupport] else [])
    + [BaseEntry(c)]
  }

  /** The folder under `dist/<variant>`: renderer and preload share electron's. */
  function OutputDir(c: Context): string {
    Select(ContextName(c), map["renderer" := "electron", "preload" := "electron"],
           Some((_: string) => ContextName(c))).value
  }

  function OutputPath(root: PathSegments, c: Context, v: Variant): PathSegments {
    root + ["dist", ShortVariant(v), OutputDir(c)]
  }

  function StackFilename(c: Context): string {
    match StackOf(c)
    case Web => "[name].js"
    case ElectronStack => "[name]." + ContextName(c) + ".js"
  }

  /** `filename.replace(/\.js$/i, '.[contenthash].js')` */
  function WithContentHash(filename: string): string {
    if EndsWithIgnoreCase(filename, ".js") then filename[..|filename| - 3] + ".[contenthash].js"
    else filename
  }

  function Filename(c: Context, v: Variant): string {
    if c == Client && v == Production then WithContentHash(StackFilename(c)) else StackFilename(c)
  }

  function PublicPathTable(): map<string, string> {
    map["renderer,production" := "./", "preload,production" := "./"]
  }

  function PublicPath(c: Context, v: Variant): string {
    Select(KeyFor(c, v), PublicPathTable(), Some((_: string) => "/" + ContextName(c))).value
  }

  function LibraryTarget(c: Context): Option<string> {
    match SideOf(c)
    case Frontend => None
    case Backend => Some("umd2")
  }

  function Target(c: Context): string {
    match c
    case Client => "web"
    case Server => "async-node"
    case Renderer => "web"
    case Preload => "electron-preload"
    case Electron => "electron-main"
  }

  /** Node modules stay outside the bundle for the server, and for electron in development. */
  predicate NodeExternalsApply(c: Context, v: Variant) {
    c == Server || (c == Electron && v == Development)
  }

  /** What the node-externals filters still bundle: the hot-reload client when present, the api module when the server api plugin is present. */
  function ExternalsAllowlist(c: Context, v: Variant): seq<string> {
    (if v == Development then [HotPattern] else [])
    + (if SideOf(c) == Backend then [ServerApiPattern] else [])
  }

  function Externals(c: Context, v: Variant): seq<External> {
    [ResolveBuildScript]
    + (if StackOf(c) == ElectronStack then [ElectronModule] else [])
    + (if NodeExternalsApply(c, v)
       then [NodeModules(ExternalsAllowlist(c, v)), PnpModules(ExternalsAllowlist(c, v))]
       else [])
  }

  function OtherSide(s: Side): Side {
    match s
    case Frontend => Backend
    case Backend => Frontend
  }

  function SourceDir(root: PathSegments): string {
    PathString(root) + "/src/"
  }

  /** Own side and `common` are always allowed; the frontend may also reach the backend's `*.api.js` modules. */
  function Sandbox(root: PathSegments, c: Context): seq<SandboxPattern> {
    [Prefix(SourceDir(root) + SideName(SideOf(c)) + "/"), Prefix(SourceDir(root) + "common/")]
    + (if SideOf(c) == Frontend
       then [ApiModules(SourceDir(root) + SideName(OtherSide(SideOf(c))) + "/api/")]
       else [])
  }

  /** The whole data part of the configuration of one identity, field by field. */
  function ConfigFor(root: PathSegments, c: Context, v: Variant): Config {
    Config(
      name := ContextName(c),
      mode := VariantName(v),
      entry := Entry(c, v),
      outputPath := OutputPath(root, c, v),
      filename := Filename(c, v),
      publicPath := PublicPath(c, v),
      libraryTarget := LibraryTarget(c),
      target := Target(c),
      nodeShims := SideOf(c) == Frontend,
      externals := Externals(c, v),
      sourceDir := SourceDir(root),
      sandbox := Sandbox(root, c),
      hotReload := v == Development,
      htmlIndex := SideOf(c) == Frontend && c != Preload,
      minimize := v == Production)
  }

  /** `config.entry`: the base entry, then the source-map prepend for node, then the hot-reload prepend in development. */
  method MakeEntry(c: Context, v: Variant) returns (entry: seq<string>)
    ensures entry == Entry(c, v)
  {
    entry := [BaseEntry(c)];
    // node needs source-map-support to map stack traces
    if SideOf(c) == Backend {
      entry := [SourceMapSupport] + entry;
    }
    if v == Development {
      entry := [HotEntry(c)] + entry;
    }
  }

  /** `config.externals`: the build-script resolver, electron on its stack, then the node-module filters. */
  method MakeExternals(c: Context, v: Variant) returns (externals: seq<External>)
    ensures externals == Externals(c, v)
  {
    externals := [ResolveBuildScript];
    // electron itself is never bundled on the electron stack
    if StackOf(c) == ElectronStack {
      externals := externals + [ElectronModule];
    }
    var hotReload := v == Development;
    var serverApi := SideOf(c) == Backend;
    if c == Server || (c == Electron && v == Development) {
      var exclude := [];
      if hotReload {
        exclude := exclude + [HotPattern];
      }
      if serverApi {
        exclude := exclude + [ServerApiPattern];
      }
      assert exclude == ExternalsAllowlist(c, v);
      externals := externals + [NodeModules(exclude)];
      externals := externals + [PnpModules(exclude)];
    }
  }

  /** The sandbox list: own side and `common`, then the other side's api modules for the frontend. */
  method MakeSandbox(root: PathSegments, c: Context) returns (sandbox: seq<SandboxPattern>)
    ensures sandbox == Sandbox(root, c)
  {
    var srcDir := PathString(root) + "/src/";
    var side := SideOf(c);
    sandbox := [Prefix(srcDir + SideName(side) + "/"), Prefix(srcDir + "common/")];
    if side == Frontend {
      sandbox := sandbox + [ApiModules(srcDir + SideName(OtherSide(side)) + "/api/")];
    }
  }

  /** `output.filename`: by stack, with a content hash for the production client. */
  method MakeFilename(c: Context, v: Variant) returns (filename: string)
    ensures filename == Filename(c, v)
  {
    filename := StackFilename(c);
    if c == Client && v == Production {
      filename := WithContentHash(filename);
    }
  }

  /**
   * The exported config function after the identity is known: the initial
   * literal, then the conditional prepends, pushes and rewrites the source
   * applies, gathered field by field.
   */
  method MakeConfig(root: PathSegments, c: Context, v: Variant) returns (config: Config)
    ensures config == ConfigFor(root, c, v)
  {
    var side := SideOf(c);
    var entry := MakeEntry(c, v);
    var externals := MakeExternals(c, v);
    var sandbox := MakeSandbox(root, c);
    var filename := MakeFilename(c, v);
    var htmlIndex := false;
    if side == Frontend && c != Preload {
      htmlIndex := true;
    }
    var hotReload := false;
    if v == Development {
      hotReload := true;
    }
    config := Config(
      name := ContextName(c),
      mode := VariantName(v),
      entry := entry,
      outputPath := root + ["dist", ShortVariant(v), OutputDir(c)],
      filename := filename,
      publicPath := PublicPath(c, v),
      libraryTarget := LibraryTarget(c),
      target := Target(c),
      nodeShims := side == Frontend,
      externals := externals,
      sourceDir := PathString(root) + "/src/",
      sandbox := sandbox,
      hotReload := hotReload,
      htmlIndex := htmlIndex,
      minimize := v == Production);
  }

  /**
   * The exported config function: `env.context` and `env.variant` default to
   * `client` and `development` when empty, and the identity comes from the
   * registry.
   */
  method WebpackConfig(registry: Registry, root: PathSegments, envContext: string, envVariant: string)
    returns (r: Result<Config, BuildError>)
    requires registry.Valid()
    modifies registry
    ensures registry.Valid()
    ensures var context := if envContext == "" then "client" else envContext;
            var variant := if envVariant == "" then "development" else envVariant;
            && (Validate(context, variant).Ok? ==>
                  r == Ok(ConfigFor(root, Validate(context, variant).value.0, Validate(context, variant).value.1)))
            && (r.Ok? ==> exists c, v :: KeyFor(c, v) == KeyOf(context, variant) && r.value == ConfigFor(root, c, v))
  {
    var context := if envContext == "" then "client" else envContext;
    var variant := if envVariant == "" then "development" else envVariant;
    var info := registry.Get(context, variant);
    match info {
      case Err(e) =>
        return Err(e);
      case Ok(bi) =>
        if Validate(context, variant).Ok? {
          var cv := Validate(context, variant).value;
          KeyInjective(bi.context, bi.variant, cv.0, cv.1);
        }
        var config := MakeConfig(root, bi.context, bi.variant);
        return Ok(config);
    }
  }

  /** `isMatch(pattern, path)` for the two kinds of pattern the sandbox holds. */
  predicate IsMatch(pattern: SandboxPattern, path: string) {
    match pattern
    case Prefix(dir) => StartsWith(path, dir)
    case ApiModules(dir) => StartsWith(path, dir) && EndsWithIgnoreCase(path, ".api.js")
  }

  /** The sandbox rule fires on a source file that no sandbox pattern allows. */
  predicate SandboxRejects(config: Config, path: string) {
    StartsWith(path, config.sourceDir) && forall i :: 0 <= i < |config.sandbox| ==> !IsMatch(config.sandbox[i], path)
  }

  /** The `include` callback of the sandbox rule. */
  method SandboxInclude(config: Config, path: string) returns (flagged: bool)
    ensures flagged <==> SandboxRejects(config, path)
  {
    if !StartsWith(path, config.sourceDir) {
      return false;
    }
    for i := 0 to |config.sandbox|
      invariant forall j :: 0 <= j < i ==> !IsMatch(config.sandbox[j], path)
    {
      if IsMatch(config.sandbox[i], path) {
        return false;
      }
    }
    return true;
  }
}

module WebpackProperties {
  import opened Wrappers
  import opened Strings
  import opened Dispatch
  import opened Identity
  import opened Paths
  import opened OutPaths
  import opened Webpack

  /** Every output directory is `dist/<variant>/<folder>`, strictly inside `dist`, so the output-path guard accepts it. */
  lemma {:induction false} OutputInsideDist(root: PathSegments, c: Context, v: Variant)
    requires Resolved(root)
    ensures StrictDescendant(OutputPath(root, c, v), root + ["dist"])
    ensures Safe(DistDir(root + ["build"]), Resolve(OutputPath(root, c, v)))
  {
    var p := OutputPath(root, c, v);
    assert OutputDir(c) in {"client", "server", "electron"};
    assert Resolved(p) by {
      assert forall i :: 0 <= i < |root| ==> p[i] == root[i];
    }
    assert p[..|root + ["dist"]|] == root + ["dist"];
    ResolveIdempotent(p);
    ResolveSibling(root, "build", "dist");
    assert root + ["build"] + ["..", "dist"] == root + ["build", "..", "dist"];
    SafeExactly(root + ["dist"], p);
  }

  /** Renderer, preload and electron write into one folder; the web contexts each have their own. */
  lemma OutputFolders(root: PathSegments, c: Context, v: Variant)
    ensures StackOf(c) == ElectronStack ==> OutputPath(root, c, v) == OutputPath(root, Electron, v)
    ensures StackOf(c) == Web ==> OutputPath(root, c, v) == root + ["dist", ShortVariant(v), ContextName(c)]
    ensures OutputPath(root, Client, v) != OutputPath(root, Server, v)
  {
    assert OutputPath(root, Client, v)[|root| + 2] == "client";
    assert OutputPath(root, Server, v)[|root| + 2] == "server";
  }

  lemma {:induction false} InfixInjective(a: string, x: string, y: string, b: string)
    requires a + x + b == a + y + b
    ensures x == y
  {
    var s := a + x + b;
    assert |x| == |y|;
    assert x == s[|a|..|a| + |x|];
  }

  /** The three contexts that share electron's folder get different file names there. */
  lemma {:induction false} SharedFolderNamesDiffer(c: Context, c': Context, v: Variant)
    requires StackOf(c) == ElectronStack && StackOf(c') == ElectronStack && c != c'
    ensures Filename(c, v) != Filename(c', v)
  {
    if Filename(c, v) == Filename(c', v) {
      InfixInjective("[name].", ContextName(c), ContextName(c'), ".js");
      ParseContextName(c);
      ParseContextName(c');
    }
  }

  /** Only the production client bundle carries a content hash in its file name. */
  lemma ContentHashOnlyForProductionClient(c: Context, v: Variant)
    ensures Filename(c, v) == "[name].[contenthash].js" <==> c == Client && v == Production
  {
    if c == Client && v == Production {
      ProductionClientFilename();
    } else {
      StackFilenameShort(c);
      assert Filename(c, v) == StackFilename(c);
    }
  }

  lemma ProductionClientFilename()
    ensures Filename(Client, Production) == "[name].[contenthash].js"
  {
    assert StackFilename(Client) == "[name]" + ".js";
    WithContentHashOf("[name]");
  }

  lemma WithContentHashOf(stem: string)
    ensures WithContentHash(stem + ".js") == stem + ".[contenthash].js"
  {
    var s := stem + ".js";
    assert s[|s| - 3..] == ".js" && s[..|s| - 3] == stem;
    assert Lower(".js") == ".js";
  }

  lemma StackFilenameShort(c: Context)
    ensures |StackFilename(c)| < |"[name].[contenthash].js"|
  {
    match c
    case Client =>
    case Server =>
    case Renderer =>
    case Preload =>
    case Electron =>
  }

  /** Assets are addressed relative to the page only for production renderer and preload; otherwise under `/<context>`. */
  lemma {:induction false} PublicPathCases(c: Context, v: Variant)
    ensures PublicPath(c, v) == "./" <==> c in {Renderer, Preload} && v == Production
    ensures !(c in {Renderer, Preload} && v == Production) ==> PublicPath(c, v) == "/" + ContextName(c)
  {
    var t := PublicPathTable();
    assert KeyFor(Renderer, Production) == "renderer,production";
    assert KeyFor(Preload, Production) == "preload,production";
    if KeyFor(c, v) == "renderer,production" {
      KeyInjective(c, v, Renderer, Production);
    }
    if KeyFor(c, v) == "preload,production" {
      KeyInjective(c, v, Preload, Production);
    }
    assert ("/" + ContextName(c))[0] == '/';
  }

  /**
   * Node modules stay external exactly for the server and the development
   * electron build; electron itself exactly on the electron stack.
   */
  lemma NodeExternalsCases(c: Context, v: Variant)
    ensures NodeModules(ExternalsAllowlist(c, v)) in Externals(c, v) <==> c == Server || (c == Electron && v == Development)
    ensures (exists a :: NodeModules(a) in Externals(c, v)) <==> c == Server || (c == Electron && v == Development)
    ensures ElectronModule in Externals(c, v) <==> StackOf(c) == ElectronStack
  {
    if !NodeExternalsApply(c, v) {
      forall a ensures NodeModules(a) !in Externals(c, v) {
        assert Externals(c, v) == [ResolveBuildScript] + (if StackOf(c) == ElectronStack then [ElectronModule] else []);
      }
    }
  }

  /** Where node modules stay external, the server api module is always bundled, and the hot-reload client in development. */
  lemma AllowlistCases(c: Context, v: Variant)
    ensures NodeExternalsApply(c, v) ==>
              ServerApiPattern in ExternalsAllowlist(c, v)
              && (HotPattern in ExternalsAllowlist(c, v) <==> v == Development)
  {
    AllowlistPatternsDiffer();
  }

  lemma AllowlistPatternsDiffer()
    ensures HotPattern != ServerApiPattern
  {
    assert |HotPattern| != |ServerApiPattern|;
  }

  /**
   * The context's own entry comes last; a backend puts source-map support
   * right before it; development puts the hot-reload client first, the
   * signal listener for a backend and the hot middleware client for a page.
   */
  lemma EntryOrder(c: Context, v: Variant)
    ensures var e := Entry(c, v);
            && |e| == 1 + (if v == Development then 1 else 0) + (if SideOf(c) == Backend then 1 else 0)
            && e[|e| - 1] == BaseEntry(c)
            && (SideOf(c) == Backend ==> e[|e| - 2] == SourceMapSupport)
            && (SourceMapSupport in e <==> SideOf(c) == Backend)
            && (v == Development ==> e[0] == (if SideOf(c) == Backend then HotSignal
                                              else "webpack-hot-middleware/client?name=" + ContextName(c) + "&noInfo=true"))
  {
    var e := Entry(c, v);
    assert BaseEntry(c) != SourceMapSupport by {
      assert BaseEntry(c)[0] == '.' && SourceMapSupport[0] == 's';
    }
    if v == Development {
      assert HotEntry(c) != SourceMapSupport by {
        assert SourceMapSupport[0] == 's';
        assert SideOf(c) == Backend ==> HotEntry(c)[0] == 'w';
        assert SideOf(c) == Frontend ==> HotEntry(c)[0] == 'w';
      }
    }
  }

  /** Pages are built for the browser, backends as `umd2` libraries for node or electron. */
  lemma TargetCases(c: Context)
    ensures LibraryTarget(c) == None <==> SideOf(c) == Frontend
    ensures LibraryTarget(c) != None ==> LibraryTarget(c) == Some("umd2")
    ensures Target(c) == "web" <==> c in {Client, Renderer}
  {
    assert Target(Server) != "web" && Target(Preload) != "web" && Target(Electron) != "web" by {
      assert |Target(Server)| != 3 && |Target(Preload)| != 3 && |Target(Electron)| != 3;
    }
  }

  /** Exactly the contexts loaded as a page get a generated `index.html`. */
  lemma HtmlIndexForPages(root: PathSegments, c: Context, v: Variant)
    ensures ConfigFor(root, c, v).htmlIndex <==> c in {Client, Renderer}
  {
  }

  lemma PrefixOfPrefix(path: string, a: string, b: string)
    requires StartsWith(path, a + b)
    ensures StartsWith(path, a)
  {
    assert path[..|a|] == (a + b)[..|a|];
  }

  /** Two directories of one parent whose names start differently hold no common path. */
  lemma SiblingsDisjoint(base: string, a: string, b: string, path: string)
    requires |a| > 0 && |b| > 0 && a[0] != b[0]
    ensures !(StartsWith(path, base + a) && StartsWith(path, base + b))
  {
    assert StartsWith(path, base + a) ==> path[|base|] == (base + a)[|base|] == a[0];
    assert StartsWith(path, base + b) ==> path[|base|] == (base + b)[|base|] == b[0];
  }

  /** The sandbox patterns of one side, written out over the source folder and the two side names. */
  function SidePatterns(src: string, own: string, other: string, frontend: bool): seq<SandboxPattern> {
    [Prefix(src + own + "/"), Prefix(src + "common/")]
    + (if frontend then [ApiModules(src + other + "/api/")] else [])
  }

  /** The isolation argument for any two side folders whose names start differently, neither with `c`. */
  lemma {:induction false} PatternsIsolate(cfg: Config, own: string, other: string, frontend: bool, path: string)
    requires |own| > 0 && |other| > 0 && own[0] != other[0] && other[0] != 'c'
    requires cfg.sandbox == SidePatterns(cfg.sourceDir, own, other, frontend)
    ensures var src := cfg.sourceDir;
            && (!StartsWith(path, src) ==> !SandboxRejects(cfg, path))
            && (StartsWith(path, src + own + "/") ==> !SandboxRejects(cfg, path))
            && (StartsWith(path, src + "common/") ==> !SandboxRejects(cfg, path))
            && (StartsWith(path, src + other + "/") ==>
                  (SandboxRejects(cfg, path) <==>
                     !(frontend && StartsWith(path, src + other + "/api/") && EndsWithIgnoreCase(path, ".api.js"))))
  {
    var src := cfg.sourceDir;
    assert cfg.sandbox[0] == Prefix(src + own + "/");
    assert cfg.sandbox[1] == Prefix(src + "common/");
    if StartsWith(path, src + other + "/") {
      assert src + other + "/" == src + (other + "/");
      PrefixOfPrefix(path, src, other + "/");
      assert src + own + "/" == src + (own + "/");
      SiblingsDisjoint(src, own + "/", other + "/", path);
      SiblingsDisjoint(src, "common/", other + "/", path);
      if frontend {
        assert cfg.sandbox[2] == ApiModules(src + other + "/api/");
      }
    }
  }

  /**
   * The sandbox lets a build import its own side's sources, `common` and
   * anything outside `src`; of the other side's sources it lets through only
   * the backend's `*.api.js` modules, and only to a frontend build.
   */
  lemma SandboxIsolation(root: PathSegments, c: Context, v: Variant, path: string)
    ensures var cfg := ConfigFor(root, c, v);
            var src := SourceDir(root);
            && (!StartsWith(path, src) ==> !SandboxRejects(cfg, path))
            && (StartsWith(path, src + SideName(SideOf(c)) + "/") ==> !SandboxRejects(cfg, path))
            && (StartsWith(path, src + "common/") ==> !SandboxRejects(cfg, path))
            && (StartsWith(path, src + SideName(OtherSide(SideOf(c))) + "/") ==>
                  (SandboxRejects(cfg, path) <==>
                     !(SideOf(c) == Frontend
                       && StartsWith(path, src + SideName(Backend) + "/api/")
                       && EndsWithIgnoreCase(path, ".api.js"))))
  {
    var cfg := ConfigFor(root, c, v);
    var own := SideName(SideOf(c));
    var other := SideName(OtherSide(SideOf(c)));
    SideNamesDiffer(SideOf(c));
    assert cfg.sandbox == SidePatterns(cfg.sourceDir, own, other, SideOf(c) == Frontend);
    PatternsIsolate(cfg, own, other, SideOf(c) == Frontend, path);
  }

  lemma SideNamesDiffer(s: Side)
    ensures var own := SideName(s);
            var other := SideName(OtherSide(s));
            && |own| > 0 && |other| > 0 && own[0] != other[0] && other[0] != 'c'
  {
  }
}
