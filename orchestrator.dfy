/**
 * The command layer of build/main.js: which contexts each command compiles,
 * the output-path gate before compiling, the processes `run` starts and how
 * the electron process is launched, the watch callback of `develop` that
 * releases startup on the first finished compilation and sends a reload
 * signal after every later one, and the dispatch of the four commands.
 */
module Orchestrator {
  import opened Wrappers
  import opened Strings
  import opened Identity
  import opened Paths
  import opened OutPaths
  import opened Webpack
  import opened WebpackProperties

  //---------------------------------------------------------------- contexts

  /** `stack` after defaulting: no `--stack` option means both stacks. */
  function StackSet(stackOption: seq<string>): (s: set<string>)
    ensures stackOption == [] ==> s == {"web", "electron"}
    ensures stackOption != [] ==> forall x :: x in s <==> x in stackOption
  {
    if stackOption == [] then {"web", "electron"} else set x | x in stackOption
  }

  predicate Selected(stack: set<string>, c: Context) {
    StackName(StackOf(c)) in stack
  }

  /** The contexts of `cs`, in order, whose stack is selected. */
  function InStacks(cs: seq<Context>, stack: set<string>): (r: seq<Context>)
    ensures |r| <= |cs|
  {
    if cs == [] then []
    else (if Selected(stack, cs[0]) then [cs[0]] else []) + InStacks(cs[1..], stack)
  }

  /** Filtering keeps exactly the contexts whose stack is selected. */
  lemma {:induction false} InStacksMembers(cs: seq<Context>, stack: set<string>)
    ensures forall c :: c in InStacks(cs, stack) <==> c in cs && Selected(stack, c)
  {
    if cs != [] {
      InStacksMembers(cs[1..], stack);
      assert cs == [cs[0]] + cs[1..];
    }
  }

  /** Filtering distributes over concatenation, so the order of the input is kept. */
  lemma {:induction false} InStacksAppend(a: seq<Context>, b: seq<Context>, stack: set<string>)
    ensures InStacks(a + b, stack) == InStacks(a, stack) + InStacks(b, stack)
  {
    if a == [] {
      assert a + b == b;
    } else {
      InStacksAppend(a[1..], b, stack);
      var head := if Selected(stack, a[0]) then [a[0]] else [];
      TailOfAppend(a, b);
      calc {
        InStacks(a + b, stack);
        head + InStacks(a[1..] + b, stack);
        head + (InStacks(a[1..], stack) + InStacks(b, stack));
        { AppendAssoc(head, InStacks(a[1..], stack), InStacks(b, stack)); }
        (head + InStacks(a[1..], stack)) + InStacks(b, stack);
        InStacks(a, stack) + InStacks(b, stack);
      }
    }
  }

  lemma TailOfAppend<T>(a: seq<T>, b: seq<T>)
    requires a != []
    ensures (a + b)[0] == a[0] && (a + b)[1..] == a[1..] + b
  {
  }

  lemma AppendAssoc<T>(a: seq<T>, b: seq<T>, c: seq<T>)
    ensures a + (b + c) == (a + b) + c
  {
  }

  /** In development with both stacks, the server runs inside electron. */
  predicate Combined(variant: Variant, stack: set<string>) {
    variant == Development && "web" in stack && "electron" in stack
  }

  /** The contexts `develop` compiles, as a value. */
  function DevelopedContexts(variant: Variant, stack: set<string>): seq<Context> {
    if Combined(variant, stack) then [Electron] else InStacks([Server, Electron], stack)
  }

  /** The contexts `develop` compiles. */
  method DevelopContexts(variant: Variant, stack: set<string>) returns (contexts: seq<Context>)
    ensures Combined(variant, stack) ==> contexts == [Electron]
    ensures !Combined(variant, stack) ==> contexts == InStacks([Server, Electron], stack)
  {
    contexts := [];
    if variant == Development && "web" in stack && "electron" in stack {
      // the server is bundled into electron, so the web stack needs no build of its own
      contexts := contexts + [Electron];
    } else {
      if "web" in stack {
        contexts := contexts + [Server];
      }
      if "electron" in stack {
        contexts := contexts + [Electron];
      }
    }
  }

  /** `develop` compiles only backends: with both stacks in development only electron, otherwise the backend of each selected stack. */
  lemma DevelopCompilesBackends(variant: Variant, stack: set<string>, c: Context)
    ensures !Combined(variant, stack) ==>
              (c in InStacks([Server, Electron], stack) <==> SideOf(c) == Backend && Selected(stack, c))
  {
    InStacksMembers([Server, Electron], stack);
  }

  /** The contexts `build` compiles. */
  method BuildContexts(stack: set<string>) returns (contexts: seq<Context>)
    ensures contexts == InStacks(AllContexts, stack)
  {
    InStacksAllContexts(stack);
    contexts := [];
    if "web" in stack {
      contexts := contexts + [Client, Server];
    }
    if "electron" in stack {
      contexts := contexts + [Renderer, Preload, Electron];
    }
  }

  lemma InStacksAllContexts(stack: set<string>)
    ensures InStacks(AllContexts, stack) ==
              (if "web" in stack then [Client, Server] else []) +
              (if "electron" in stack then [Renderer, Preload, Electron] else [])
  {
    assert AllContexts == [Client, Server] + [Renderer, Preload, Electron];
    InStacksAppend([Client, Server], [Renderer, Preload, Electron], stack);
    InStacksAppend([Client], [Server], stack);
    InStacksAppend([Renderer], [Preload, Electron], stack);
    InStacksAppend([Preload], [Electron], stack);
  }

  /** The config of each context, in order. */
  function ConfigsFor(root: PathSegments, cs: seq<Context>, v: Variant): seq<Config> {
    seq(|cs|, i requires 0 <= i < |cs| => ConfigFor(root, cs[i], v))
  }

  function OutputPaths(configs: seq<Config>): (r: seq<seq<string>>)
    ensures |r| == |configs| && forall i :: 0 <= i < |configs| ==> r[i] == configs[i].outputPath
  {
    if configs == [] then [] else [configs[0].outputPath] + OutputPaths(configs[1..])
  }

  /** The environment strings a context and variant are handed over as name the same context and variant. */
  lemma ValidateNames(c: Context, v: Variant)
    ensures ContextName(c) != "" && VariantName(v) != ""
    ensures Validate(ContextName(c), VariantName(v)) == Ok((c, v))
  {
    ParseContextName(c);
    ParseVariantName(v);
  }

  /** The call `WebpackConfig({context, variant}, {})` for one known context. */
  method ContextConfig(registry: Registry, root: PathSegments, c: Context, v: Variant) returns (config: Config)
    requires registry.Valid()
    modifies registry
    ensures registry.Valid()
    ensures config == ConfigFor(root, c, v)
  {
    ValidateNames(c, v);
    var r := WebpackConfig(registry, root, ContextName(c), VariantName(v));
    config := r.value;
  }

  /** `getWebpackConfigs(contexts, variant)`: one config per context, in order. */
  method GetWebpackConfigs(registry: Registry, root: PathSegments, contexts: seq<Context>, variant: Variant)
    returns (configs: seq<Config>)
    requires registry.Valid()
    modifies registry
    ensures registry.Valid()
    ensures configs == ConfigsFor(root, contexts, variant)
  {
    configs := [];
    for i := 0 to |contexts|
      invariant registry.Valid()
      invariant |configs| == i
      invariant forall j :: 0 <= j < i ==> configs[j] == ConfigFor(root, contexts[j], variant)
    {
      var config := ContextConfig(registry, root, contexts[i], variant);
      configs := configs + [config];
    }
  }

  /** The output paths of every config lie inside `dist`, so the gate never refuses what `develop` and `build` compile. */
  lemma {:induction false} ConfigsPassGate(root: PathSegments, cs: seq<Context>, v: Variant)
    requires Resolved(root)
    ensures forall i :: 0 <= i < |cs| ==>
              Safe(DistDir(root + ["build"]), Resolve(OutputPaths(ConfigsFor(root, cs, v))[i]))
    ensures var paths := ResolveAll(OutputPaths(ConfigsFor(root, cs, v)));
            FirstUnsafe(DistDir(root + ["build"]), paths) == |paths|
  {
    forall i | 0 <= i < |cs|
      ensures Safe(DistDir(root + ["build"]), Resolve(OutputPaths(ConfigsFor(root, cs, v))[i]))
    {
      OutputInsideDist(root, cs[i], v);
    }
    FirstUnsafeNone(DistDir(root + ["build"]), ResolveAll(OutputPaths(ConfigsFor(root, cs, v))));
  }

  //---------------------------------------------------------------- processes

  /** How a child process is started. */
  datatype Launch =
    | Fork(modulePath: string, args: seq<string>)                // `ChildProcess.fork(serverMain, args)`
    | Spawn(args: seq<string>, nodeOptions: Option<string>)     // `ChildProcess.spawn(ElectronExe, args, {env})`; `None` keeps NODE_OPTIONS

  /** What the parent process knows about yarn's Plug'n'Play loader, when it runs under it. */
  datatype PnpEnv = PnpEnv(nodeOptions: Option<string>, pnpApiPath: string, patchPath: string)

  datatype MainError =
    | InvalidBuild(buildError: BuildError)
    | UnsafeOutput(pathError: PathError)
    | NodeOptionsUnset          // `env.NODE_OPTIONS.split` on an unset variable
    | FatalCompilerError        // `compiler.run` reports an `err`
    | NotImplemented

  const DevServerArgs: seq<string> := [
    "--dev-server-context=renderer",
    "--dev-server-context=preload",
    "--dev-server-context=client"
  ]

  function ServerMain(v: Variant): string {
    "../dist/" + ShortVariant(v) + "/server/main"
  }

  function ElectronMain(v: Variant): string {
    "../dist/" + ShortVariant(v) + "/electron/main.electron"
  }

  /** `\s` of JavaScript regular expressions. */
  predicate IsSpace(ch: char) {
    ch in {'\t', '\n', '\U{000B}', '\U{000C}', '\r', ' ', '\U{00A0}', '\U{1680}',
           '\U{2028}', '\U{2029}', '\U{202F}', '\U{205F}', '\U{3000}', '\U{FEFF}'}
    || ('\U{2000}' <= ch <= '\U{200A}')
  }

  /** `s` without its leading whitespace. */
  function DropSpaces(s: string): (r: string)
    ensures |r| <= |s| && r == s[|s| - |r|..]
    ensures r == [] || !IsSpace(r[0])
    ensures forall i :: 0 <= i < |s| - |r| ==> IsSpace(s[i])
  {
    if s != [] && IsSpace(s[0]) then
      var r := DropSpaces(s[1..]);
      assert forall i :: 1 <= i < |s| ==> s[i] == s[1..][i - 1];
      r
    else s
  }

  /** `s.split(/\s+/)` */
  function SplitSpaces(s: string): (r: seq<string>)
    ensures |r| >= 1
    decreases |s|
  {
    if s == [] then [""]
    else if IsSpace(s[0]) then [""] + SplitSpaces(DropSpaces(s[1..]))
    else
      var rest := SplitSpaces(s[1..]);
      [[s[0]] + rest[0]] + rest[1..]
  }

  /** Text without whitespace is a single token. */
  lemma {:induction false} SplitNoSpaces(s: string)
    requires forall i :: 0 <= i < |s| ==> !IsSpace(s[i])
    ensures SplitSpaces(s) == [s]
  {
    if s != [] {
      SplitNoSpaces(s[1..]);
      assert [s[0]] + s[1..] == s;
    }
  }

  /** The first token runs up to the first whitespace; the whole run of whitespace after it is the separator. */
  lemma {:induction false} SplitSpacesAt(a: string, ch: char, b: string)
    requires forall i :: 0 <= i < |a| ==> !IsSpace(a[i])
    requires IsSpace(ch)
    ensures SplitSpaces(a + [ch] + b) == [a] + SplitSpaces(DropSpaces(b))
    decreases |a|
  {
    var s := a + [ch] + b;
    if a == [] {
      assert s == [ch] + b;
      assert s[0] == ch && s[1..] == b;
    } else {
      var t := a[1..] + [ch] + b;
      SnocTail(a, ch, b);
      assert !IsSpace(s[0]);
      SplitSpacesAt(a[1..], ch, b);
      assert SplitSpaces(s) == [[a[0]] + SplitSpaces(t)[0]] + SplitSpaces(t)[1..];
      assert [a[0]] + a[1..] == a;
    }
  }

  lemma SnocTail<T>(a: seq<T>, x: T, b: seq<T>)
    requires a != []
    ensures (a + [x] + b)[0] == a[0] && (a + [x] + b)[1..] == a[1..] + [x] + b
  {
  }

  /** No token holds whitespace. */
  lemma {:induction false} SplitSpacesTokens(s: string)
    ensures forall t :: t in SplitSpaces(s) ==> forall j :: 0 <= j < |t| ==> !IsSpace(t[j])
    decreases |s|
  {
    if s != [] {
      if IsSpace(s[0]) {
        SplitSpacesTokens(DropSpaces(s[1..]));
      } else {
        SplitSpacesTokens(s[1..]);
        var rest := SplitSpaces(s[1..]);
        assert rest[0] in rest;
        forall t | t in SplitSpaces(s) ensures forall j :: 0 <= j < |t| ==> !IsSpace(t[j]) {
          if t != [s[0]] + rest[0] {
            assert t in rest[1..];
          }
        }
      }
    }
  }

  predicate PairAt(tokens: seq<string>, i: int, pnpApiPath: string) {
    0 <= i < |tokens| - 1 && tokens[i] == "--require" && tokens[i + 1] == pnpApiPath
  }

  /** The NODE_OPTIONS tokens without the first `--require <pnpApiPath>` pair. */
  function StripFirstPair(tokens: seq<string>, pnpApiPath: string): seq<string> {
    if |tokens| < 2 then tokens
    else if tokens[0] == "--require" && tokens[1] == pnpApiPath then tokens[2..]
    else [tokens[0]] + StripFirstPair(tokens[1..], pnpApiPath)
  }

  /** Exactly the first pair goes; every other token stays, in order. */
  lemma {:induction false} StripFirstPairAt(tokens: seq<string>, pnpApiPath: string, i: nat)
    requires PairAt(tokens, i, pnpApiPath)
    requires forall j :: 0 <= j < i ==> !PairAt(tokens, j, pnpApiPath)
    ensures StripFirstPair(tokens, pnpApiPath) == tokens[..i] + tokens[i + 2..]
  {
    if i > 0 {
      forall j | 0 <= j < i - 1 ensures !PairAt(tokens[1..], j, pnpApiPath) {
        assert !PairAt(tokens, j + 1, pnpApiPath);
      }
      assert !PairAt(tokens, 0, pnpApiPath);
      StripFirstPairAt(tokens[1..], pnpApiPath, i - 1);
      assert tokens[..i] == [tokens[0]] + tokens[1..][..i - 1];
      assert tokens[i + 2..] == tokens[1..][i + 1..];
      calc {
        StripFirstPair(tokens, pnpApiPath);
        [tokens[0]] + StripFirstPair(tokens[1..], pnpApiPath);
        [tokens[0]] + (tokens[1..][..i - 1] + tokens[1..][i + 1..]);
        ([tokens[0]] + tokens[1..][..i - 1]) + tokens[1..][i + 1..];
      }
    }
  }

  /** Without such a pair, the tokens are unchanged. */
  lemma {:induction false} StripFirstPairNone(tokens: seq<string>, pnpApiPath: string)
    requires forall j :: 0 <= j < |tokens| - 1 ==> !PairAt(tokens, j, pnpApiPath)
    ensures StripFirstPair(tokens, pnpApiPath) == tokens
  {
    if |tokens| >= 2 {
      assert !PairAt(tokens, 0, pnpApiPath);
      forall j | 0 <= j < |tokens[1..]| - 1 ensures !PairAt(tokens[1..], j, pnpApiPath) {
        assert !PairAt(tokens, j + 1, pnpApiPath);
      }
      StripFirstPairNone(tokens[1..], pnpApiPath);
      assert [tokens[0]] + tokens[1..] == tokens;
    }
  }

  /** The `--require '.pnp.js'` removal loop over the NODE_OPTIONS tokens. */
  method StripPnpRequire(tokens: seq<string>, pnpApiPath: string) returns (out: seq<string>)
    ensures out == StripFirstPair(tokens, pnpApiPath)
    ensures |out| == |tokens| || |out| == |tokens| - 2
  {
    out := tokens;
    var i := 0;
    while i < |out| - 1
      invariant 0 <= i
      invariant out == tokens
      invariant forall j :: 0 <= j < i ==> !PairAt(tokens, j, pnpApiPath)
    {
      if out[i] == "--require" && out[i + 1] == pnpApiPath {
        StripFirstPairAt(tokens, pnpApiPath, i);
        out := out[..i] + out[i + 2..];
        return;
      }
      i := i + 1;
    }
    StripFirstPairNone(tokens, pnpApiPath);
  }

  /** The electron process `runElectron(info, args)` spawns. */
  function ElectronLaunch(v: Variant, extraArgs: seq<string>, pnp: Option<PnpEnv>): Result<Launch, MainError> {
    if pnp.None? then Ok(Spawn([ElectronMain(v)] + extraArgs, None))
    else if pnp.value.nodeOptions.None? then Err(NodeOptionsUnset)
    else Ok(Spawn(["--require", pnp.value.patchPath, "--require", pnp.value.pnpApiPath, ElectronMain(v)] + extraArgs,
                  Some(Join(StripFirstPair(SplitSpaces(pnp.value.nodeOptions.value), pnp.value.pnpApiPath), " "))))
  }

  /** The processes `run(info, stack)` starts, in order. */
  function Launches(v: Variant, stack: set<string>, pnp: Option<PnpEnv>): Result<seq<Launch>, MainError> {
    if Combined(v, stack) then
      match ElectronLaunch(v, DevServerArgs, pnp)
      case Err(e) => Err(e)
      case Ok(p) => Ok([p])
    else
      var server := if "web" in stack then [Fork(ServerMain(v), [])] else [];
      if "electron" in stack then
        match ElectronLaunch(v, [], pnp)
        case Err(e) => Err(e)
        case Ok(p) => Ok(server + [p])
      else Ok(server)
  }

  /** `runElectron(info, args)` */
  method RunElectron(v: Variant, extraArgs: seq<string>, pnp: Option<PnpEnv>) returns (r: Result<Launch, MainError>)
    ensures r == ElectronLaunch(v, extraArgs, pnp)
    ensures pnp.None? ==> r == Ok(Spawn([ElectronMain(v)] + extraArgs, None))
    ensures pnp.Some? && pnp.value.nodeOptions.None? ==> r == Err(NodeOptionsUnset)
    ensures pnp.Some? && pnp.value.nodeOptions.Some? ==>
              r == Ok(Spawn(["--require", pnp.value.patchPath, "--require", pnp.value.pnpApiPath, ElectronMain(v)] + extraArgs,
                            Some(Join(StripFirstPair(SplitSpaces(pnp.value.nodeOptions.value), pnp.value.pnpApiPath), " "))))
  {
    var args := [ElectronMain(v)] + extraArgs;
    var nodeOptions: Option<string> := None;
    if pnp.Some? {
      if pnp.value.nodeOptions.None? {
        return Err(NodeOptionsUnset);
      }
      var tokens := SplitSpaces(pnp.value.nodeOptions.value);
      tokens := StripPnpRequire(tokens, pnp.value.pnpApiPath);
      nodeOptions := Some(Join(tokens, " "));
      args := ["--require", pnp.value.patchPath, "--require", pnp.value.pnpApiPath] + args;
      assert args == ["--require", pnp.value.patchPath, "--require", pnp.value.pnpApiPath, ElectronMain(v)] + extraArgs;
    }
    return Ok(Spawn(args, nodeOptions));
  }

  /** `run(info, stack)`: the processes started, in order. */
  method Run(v: Variant, stack: set<string>, pnp: Option<PnpEnv>) returns (r: Result<seq<Launch>, MainError>)
    ensures r == Launches(v, stack, pnp)
    ensures r.Err? <==> pnp.Some? && pnp.value.nodeOptions.None? && "electron" in stack
    ensures r.Err? ==> r.error == NodeOptionsUnset
    ensures r.Ok? && Combined(v, stack) ==>
              |r.value| == 1 && r.value[0].Spawn? && |r.value[0].args| >= 4
              && r.value[0].args[|r.value[0].args| - 4..] == [ElectronMain(v)] + DevServerArgs
    ensures r.Ok? && !Combined(v, stack) ==>
              |r.value| == (if "web" in stack then 1 else 0) + (if "electron" in stack then 1 else 0)
              && ("web" in stack ==> r.value[0] == Fork(ServerMain(v), []))
              && ("electron" in stack ==> r.value[|r.value| - 1].Spawn? && |r.value[|r.value| - 1].args| >= 1
                                          && r.value[|r.value| - 1].args[|r.value[|r.value| - 1].args| - 1] == ElectronMain(v))
  {
    var procs := [];
    if v == Development && "web" in stack && "electron" in stack {
      var p := RunElectron(v, DevServerArgs, pnp);
      if p.Err? {
        return Err(p.error);
      }
      procs := [p.value];
    } else {
      if "web" in stack {
        procs := [Fork(ServerMain(v), [])];
      }
      if "electron" in stack {
        var p := RunElectron(v, [], pnp);
        if p.Err? {
          return Err(p.error);
        }
        procs := procs + [p.value];
      }
    }
    return Ok(procs);
  }

  //---------------------------------------------------------------- watch

  /**
   * What the watcher hands the callback: a fatal `err`, or `stats` of a
   * finished compilation. Errors inside `stats` are not looked at, so a
   * compilation with errors is `Compiled` too.
   */
  datatype WatchEvent = FatalError | Compiled

  /** `proc.kill(name)` sent to the started process with this index. */
  datatype Signal = Signal(process: nat, name: string)

  /** One reload signal to each of `n` processes, in order. */
  function Broadcast(n: nat): (r: seq<Signal>)
    ensures |r| == n && forall k :: 0 <= k < n ==> r[k] == Signal(k, "SIGUSR2")
  {
    if n == 0 then [] else Broadcast(n - 1) + [Signal(n - 1, "SIGUSR2")]
  }

  /** Startup is still waiting while no compilation has finished. */
  predicate Pending(events: seq<WatchEvent>) {
    Compiled !in events
  }

  /** The signals the watch callback sends over a run of events, with `n` processes started. */
  function ReloadSignals(events: seq<WatchEvent>, n: nat): seq<Signal>
    decreases |events|
  {
    if events == [] then []
    else
      var before := events[..|events| - 1];
      ReloadSignals(before, n)
      + (if events[|events| - 1] == Compiled && !Pending(before) then Broadcast(n) else [])
  }

  /** Finished compilations after the first one. */
  function Reloads(events: seq<WatchEvent>): nat {
    if events == [] then 0
    else
      var before := events[..|events| - 1];
      Reloads(before) + (if events[|events| - 1] == Compiled && !Pending(before) then 1 else 0)
  }

  function Successes(events: seq<WatchEvent>): nat {
    if events == [] then 0
    else Successes(events[..|events| - 1]) + (if events[|events| - 1] == Compiled then 1 else 0)
  }

  /** Every finished compilation but the first is a reload. */
  lemma {:induction false} ReloadsAreLaterSuccesses(events: seq<WatchEvent>)
    ensures Reloads(events) == if Pending(events) then 0 else Successes(events) - 1
    ensures Pending(events) <==> Successes(events) == 0
    decreases |events|
  {
    if events != [] {
      var before := events[..|events| - 1];
      assert events == before + [events[|events| - 1]];
      ReloadsAreLaterSuccesses(before);
    }
  }

  /** `count` rounds of reload signals to `n` processes. */
  function Rounds(n: nat, count: nat): (r: seq<Signal>)
    ensures |r| == n * count
  {
    if count == 0 then [] else Rounds(n, count - 1) + Broadcast(n)
  }

  /** Fatal errors send nothing; the first finished compilation sends nothing; each later one reaches every process once with SIGUSR2. */
  lemma {:induction false} ReloadSignalsRounds(events: seq<WatchEvent>, n: nat)
    ensures ReloadSignals(events, n) == Rounds(n, Reloads(events))
    decreases |events|
  {
    if events != [] {
      ReloadSignalsRounds(events[..|events| - 1], n);
    }
  }

  /** The closure state of the `develop` watch callback: the pending startup resolver, the started processes, the signals sent. */
  class WatchSession {
    var startupPending: bool
    var procs: seq<Launch>
    var sent: seq<Signal>

    constructor ()
      ensures startupPending && procs == [] && sent == []
    {
      startupPending := true;
      procs := [];
      sent := [];
    }

    /** The callback `(err, stats) => …` */
    method OnEvent(e: WatchEvent)
      modifies this
      ensures procs == old(procs)
      ensures e == FatalError ==> startupPending == old(startupPending) && sent == old(sent)
      ensures e == Compiled ==> !startupPending
      ensures e == Compiled && old(startupPending) ==> sent == old(sent)
      ensures e == Compiled && !old(startupPending) ==> sent == old(sent) + Broadcast(|procs|)
    {
      if e == FatalError {
        return;
      }
      if startupPending {
        startupPending := false;
      } else {
        // notify hot module reload
        var k := 0;
        while k < |procs|
          invariant 0 <= k <= |procs|
          invariant procs == old(procs) && !startupPending
          invariant sent == old(sent) + Broadcast(k)
        {
          sent := sent + [Signal(k, "SIGUSR2")];
          k := k + 1;
        }
      }
    }

    /** `procs = run(info, stack)` once startup is released. */
    method Start(started: seq<Launch>)
      modifies this
      ensures procs == started
      ensures startupPending == old(startupPending) && sent == old(sent)
    {
      procs := started;
    }
  }

  //---------------------------------------------------------------- commands

  datatype Outcome =
    | Developing(contexts: seq<Context>, cleared: seq<PathSegments>, procs: seq<Launch>, signals: seq<Signal>)
    | Built(contexts: seq<Context>, cleared: seq<PathSegments>)
    | Packaged(packaged: bool)
    | Ran(procs: seq<Launch>)

  /** Compile `contexts`, after checking and listing their output folders for removal. */
  method Prepare(registry: Registry, root: PathSegments, contexts: seq<Context>, v: Variant)
    returns (r: Result<seq<PathSegments>, MainError>)
    requires registry.Valid()
    modifies registry
    ensures registry.Valid()
    ensures Resolved(root) ==> r == Ok(Distinct(ResolveAll(OutputPaths(ConfigsFor(root, contexts, v)))))
    ensures r.Err? ==> r.error.UnsafeOutput?
  {
    var configs := GetWebpackConfigs(registry, root, contexts, v);
    if Resolved(root) {
      ConfigsPassGate(root, contexts, v);
    }
    var cleared := ClearOutPaths(root + ["build"], OutputPaths(configs));
    if cleared.Err? {
      return Err(UnsafeOutput(cleared.error));
    }
    return Ok(cleared.value);
  }

  /**
   * The watcher's reports fed to the callback; startup is released by the
   * first finished compilation, and then `run` starts the processes the callback signals.
   */
  method Watch(v: Variant, stack: set<string>, pnp: Option<PnpEnv>, events: seq<WatchEvent>)
    returns (r: Result<(seq<Launch>, seq<Signal>), MainError>)
    ensures Pending(events) ==> r == Ok(([], []))
    ensures r.Ok? ==> r.value.1 == ReloadSignals(events, |r.value.0|)
    ensures !Pending(events) && Launches(v, stack, pnp).Err? ==> r == Err(Launches(v, stack, pnp).error)
    ensures !Pending(events) && Launches(v, stack, pnp).Ok? ==>
              r == Ok((Launches(v, stack, pnp).value, ReloadSignals(events, |Launches(v, stack, pnp).value|)))
    ensures r.Err? ==> r.error == NodeOptionsUnset
  {
    var session := new WatchSession();
    var procs: seq<Launch> := [];
    for i := 0 to |events|
      invariant fresh(session)
      invariant Watching(session, v, stack, pnp, events[..i], procs)
    {
      var step := Deliver(session, v, stack, pnp, events, i, procs);
      if step.Err? {
        return Err(step.error);
      }
      procs := step.value;
    }
    assert events[..|events|] == events;
    return Ok((procs, session.sent));
  }

  /** The watch session's state after the callback has seen `seen`, with `procs` started. */
  ghost predicate Watching(session: WatchSession, v: Variant, stack: set<string>, pnp: Option<PnpEnv>,
                           seen: seq<WatchEvent>, procs: seq<Launch>)
    reads session
  {
    && (session.startupPending <==> Pending(seen))
    && (session.startupPending ==> procs == [] && session.sent == [])
    && (!session.startupPending ==> Launches(v, stack, pnp) == Ok(procs))
    && session.procs == procs
    && session.sent == ReloadSignals(seen, |procs|)
  }

  /** Hands `events[i]` to the callback; after the first finished compilation, `run` starts the processes. */
  method Deliver(session: WatchSession, v: Variant, stack: set<string>, pnp: Option<PnpEnv>,
                 events: seq<WatchEvent>, i: nat, procs: seq<Launch>)
    returns (r: Result<seq<Launch>, MainError>)
    requires i < |events| && Watching(session, v, stack, pnp, events[..i], procs)
    modifies session
    ensures r.Ok? ==> Watching(session, v, stack, pnp, events[..i + 1], r.value)
    ensures r.Err? ==> !Pending(events) && Launches(v, stack, pnp) == Err(r.error) && r.error == NodeOptionsUnset
  {
    WatchStep(events, i, |procs|);
    var wasPending := session.startupPending;
    session.OnEvent(events[i]);
    if wasPending && !session.startupPending {
      assert events[i] == Compiled && events[i] in events;
      var started := Run(v, stack, pnp);
      if started.Err? {
        return Err(started.error);
      }
      session.Start(started.value);
      NoSignalsWhilePending(events[..i], |started.value|);
      WatchStep(events, i, |started.value|);
      return Ok(started.value);
    }
    return Ok(procs);
  }

  /** What one more event adds to the pending state and to the signals sent. */
  lemma WatchStep(events: seq<WatchEvent>, i: nat, n: nat)
    requires i < |events|
    ensures Pending(events[..i + 1]) <==> Pending(events[..i]) && events[i] != Compiled
    ensures ReloadSignals(events[..i + 1], n) ==
              ReloadSignals(events[..i], n)
              + (if events[i] == Compiled && !Pending(events[..i]) then Broadcast(n) else [])
  {
    assert events[..i + 1][..i] == events[..i];
    assert events[..i + 1] == events[..i] + [events[i]];
  }

  /** The `develop` command, fed the compilation results the watcher reports. */
  method Develop(registry: Registry, root: PathSegments, v: Variant, stack: set<string>, pnp: Option<PnpEnv>,
                 events: seq<WatchEvent>)
    returns (r: Result<Outcome, MainError>)
    requires registry.Valid()
    modifies registry
    ensures registry.Valid()
    ensures r.Ok? ==> r.value.Developing?
    ensures r.Ok? ==> r.value.contexts == DevelopedContexts(v, stack)
    ensures Resolved(root) && r.Ok? ==>
              r.value.cleared == Distinct(ResolveAll(OutputPaths(ConfigsFor(root, DevelopedContexts(v, stack), v))))
    ensures r.Ok? && Pending(events) ==> r.value.procs == [] && r.value.signals == []
    ensures r.Ok? ==> r.value.signals == ReloadSignals(events, |r.value.procs|)
    ensures r.Ok? && !Pending(events) ==> Launches(v, stack, pnp) == Ok(r.value.procs)
    ensures Resolved(root) ==> (r.Ok? <==> Pending(events) || Launches(v, stack, pnp).Ok?)
    ensures Resolved(root) ==> !(r.Err? && r.error.UnsafeOutput?)
  {
    var contexts := DevelopContexts(v, stack);
    var cleared := Prepare(registry, root, contexts, v);
    if cleared.Err? {
      return Err(cleared.error);
    }
    var watched := Watch(v, stack, pnp, events);
    if watched.Err? {
      return Err(watched.error);
    }
    return Ok(Developing(contexts, cleared.value, watched.value.0, watched.value.1));
  }

  lemma {:induction false} NoSignalsWhilePending(events: seq<WatchEvent>, n: nat)
    requires Pending(events)
    ensures ReloadSignals(events, n) == []
    decreases |events|
  {
    if events != [] {
      var before := events[..|events| - 1];
      assert forall e :: e in before ==> e in events;
      NoSignalsWhilePending(before, n);
    }
  }

  /**
   * The `build` command; `completed` is whether `compiler.run` finished
   * without a fatal `err` (errors inside `stats` do not fail the command).
   */
  method Build(registry: Registry, root: PathSegments, v: Variant, stack: set<string>, completed: bool)
    returns (r: Result<Outcome, MainError>)
    requires registry.Valid()
    modifies registry
    ensures registry.Valid()
    ensures Resolved(root) ==>
              r == (if completed
                    then Ok(Built(InStacks(AllContexts, stack),
                                  Distinct(ResolveAll(OutputPaths(ConfigsFor(root, InStacks(AllContexts, stack), v))))))
                    else Err(FatalCompilerError))
    ensures r.Ok? ==> r.value.Built? && r.value.contexts == InStacks(AllContexts, stack)
    ensures Resolved(root) ==> !(r.Err? && r.error.UnsafeOutput?)
  {
    var contexts := BuildContexts(stack);
    var cleared := Prepare(registry, root, contexts, v);
    if cleared.Err? {
      return Err(cleared.error);
    }
    if !completed {
      return Err(FatalCompilerError);
    }
    return Ok(Built(contexts, cleared.value));
  }

  /**
   * `main([cmd], options)`: the variant defaults to production and is checked
   * before the command is looked at; an empty stack list means both stacks.
   */
  method RunCommand(registry: Registry, root: PathSegments, cmd: string, variantOption: Option<string>, stackOption: seq<string>,
                    pnp: Option<PnpEnv>, completed: bool, events: seq<WatchEvent>)
    returns (r: Result<Outcome, MainError>)
    requires registry.Valid()
    modifies registry
    ensures registry.Valid()
    ensures var variant := if variantOption.Some? then variantOption.value else "production";
            && (Validate("client", variant).Err? ==> r == Err(InvalidBuild(InvalidVariant(variant))))
            && (Validate("client", variant).Ok? && cmd !in {"develop", "build", "package", "run"} ==> r == Err(NotImplemented))
            && (r.Ok? ==> Validate("client", variant).Ok?)
            && (r.Ok? && cmd == "package" ==> r.value == Packaged("electron" in StackSet(stackOption)))
            && (r.Ok? && cmd == "run" ==>
                  r.value.Ran? && Launches(Validate("client", variant).value.1, StackSet(stackOption), pnp) == Ok(r.value.procs))
            && (Validate("client", variant).Ok? && cmd == "run" ==>
                  (r.Ok? <==> Launches(Validate("client", variant).value.1, StackSet(stackOption), pnp).Ok?))
            && (r.Ok? && cmd == "develop" ==>
                  && r.value.Developing?
                  && r.value.contexts == DevelopedContexts(Validate("client", variant).value.1, StackSet(stackOption))
                  && (!Pending(events) ==> Launches(Validate("client", variant).value.1, StackSet(stackOption), pnp) == Ok(r.value.procs)))
            && (r.Ok? && cmd == "build" ==> r.value.Built? && r.value.contexts == InStacks(AllContexts, StackSet(stackOption)))
    ensures var variant := if variantOption.Some? then variantOption.value else "production";
            Validate("client", variant).Ok? && cmd == "package" ==> r == Ok(Packaged("electron" in StackSet(stackOption)))
    ensures var variant := if variantOption.Some? then variantOption.value else "production";
            var stack := StackSet(stackOption);
            Validate("client", variant).Ok? && Resolved(root) && cmd == "build" ==>
              var v := Validate("client", variant).value.1;
              r == (if completed
                    then Ok(Built(InStacks(AllContexts, stack),
                                  Distinct(ResolveAll(OutputPaths(ConfigsFor(root, InStacks(AllContexts, stack), v))))))
                    else Err(FatalCompilerError))
    ensures var variant := if variantOption.Some? then variantOption.value else "production";
            var stack := StackSet(stackOption);
            Validate("client", variant).Ok? && Resolved(root) && cmd == "develop" ==>
              var v := Validate("client", variant).value.1;
              && (r.Ok? <==> Pending(events) || Launches(v, stack, pnp).Ok?)
              && (r.Ok? ==> r.value.cleared == Distinct(ResolveAll(OutputPaths(ConfigsFor(root, DevelopedContexts(v, stack), v)))))
    ensures Resolved(root) ==> !(r.Err? && r.error.UnsafeOutput?)
  {
    var variant := if variantOption.Some? then variantOption.value else "production";
    var stack := StackSet(stackOption);
    ParseContextName(Client);
    var info := Validate("client", variant);
    if info.Err? {
      return Err(InvalidBuild(info.error));
    }
    var v := info.value.1;
    if cmd == "develop" {
      r := Develop(registry, root, v, stack, pnp, events);
    } else if cmd == "build" {
      r := Build(registry, root, v, stack, completed);
    } else if cmd == "package" {
      r := Ok(Packaged("electron" in stack));
    } else if cmd == "run" {
      var procs := Run(v, stack, pnp);
      if procs.Err? {
        return Err(procs.error);
      }
      r := Ok(Ran(procs.value));
    } else {
      r := Err(NotImplemented);
    }
  }
}
