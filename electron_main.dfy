/**
 * The option handling of the electron entry point,
 * src/backend/main.electron.js: in development every `devServerX…` option is
 * moved into a `devServer` dictionary under the name `x…`, the integrated
 * server is started from those options with its own defaults, and the window
 * loads from that server; in production it loads the bundled `index.html`.
 */
module ElectronEntry {
  import opened Wrappers
  import opened Strings
  import opened Identity
  import opened ServerEntry

  /** The values the option parser produces: strings, flags, repeated strings, and the nested `devServer` dictionary. */
  datatype OptionValue =
    | Text(text: string)
    | Switch(on: bool)
    | Texts(texts: seq<string>)
    | Nested(entries: map<string, OptionValue>)

  /** What `.` in a regular expression does not match. */
  predicate IsLineTerminator(ch: char) {
    ch in {'\n', '\r', '\U{2028}', '\U{2029}'}
  }

  /** The longest prefix with no line terminator: what `(.+)` captures. */
  function TakeLine(s: string): (r: string)
    ensures StartsWith(s, r)
    ensures forall i :: 0 <= i < |r| ==> !IsLineTerminator(r[i])
    ensures |r| < |s| ==> IsLineTerminator(s[|r|])
  {
    if s == [] || IsLineTerminator(s[0]) then [] else [s[0]] + TakeLine(s[1..])
  }

  const Prefix := "devServer"

  /** `/^devServer([A-Z])(.+)/.exec(key) != null` */
  predicate IsDevServerKey(key: string) {
    |key| >= 11 && key[..9] == Prefix && 'A' <= key[9] <= 'Z' && !IsLineTerminator(key[10])
  }

  /** `match[1].toLowerCase() + match[2]` */
  function Renamed(key: string): (r: string)
    requires IsDevServerKey(key)
    ensures |r| >= 2 && 'a' <= r[0] <= 'z'
  {
    [LowerChar(key[9])] + TakeLine(key[10..])
  }

  /** On option names without line breaks the renaming is the plain first-letter lower-casing. */
  lemma {:induction false} RenamedPlain(letter: char, rest: string)
    requires 'A' <= letter <= 'Z' && rest != []
    requires forall i :: 0 <= i < |rest| ==> !IsLineTerminator(rest[i])
    ensures IsDevServerKey(Prefix + [letter] + rest)
    ensures Renamed(Prefix + [letter] + rest) == [LowerChar(letter)] + rest
  {
    var key := Prefix + [letter] + rest;
    assert key[..9] == Prefix && key[9] == letter && key[10..] == rest;
    TakeAll(rest);
  }

  lemma {:induction false} TakeAll(s: string)
    requires forall i :: 0 <= i < |s| ==> !IsLineTerminator(s[i])
    ensures TakeLine(s) == s
  {
    if s != [] {
      TakeAll(s[1..]);
    }
  }

  /** Distinct options without line breaks land on distinct `devServer` names. */
  lemma RenamedInjective(k1: string, k2: string)
    requires IsDevServerKey(k1) && IsDevServerKey(k2)
    requires forall i :: 0 <= i < |k1| ==> !IsLineTerminator(k1[i])
    requires forall i :: 0 <= i < |k2| ==> !IsLineTerminator(k2[i])
    requires Renamed(k1) == Renamed(k2)
    ensures k1 == k2
  {
    TakeAll(k1[10..]);
    TakeAll(k2[10..]);
    assert k1 == k1[..9] + [k1[9]] + k1[10..];
    assert k2 == k2[..9] + [k2[9]] + k2[10..];
    assert Renamed(k1)[0] == LowerChar(k1[9]) && Renamed(k2)[0] == LowerChar(k2[9]);
    assert k1[10..] == Renamed(k1)[1..] == Renamed(k2)[1..] == k2[10..];
  }

  /** The `devServer` names that the options `done` turn into. */
  ghost function RenamedKeys(done: set<string>): set<string> {
    set k | k in done && IsDevServerKey(k) :: Renamed(k)
  }

  /** Handling one more option adds its new name, if it has one. */
  lemma RenamedKeysStep(all: set<string>, todo: set<string>, key: string)
    requires key in todo && todo <= all
    ensures RenamedKeys(all - (todo - {key})) ==
              RenamedKeys(all - todo) + (if IsDevServerKey(key) then {Renamed(key)} else {})
  {
    assert all - (todo - {key}) == (all - todo) + {key};
  }

  /**
   * The development branch of `parseArgv`: each matching option is deleted and
   * stored in `devServer` under its new name, and `devServer` is attached to
   * the options. Outside development the options are returned as parsed.
   */
  method ExtractDevServer(variant: Variant, options: map<string, OptionValue>) returns (result: map<string, OptionValue>)
    ensures variant == Production ==> result == options
    ensures variant == Development ==>
              && "devServer" in result && result["devServer"].Nested?
              && (forall k :: k in result ==> !IsDevServerKey(k))
              && (forall k :: k in options && !IsDevServerKey(k) && k != "devServer" ==> k in result && result[k] == options[k])
              && (forall k :: k in result && k != "devServer" ==> k in options)
              && result["devServer"].entries.Keys == RenamedKeys(options.Keys)
              && (forall d :: d in result["devServer"].entries ==>
                    exists k :: k in options && IsDevServerKey(k) && Renamed(k) == d && result["devServer"].entries[d] == options[k])
  {
    if variant == Production {
      return options;
    }
    var rest := options;
    var devServer: map<string, OptionValue> := map[];
    ghost var origin: map<string, string> := map[];
    var todo := options.Keys;
    while todo != {}
      invariant Extracting(options, todo, rest, devServer, origin)
      decreases |todo|
    {
      var key :| key in todo;
      ExtractingStep(options, todo, rest, devServer, origin, key);
      todo := todo - {key};
      if IsDevServerKey(key) {
        rest := rest - {key};
        devServer := devServer[Renamed(key) := options[key]];
        origin := origin[Renamed(key) := key];
      }
    }
    ExtractingDone(options, rest, devServer, origin);
    result := rest["devServer" := Nested(devServer)];
    assert !IsDevServerKey("devServer");
  }

  /** `d: value` in `devServer` came from the option `k`. */
  predicate FromOption(options: map<string, OptionValue>, k: string, d: string, value: OptionValue) {
    k in options && IsDevServerKey(k) && Renamed(k) == d && value == options[k]
  }

  /**
   * The state of the extraction loop with the options `todo` still to visit:
   * `rest` has lost exactly the visited matching options, and `devServer`
   * holds them under their new names; `origin` remembers where each came from.
   */
  ghost predicate Extracting(options: map<string, OptionValue>, todo: set<string>, rest: map<string, OptionValue>,
                             devServer: map<string, OptionValue>, origin: map<string, string>) {
    && todo <= options.Keys
    && RestLeft(options, todo, rest)
    && devServer.Keys == RenamedKeys(options.Keys - todo)
    && Origins(options, devServer, origin)
  }

  /** `rest` holds the unvisited options and the visited ones that do not match, unchanged. */
  ghost predicate RestLeft(options: map<string, OptionValue>, todo: set<string>, rest: map<string, OptionValue>) {
    && (forall k :: k in rest <==> k in options && (k in todo || !IsDevServerKey(k)))
    && (forall k :: k in rest ==> rest[k] == options[k])
  }

  /** Every entry of `devServer` came from the option `origin` names. */
  ghost predicate Origins(options: map<string, OptionValue>, devServer: map<string, OptionValue>, origin: map<string, string>) {
    && devServer.Keys <= origin.Keys
    && (forall d :: d in devServer ==> FromOption(options, origin[d], d, devServer[d]))
  }

  /** Visiting one more option keeps the loop state. */
  lemma ExtractingStep(options: map<string, OptionValue>, todo: set<string>, rest: map<string, OptionValue>,
                       devServer: map<string, OptionValue>, origin: map<string, string>, key: string)
    requires Extracting(options, todo, rest, devServer, origin) && key in todo
    ensures IsDevServerKey(key) ==>
              Extracting(options, todo - {key}, rest - {key}, devServer[Renamed(key) := options[key]], origin[Renamed(key) := key])
    ensures !IsDevServerKey(key) ==> Extracting(options, todo - {key}, rest, devServer, origin)
  {
    RenamedKeysStep(options.Keys, todo, key);
    if IsDevServerKey(key) {
      RestMove(options, todo, rest, key);
      OriginsMove(options, devServer, origin, key);
      assert devServer[Renamed(key) := options[key]].Keys == devServer.Keys + {Renamed(key)};
    } else {
      RestSkip(options, todo, rest, key);
    }
  }

  lemma RestMove(options: map<string, OptionValue>, todo: set<string>, rest: map<string, OptionValue>, key: string)
    requires RestLeft(options, todo, rest) && key in todo && IsDevServerKey(key)
    ensures RestLeft(options, todo - {key}, rest - {key})
  {
  }

  lemma RestSkip(options: map<string, OptionValue>, todo: set<string>, rest: map<string, OptionValue>, key: string)
    requires RestLeft(options, todo, rest) && key in todo && !IsDevServerKey(key)
    ensures RestLeft(options, todo - {key}, rest)
  {
  }

  lemma OriginsMove(options: map<string, OptionValue>, devServer: map<string, OptionValue>, origin: map<string, string>, key: string)
    requires Origins(options, devServer, origin) && key in options && IsDevServerKey(key)
    ensures Origins(options, devServer[Renamed(key) := options[key]], origin[Renamed(key) := key])
  {
    var d := Renamed(key);
    var devServer' := devServer[d := options[key]];
    var origin' := origin[d := key];
    forall e | e in devServer'
      ensures FromOption(options, origin'[e], e, devServer'[e])
    {
      if e != d {
        assert FromOption(options, origin[e], e, devServer[e]);
      }
    }
  }

  /** Once every option is visited, the state is the one the extraction promises. */
  lemma ExtractingDone(options: map<string, OptionValue>, rest: map<string, OptionValue>,
                       devServer: map<string, OptionValue>, origin: map<string, string>)
    requires Extracting(options, {}, rest, devServer, origin)
    ensures forall k :: k in rest ==> !IsDevServerKey(k)
    ensures forall k :: k in options && !IsDevServerKey(k) ==> k in rest && rest[k] == options[k]
    ensures forall k :: k in rest ==> k in options
    ensures devServer.Keys == RenamedKeys(options.Keys)
    ensures forall d :: d in devServer ==>
              exists k :: k in options && IsDevServerKey(k) && Renamed(k) == d && devServer[d] == options[k]
  {
    assert options.Keys - {} == options.Keys;
    assert RestLeft(options, {}, rest) && Origins(options, devServer, origin);
    forall d | d in devServer
      ensures exists k :: k in options && IsDevServerKey(k) && Renamed(k) == d && devServer[d] == options[k]
    {
      assert FromOption(options, origin[d], d, devServer[d]);
    }
  }

  /** When every option name is free of line breaks, each matching option's value arrives under its new name. */
  lemma ExtractedValues(options: map<string, OptionValue>, devServer: map<string, OptionValue>, key: string)
    requires forall k :: k in options ==> forall i :: 0 <= i < |k| ==> !IsLineTerminator(k[i])
    requires devServer.Keys == RenamedKeys(options.Keys)
    requires forall d :: d in devServer ==>
               exists k :: k in options && IsDevServerKey(k) && Renamed(k) == d && devServer[d] == options[k]
    requires key in options && IsDevServerKey(key)
    ensures Renamed(key) in devServer && devServer[Renamed(key)] == options[key]
  {
    var d := Renamed(key);
    assert d in RenamedKeys(options.Keys);
    var k :| k in options && IsDevServerKey(k) && Renamed(k) == d && devServer[d] == options[k];
    RenamedInjective(k, key);
  }

  function TextOption(entries: map<string, OptionValue>, name: string): (r: Option<string>)
    ensures r.Some? <==> name in entries && entries[name].Text?
  {
    if name in entries && entries[name].Text? then Some(entries[name].text) else None
  }

  /** The contexts the integrated server compiles: renderer and preload when none is given. */
  function DevServerContexts(entries: map<string, OptionValue>): (r: seq<string>)
    ensures r != []
    ensures "context" in entries && entries["context"].Texts? && entries["context"].texts != [] ==> r == entries["context"].texts
    ensures !("context" in entries && entries["context"].Texts? && entries["context"].texts != []) ==> r == ["renderer", "preload"]
  {
    var given := if "context" in entries && entries["context"].Texts? then entries["context"].texts else [];
    if given == [] then ["renderer", "preload"] else given
  }

  /** The options `main` hands to the integrated server; anything unset stays unset so that the server's defaults apply. */
  function DevServerOptions(entries: map<string, OptionValue>): (o: ServerOptions)
    ensures o.host == TextOption(entries, "host") && o.port == TextOption(entries, "port")
    ensures o.keyFile == TextOption(entries, "keyFile") && o.certFile == TextOption(entries, "certFile")
    ensures o.secure.Some? <==> "secure" in entries && entries["secure"].Switch?
    ensures o.context == DevServerContexts(entries)
  {
    ServerOptions(
      host := TextOption(entries, "host"),
      port := TextOption(entries, "port"),
      secure := if "secure" in entries && entries["secure"].Switch? then Some(entries["secure"].on) else None,
      keyFile := TextOption(entries, "keyFile"),
      certFile := TextOption(entries, "certFile"),
      context := DevServerContexts(entries))
  }

  const RendererPage := "/renderer/index.html"

  /** The URL the window loads. */
  function WindowUrl(variant: Variant, dirname: string, options: map<string, OptionValue>): (r: Result<string, ServerError>)
    requires variant == Development ==> "devServer" in options && options["devServer"].Nested?
    ensures variant == Production ==> r == Ok("file://" + dirname + "/index.html")
    ensures variant == Development ==>
              (r.Ok? <==> Start(Development, DevServerOptions(options["devServer"].entries)).Ok?)
    ensures variant == Development && r.Ok? ==>
              && EndsWith(r.value, RendererPage)
              && (StartsWith(r.value, "https://") <==> Configure(Development, DevServerOptions(options["devServer"].entries)).value.secure)
  {
    if variant == Production then Ok("file://" + dirname + "/index.html")
    else
      match Start(Development, DevServerOptions(options["devServer"].entries))
      case Err(e) => Err(e)
      case Ok(url) =>
        assert StartsWith(url + RendererPage, "https://") <==> StartsWith(url, "https://") by {
          assert |url| >= 8 ==> (url + RendererPage)[..8] == url[..8];
          assert |url| >= 8;
        }
        Ok(url + RendererPage)
  }

  const DefaultDevServer := ServerOptions(None, None, None, None, None, ["renderer", "preload"])

  /** An example, not an all-inputs result: the default dev-server options (renderer and preload, nothing else set) start at http://localhost:8080. */
  lemma DefaultDevServerStart()
    ensures Start(Development, DefaultDevServer) == Ok("http://localhost:8080")
  {
    ParseContextName(Renderer);
    ParseContextName(Preload);
    assert FirstUnknown(DefaultDevServer.context) == None;
    DevelopmentDefaults();
  }

  lemma DevWindowFromStart(dirname: string, options: map<string, OptionValue>, url: string)
    requires "devServer" in options && options["devServer"].Nested?
    requires Start(Development, DevServerOptions(options["devServer"].entries)) == Ok(url)
    ensures WindowUrl(Development, dirname, options) == Ok(url + RendererPage)
  {
  }

  /** An example, not an all-inputs result: with no dev-server options the window loads the renderer page from http://localhost:8080. `DevWindowFromStart` is the general statement. */
  lemma DefaultDevWindow(dirname: string)
    ensures WindowUrl(Development, dirname, map["devServer" := Nested(map[])]) ==
              Ok("http://localhost:8080" + RendererPage)
  {
    var options := map["devServer" := Nested(map[])];
    assert DevServerOptions(options["devServer"].entries) == DefaultDevServer;
    DefaultDevServerStart();
    DevWindowFromStart(dirname, options, "http://localhost:8080");
  }
}
