/**
 * The pure parts of the web server entry point, src/backend/main.server.js:
 * the middleware that rewrites extensionless request paths to the client's
 * index page, the defaulting and validation of the server options, the
 * `url` getter, and the default list of contexts the development server
 * compiles.
 */
module ServerEntry {
  import opened Wrappers
  import opened Strings
  import opened Identity

  //---------------------------------------------------------------- paths

  /** The index of the first `ch` in `s`. */
  function IndexOf(s: string, ch: char): (r: Option<nat>)
    ensures r.Some? ==> r.value < |s| && s[r.value] == ch && ch !in s[..r.value]
    ensures r.None? ==> ch !in s
  {
    if s == [] then None
    else if s[0] == ch then Some(0)
    else match IndexOf(s[1..], ch)
      case None => None
      case Some(i) => Some(i + 1)
  }

  /** The index of the last `ch` in `s`. */
  function LastIndexOf(s: string, ch: char): (r: Option<nat>)
    ensures r.Some? ==> r.value < |s| && s[r.value] == ch && ch !in s[r.value + 1..]
    ensures r.None? ==> ch !in s
  {
    if s == [] then None
    else if s[|s| - 1] == ch then Some(|s| - 1)
    else LastIndexOf(s[..|s| - 1], ch)
  }

  function TrimTrailingSlashes(s: string): (r: string)
    ensures StartsWith(s, r)
    ensures r == [] || r[|r| - 1] != '/'
  {
    if s != [] && s[|s| - 1] == '/' then TrimTrailingSlashes(s[..|s| - 1]) else s
  }

  /** The text after the last `/`. */
  function Basename(s: string): (r: string)
    ensures EndsWith(s, r) && '/' !in r
    ensures |r| < |s| ==> s[|s| - |r| - 1] == '/'
  {
    if s == [] || s[|s| - 1] == '/' then []
    else Basename(s[..|s| - 1]) + [s[|s| - 1]]
  }

  /**
   * `Path.posix.extname(path)`: from the last `.` of the last path portion to
   * its end; empty when that portion has no `.`, starts with its only dot,
   * or is `..`.
   */
  function ExtName(path: string): (r: string)
    ensures r == [] || (r[0] == '.' && '.' !in r[1..] && '/' !in r)
    ensures EndsWith(TrimTrailingSlashes(path), r)
  {
    var base := Basename(TrimTrailingSlashes(path));
    match LastIndexOf(base, '.')
    case None => []
    case Some(d) =>
      if d == 0 || base == ".." then []
      else
        assert base[d..][1..] == base[d + 1..];
        base[d..]
  }

  lemma {:induction false} BasenameAfterSlash(dir: string, name: string)
    requires '/' !in name
    ensures Basename(dir + "/" + name) == name
  {
    if name != [] {
      var n := name[..|name| - 1];
      assert (dir + "/" + name)[..|dir + "/" + name| - 1] == dir + "/" + n;
      BasenameAfterSlash(dir, n);
      assert n + [name[|name| - 1]] == name;
    } else {
      assert dir + "/" + name == dir + "/";
    }
  }

  lemma {:induction false} LastIndexOfBefore(a: string, ch: char, b: string)
    requires ch !in b
    ensures LastIndexOf(a + [ch] + b, ch) == Some(|a|)
  {
    if b != [] {
      var c := b[..|b| - 1];
      assert (a + [ch] + b)[..|a + [ch] + b| - 1] == a + [ch] + c;
      LastIndexOfBefore(a, ch, c);
    }
  }

  /** A file name `stem.ext` after a directory has the extension `.ext`. */
  lemma ExtNameOfFile(dir: string, stem: string, ext: string)
    requires stem != [] && ext != [] && '/' !in stem && '/' !in ext && '.' !in ext
    ensures ExtName(dir + "/" + (stem + "." + ext)) == "." + ext
  {
    var name := stem + "." + ext;
    var p := dir + "/" + name;
    FileNameShape(stem, ext);
    NoTrailingSlash(dir + "/", name);
    BasenameAfterSlash(dir, name);
    LastIndexOfBefore(stem, '.', ext);
    ExtNameAt(p, name, |stem|);
  }

  lemma FileNameShape(stem: string, ext: string)
    requires stem != [] && ext != [] && '/' !in stem && '/' !in ext
    ensures var name := stem + "." + ext;
            && '/' !in name && name != ".." && name[|name| - 1] != '/'
            && name == stem + ['.'] + ext && name[|stem|..] == "." + ext
  {
    var name := stem + "." + ext;
    assert name[|name| - 1] == ext[|ext| - 1];
    assert name == stem + ("." + ext);
    DropPrefix(stem, "." + ext);
    assert |name| > 2;
  }

  lemma NoTrailingSlash(dir: string, name: string)
    requires name != [] && name[|name| - 1] != '/'
    ensures TrimTrailingSlashes(dir + name) == dir + name
  {
    assert (dir + name)[|dir + name| - 1] == name[|name| - 1];
  }

  lemma ExtNameAt(path: string, base: string, d: nat)
    requires TrimTrailingSlashes(path) == path && Basename(path) == base
    requires LastIndexOf(base, '.') == Some(d) && d != 0 && base != ".."
    ensures ExtName(path) == base[d..]
  {
  }

  lemma DropPrefix(a: string, b: string)
    ensures (a + b)[|a|..] == b
  {
  }

  /** The index page has an extension, so it is never rewritten again. */
  lemma IndexExtension()
    ensures ExtName(IndexPage) == ".html"
  {
    IndexPageParts();
    ExtNameOfFile("/client", "index", "html");
  }

  lemma IndexPageParts()
    ensures IndexPage == "/client" + "/" + ("index" + "." + "html")
  {
  }

  //---------------------------------------------------------------- URL

  /** The parts of a request target that `new URL(req.url, 'http://localhost')` exposes. */
  datatype Target = Target(pathname: string, search: string)

  /** A pathname as the URL parser produces it, and a search that is empty or `?` with a non-empty query. */
  predicate WellFormed(t: Target) {
    StartsWith(t.pathname, "/") && '?' !in t.pathname && '#' !in t.pathname && SearchForm(t.search)
  }

  predicate SearchForm(search: string) {
    search == [] || (|search| >= 2 && search[0] == '?' && '#' !in search)
  }

  /** Splits a request target into pathname, query and fragment; the fragment is dropped. */
  function ParseTarget(url: string): (t: Target)
    ensures WellFormed(t)
  {
    var beforeHash := match IndexOf(url, '#') case None => url case Some(h) => url[..h];
    var q := IndexOf(beforeHash, '?');
    var rawPath := match q case None => beforeHash case Some(i) => beforeHash[..i];
    var query := match q case None => [] case Some(i) => beforeHash[i + 1..];
    assert '#' !in beforeHash;
    Target(if StartsWith(rawPath, "/") then rawPath else "/" + rawPath,
           if query == [] then [] else "?" + query)
  }

  lemma {:induction false} IndexOfAfter(a: string, b: string, ch: char)
    requires ch !in a
    ensures IndexOf(a + b, ch) == match IndexOf(b, ch) case None => None case Some(j) => Some(|a| + j)
  {
    if a != [] {
      assert (a + b)[0] == a[0] && a[0] != ch;
      assert (a + b)[1..] == a[1..] + b;
      IndexOfAfter(a[1..], b, ch);
    } else {
      assert a + b == b;
    }
  }

  /** Formatting a well-formed target and parsing it back gives the same target. */
  lemma ParseFormat(t: Target)
    requires WellFormed(t)
    ensures ParseTarget(t.pathname + t.search) == t
  {
    var u := t.pathname + t.search;
    IndexOfAfter(t.pathname, t.search, '#');
    assert IndexOf(u, '#') == None;
    IndexOfAfter(t.pathname, t.search, '?');
    if t.search == [] {
      assert u == t.pathname;
    } else {
      assert IndexOf(t.search, '?') == Some(0);
      assert u[|t.pathname| + 1..] == t.search[1..];
      assert u[..|t.pathname|] == t.pathname;
      assert "?" + t.search[1..] == t.search;
    }
  }

  const HmrPath := "/__webpack_hmr"
  const IndexPage := "/client/index.html"

  /** An extensionless pathname is replaced by the client's index page. */
  function RewriteTarget(t: Target): Target {
    Target(if ExtName(t.pathname) == [] then IndexPage else t.pathname, t.search)
  }

  /** The request URL after the `rewritePaths` middleware. */
  function RewrittenUrl(url: string, variant: Variant): string {
    var t := ParseTarget(url);
    if variant == Development && t.pathname == HmrPath then url
    else RewriteTarget(t).pathname + RewriteTarget(t).search
  }

  /** In development the hot-reload endpoint is passed through untouched. */
  lemma HmrPassesThrough(url: string)
    requires ParseTarget(url).pathname == HmrPath
    ensures RewrittenUrl(url, Development) == url
  {
  }

  lemma FormatIndex(search: string)
    requires SearchForm(search)
    ensures ParseTarget(IndexPage + search) == Target(IndexPage, search)
  {
    IndexPageForm();
    ParseFormat(Target(IndexPage, search));
  }

  lemma IndexPageForm()
    ensures StartsWith(IndexPage, "/") && '?' !in IndexPage && '#' !in IndexPage
  {
  }

  /** A path with no extension is served the client's index page; the query string stays. */
  lemma ExtensionlessGoesToIndex(url: string, variant: Variant)
    requires ExtName(ParseTarget(url).pathname) == []
    requires !(variant == Development && ParseTarget(url).pathname == HmrPath)
    ensures ParseTarget(RewrittenUrl(url, variant)) == Target(IndexPage, ParseTarget(url).search)
  {
    var t := ParseTarget(url);
    assert RewrittenUrl(url, variant) == IndexPage + t.search;
    FormatIndex(t.search);
  }

  /** A path with an extension keeps its pathname and its query string. */
  lemma FilesKeepTheirPath(url: string, variant: Variant)
    requires ExtName(ParseTarget(url).pathname) != []
    ensures ParseTarget(RewrittenUrl(url, variant)) == ParseTarget(url)
  {
    var t := ParseTarget(url);
    if !(variant == Development && t.pathname == HmrPath) {
      assert RewriteTarget(t) == t;
      ParseFormat(t);
    }
  }

  lemma IndexKept(search: string)
    ensures ExtName(IndexPage) != []
    ensures RewriteTarget(Target(IndexPage, search)) == Target(IndexPage, search)
  {
    IndexExtension();
  }

  lemma FileKept(t: Target)
    requires WellFormed(t) && ExtName(t.pathname) != []
    ensures RewriteTarget(t) == t
    ensures ParseTarget(t.pathname + t.search) == t
  {
    ParseFormat(t);
  }

  /** A rewritten target has an extension, so a second rewrite keeps it, and it formats and parses back. */
  lemma RewriteTargetFixed(t: Target)
    requires WellFormed(t)
    ensures RewriteTarget(RewriteTarget(t)) == RewriteTarget(t)
    ensures ParseTarget(RewriteTarget(t).pathname + RewriteTarget(t).search) == RewriteTarget(t)
  {
    if ExtName(t.pathname) == [] {
      IndexKept(t.search);
      FormatIndex(t.search);
    } else {
      FileKept(t);
    }
  }

  /** Rewriting an already rewritten URL changes nothing. */
  lemma RewriteIdempotent(url: string, variant: Variant)
    ensures RewrittenUrl(RewrittenUrl(url, variant), variant) == RewrittenUrl(url, variant)
  {
    var t := ParseTarget(url);
    if !(variant == Development && t.pathname == HmrPath) {
      var t2 := RewriteTarget(t);
      RewriteTargetFixed(t);
      IndexNotHmr();
      assert RewrittenUrl(url, variant) == t2.pathname + t2.search;
      assert t2.pathname == IndexPage || t2.pathname == t.pathname;
    }
  }

  lemma IndexNotHmr()
    ensures IndexPage != HmrPath
  {
    assert |IndexPage| != |HmrPath|;
  }

  /** The request object the middleware rewrites. */
  class Request {
    var url: string

    constructor (url: string)
      ensures this.url == url
    {
      this.url := url;
    }
  }

  /** `rewritePaths(req, res, next)`; `nextCalls` counts the calls to `next`. */
  method RewritePaths(req: Request, variant: Variant) returns (nextCalls: nat)
    modifies req
    ensures req.url == RewrittenUrl(old(req.url), variant)
    ensures nextCalls == 1
  {
    var t := ParseTarget(req.url);
    if variant == Development && t.pathname == HmrPath {
      nextCalls := 1;
      return;
    }
    var pathname := t.pathname;
    if ExtName(pathname) == [] {
      pathname := IndexPage;
    }
    req.url := pathname + t.search;
    nextCalls := 1;
  }

  //---------------------------------------------------------------- options

  /** The options `main` receives; `None` is an option left unset. */
  datatype ServerOptions = ServerOptions(
    host: Option<string>,
    port: Option<string>,
    secure: Option<bool>,
    keyFile: Option<string>,
    certFile: Option<string>,
    context: seq<string>)

  const NoOptions := ServerOptions(None, None, None, None, None, [])

  /** The options after defaulting. */
  datatype Settings = Settings(host: string, port: string, secure: bool, keyFile: Option<string>, certFile: Option<string>)

  datatype ServerError =
    | MissingKeyOrCert                // 'Must specify --key-file and --cert-file'
    | UnknownContext(name: string)    // thrown while building the development configs
    | TlsFilesNotAwaited              // destructuring the promise of the key and certificate reads

  /** The defaulting of `main`'s options and its secure-mode check. */
  function Configure(variant: Variant, options: ServerOptions): (r: Result<Settings, ServerError>)
    ensures r.Ok? ==> r.value.host == (if options.host.Some? then options.host.value else "localhost")
    ensures r.Ok? ==> r.value.port == (if options.port.Some? then options.port.value else "8080")
    ensures r.Ok? ==> r.value.secure == (if options.secure.Some? then options.secure.value else variant != Development)
    ensures r.Ok? ==> r.value.keyFile == options.keyFile && r.value.certFile == options.certFile
    ensures r.Err? ==> r.error == MissingKeyOrCert
    ensures r.Err? <==> (if options.secure.Some? then options.secure.value else variant != Development)
                        && (options.keyFile.None? || options.certFile.None?)
  {
    var host := if options.host.Some? then options.host.value else "localhost";
    var port := if options.port.Some? then options.port.value else "8080";
    var secure := if options.secure.Some? then options.secure.value else variant != Development;
    if secure && (options.keyFile.None? || options.certFile.None?) then Err(MissingKeyOrCert)
    else Ok(Settings(host, port, secure, options.keyFile, options.certFile))
  }

  /** The `url` getter of the returned app. */
  function Url(s: Settings): (r: string)
    ensures StartsWith(r, "https://") <==> s.secure
    ensures EndsWith(r, ":" + s.port)
  {
    var scheme := if s.secure then "https" else "http";
    assert !StartsWith("http://" + s.host + ":" + s.port, "https://") by {
      assert ("http://" + s.host + ":" + s.port)[4] == ':';
    }
    assert (scheme + "://" + s.host + ":" + s.port)[|scheme + "://" + s.host|..] == ":" + s.port;
    scheme + "://" + s.host + ":" + s.port
  }

  /** With nothing set, production refuses to start without a key and certificate. */
  lemma ProductionNeedsCertificates()
    ensures Configure(Production, NoOptions) == Err(MissingKeyOrCert)
  {
  }

  /** With nothing set, development serves plain http on localhost:8080. */
  lemma DevelopmentDefaults()
    ensures Configure(Development, NoOptions).Ok?
    ensures Url(Configure(Development, NoOptions).value) == "http://localhost:8080"
  {
  }

  /** The contexts the development server compiles: `client` when none is given. */
  function DevContexts(context: seq<string>): (r: seq<string>)
    ensures r != []
    ensures context != [] ==> r == context
  {
    if context == [] then ["client"] else context
  }

  /**
   * Whether `getWebpackConfigs([name], variant)` builds a configuration for
   * `name`: the config function replaces an empty context by `client` before
   * `BuildInfo` checks it.
   */
  predicate Accepted(name: string) {
    ParseContext(if name == "" then "client" else name).Some?
  }

  /** The first context name for which no configuration can be built, if any. */
  function FirstUnknown(names: seq<string>): (r: Option<string>)
    ensures r.None? <==> forall i :: 0 <= i < |names| ==> Accepted(names[i])
    ensures r.Some? ==> exists i :: 0 <= i < |names| && names[i] == r.value && !Accepted(r.value)
                                  && forall j :: 0 <= j < i ==> Accepted(names[j])
  {
    if names == [] then None
    else if !Accepted(names[0]) then Some(names[0])
    else
      var rest := FirstUnknown(names[1..]);
      assert forall i :: 1 <= i < |names| ==> names[i] == names[1..][i - 1];
      rest
  }

  /**
   * Starting the server up to the point where it listens: options, then (in
   * development) the contexts to compile; the listening URL on success.
   */
  function Start(variant: Variant, options: ServerOptions): (r: Result<string, ServerError>)
    ensures r.Ok? <==> Configure(variant, options).Ok?
                       && (variant == Development ==> forall i :: 0 <= i < |DevContexts(options.context)| ==>
                                                         Accepted(DevContexts(options.context)[i]))
    ensures r.Ok? ==> r.value == Url(Configure(variant, options).value)
    ensures Configure(variant, options).Err? ==> r == Err(MissingKeyOrCert)
  {
    match Configure(variant, options)
    case Err(e) => Err(e)
    case Ok(settings) =>
      if variant == Development && FirstUnknown(DevContexts(options.context)).Some? then
        Err(UnknownContext(FirstUnknown(DevContexts(options.context)).value))
      else Ok(Url(settings))
  }

  /** An empty context name compiles the client, so it starts the same server as no name at all. */
  lemma EmptyContextStarts(options: ServerOptions)
    requires options.context == [""]
    ensures Start(Development, options) == Start(Development, options.(context := []))
  {
    ParseContextName(Client);
    assert FirstUnknown([""]) == None;
    assert FirstUnknown(["client"]) == None;
  }

  /** A secure server that passes the checks listens on https. */
  lemma SecureStartServesHttps(variant: Variant, options: ServerOptions)
    requires Configure(variant, options).Ok? && Configure(variant, options).value.secure
    requires variant == Development ==> forall i :: 0 <= i < |DevContexts(options.context)| ==>
                                          Accepted(DevContexts(options.context)[i])
    ensures Start(variant, options).Ok? && StartsWith(Start(variant, options).value, "https://")
  {
  }

  /**
   * `main` as written: after the checks of `Start`, a secure server
   * destructures `Promise.all([...])` without awaiting it; a promise is not
   * iterable, so the destructuring throws.
   */
  function StartAsWritten(variant: Variant, options: ServerOptions): (r: Result<string, ServerError>)
    ensures r.Ok? <==> Start(variant, options).Ok? && !StartsWith(Start(variant, options).value, "https://")
    ensures r.Ok? ==> r == Start(variant, options)
    ensures Start(variant, options).Err? ==> r == Start(variant, options)
  {
    match Start(variant, options)
    case Err(e) => Err(e)
    case Ok(url) => if Configure(variant, options).value.secure then Err(TlsFilesNotAwaited) else Ok(url)
  }

  /** A production server given a key and a certificate: as intended it listens on https, as written it fails. */
  lemma SecureStartFailsAsWritten()
    ensures var options := NoOptions.(keyFile := Some("key.pem"), certFile := Some("cert.pem"));
            && Start(Production, options) == Ok("https://localhost:8080")
            && StartAsWritten(Production, options) == Err(TlsFilesNotAwaited)
  {
    var options := NoOptions.(keyFile := Some("key.pem"), certFile := Some("cert.pem"));
    var settings := Settings("localhost", "8080", true, Some("key.pem"), Some("cert.pem"));
    assert Configure(Production, options) == Ok(settings);
    assert Url(settings) == "https" + "://" + "localhost" + ":" + "8080" == "https://localhost:8080";
    assert Start(Production, options) == Ok(Url(settings));
  }
}
