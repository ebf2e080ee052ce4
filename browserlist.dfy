/**
 * build/browserlist.config.js: the browser/runtime targets each context is
 * transpiled for. The electron versions come from a query of the installed
 * electron and are parameters here.
 */
module BrowserList {
  import opened Wrappers
  import opened Dispatch
  import opened Identity

  /** The `select` table of the config, keyed by context name, with no default branch. */
  function QueryTable(chromeVersion: string, nodeVersion: string): map<string, seq<string>> {
    map[
      "client" := ["> 0.5%", "last 2 versions", "Firefox ESR", "not dead"],
      "server" := ["current node"],
      "renderer" := ["chrome " + chromeVersion],
      "preload" := ["chrome " + chromeVersion],
      "electron" := ["node " + nodeVersion]
    ]
  }

  /** The table has a branch for every context, so the lookup without a default never fails. */
  lemma {:induction false} QueryTableTotal(c: Context, chromeVersion: string, nodeVersion: string)
    ensures Select(ContextName(c), QueryTable(chromeVersion, nodeVersion), None).Ok?
  {
    var t := QueryTable(chromeVersion, nodeVersion);
    match c {
      case Client => assert "client" in t;
      case Server => assert "server" in t;
      case Renderer => assert "renderer" in t;
      case Preload => assert "preload" in t;
      case Electron => assert "electron" in t;
    }
  }

  /** The browserslist queries of one build identity. */
  function Queries(c: Context, chromeVersion: string, nodeVersion: string): (q: seq<string>)
    ensures |q| >= 1
    ensures c == Client ==> q == ["> 0.5%", "last 2 versions", "Firefox ESR", "not dead"]
    ensures c == Server ==> q == ["current node"]
    ensures c in {Renderer, Preload} ==> q == ["chrome " + chromeVersion]
    ensures c == Electron ==> q == ["node " + nodeVersion]
  {
    QueryTableTotal(c, chromeVersion, nodeVersion);
    Select(ContextName(c), QueryTable(chromeVersion, nodeVersion), None).value
  }

  /** Every context of the electron stack targets the electron release's own chrome or node; the web stack targets none of them. The proof is a case split over the five rows of the fixed table. */
  lemma ElectronStackTargetsElectronVersions(c: Context, chromeVersion: string, nodeVersion: string)
    ensures StackOf(c) == ElectronStack <==>
            Queries(c, chromeVersion, nodeVersion) in {["chrome " + chromeVersion], ["node " + nodeVersion]}
  {
    var q := Queries(c, chromeVersion, nodeVersion);
    if c == Client {
      assert |q| == 4;
    } else if c == Server {
      assert q[0] == "current node";
      assert q[0][0] == 'c' && q[0][1] == 'u';
      assert ("chrome " + chromeVersion)[1] == 'h';
      assert ("node " + nodeVersion)[0] == 'n';
    }
  }
}
