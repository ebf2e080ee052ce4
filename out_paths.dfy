/**
 * `clearOutPaths` of build/main.js: before a build wipes its output
 * directories, every output path must lie inside `<root>/dist`; the first
 * path that does not aborts the whole operation before anything is removed,
 * and each distinct path is removed once.
 */
module OutPaths {
  import opened Wrappers
  import opened Strings
  import opened Paths

  datatype PathError = UnsafeOutputPath(path: PathSegments)

  /** `Path.isAbsolute` on a POSIX path string. */
  predicate IsAbsolute(s: string) {
    |s| > 0 && s[0] == '/'
  }

  /** The guard as written: a relative path that is empty, starts with `../` or is absolute is refused. */
  predicate SafeAsWritten(dist: PathSegments, path: PathSegments) {
    var rel := Relative(dist, path);
    !(rel == "" || StartsWith(rel, "../") || IsAbsolute(rel))
  }

  /** The guard as intended: the same, and also refusing the relative path `..` (the parent of `dist`). */
  predicate Safe(dist: PathSegments, path: PathSegments) {
    var rel := Relative(dist, path);
    !(rel == "" || rel == ".." || StartsWith(rel, "../") || IsAbsolute(rel))
  }

  predicate Plain(s: string) {
    s != "" && '/' !in s
  }

  /** What the joined string of plain segments reveals about the segments. */
  lemma {:induction false} JoinFacts(r: seq<string>)
    requires forall i :: 0 <= i < |r| ==> Plain(r[i])
    ensures Join(r, "/") == "" <==> r == []
    ensures Join(r, "/") == ".." <==> r == [".."]
    ensures StartsWith(Join(r, "/"), "../") <==> |r| >= 2 && r[0] == ".."
    ensures !IsAbsolute(Join(r, "/"))
  {
    if |r| == 1 {
      var h := r[0];
      assert Join(r, "/") == h;
      assert |h| >= 3 ==> h[2] != '/';
    } else if |r| >= 2 {
      var j := Join(r, "/");
      var h := r[0];
      assert j == h + "/" + Join(r[1..], "/");
      assert j[..|h|] == h && j[|h|] == '/';
      assert j[0] == h[0];
      assert |h| >= 3 ==> j[2] == h[2] && h[2] != '/';
      assert |h| == 2 ==> j[..2] == h;
      assert h == ".." ==> j[..3] == "../";
    }
  }

  /** The relative path from `dist` to `path` climbs `|dist| - k` levels and then descends. */
  lemma RelativeShape(dist: PathSegments, path: PathSegments)
    requires Resolved(dist) && Resolved(path)
    ensures var k := CommonPrefix(dist, path);
            var r := RelativeSegments(dist, path);
            && (forall i :: 0 <= i < |r| ==> Plain(r[i]))
            && (r == [] <==> k == |dist| && k == |path|)
            && (|r| > 0 && r[0] == ".." <==> k < |dist|)
            && |r| == |dist| - k + |path| - k
  {
    var k := CommonPrefix(dist, path);
    var r := RelativeSegments(dist, path);
    assert r == Ups(|dist| - k) + path[k..];
    forall i | 0 <= i < |r| ensures Plain(r[i]) {
      if i >= |dist| - k {
        assert r[i] == path[k + i - (|dist| - k)];
      }
    }
    if k == |dist| && |r| > 0 {
      assert r[0] == path[k];
    }
  }

  /** The common prefix of `dist` with a path inside it, or with its parent, is as long as it can be. */
  lemma CommonPrefixCases(dist: PathSegments, path: PathSegments)
    ensures StrictDescendant(path, dist) ==> CommonPrefix(dist, path) == |dist|
    ensures IsParent(path, dist) ==> CommonPrefix(dist, path) == |path|
  {
    if StrictDescendant(path, dist) {
      forall i | 0 <= i < |dist| ensures path[i] == dist[i] {
        assert path[..|dist|][i] == path[i];
      }
    }
    if IsParent(path, dist) {
      forall i | 0 <= i < |path| ensures path[i] == dist[i] {
        assert dist[..|dist| - 1][i] == dist[i];
      }
    }
  }

  /** The guard as written lets through exactly the paths inside `dist` and the parent of `dist`. */
  lemma {:induction false} SafeAsWrittenExactly(dist: PathSegments, path: PathSegments)
    requires Resolved(dist) && Resolved(path)
    ensures SafeAsWritten(dist, path) <==> StrictDescendant(path, dist) || IsParent(path, dist)
  {
    var k := CommonPrefix(dist, path);
    var r := RelativeSegments(dist, path);
    RelativeShape(dist, path);
    JoinFacts(r);
    CommonPrefixCases(dist, path);
    if k == |dist| && |path| > k {
      assert path[..|dist|] == dist[..k];
    }
    if k == |dist| - 1 && |path| == k {
      assert path == path[..k] == dist[..k];
    }
  }

  /** The intended guard lets through exactly the paths strictly inside `dist`. */
  lemma {:induction false} SafeExactly(dist: PathSegments, path: PathSegments)
    requires Resolved(dist) && Resolved(path)
    ensures Safe(dist, path) <==> StrictDescendant(path, dist)
  {
    var k := CommonPrefix(dist, path);
    var r := RelativeSegments(dist, path);
    RelativeShape(dist, path);
    JoinFacts(r);
    CommonPrefixCases(dist, path);
    SafeAsWrittenExactly(dist, path);
    if IsParent(path, dist) {
      assert r == Ups(1) + path[k..];
      assert path[k..] == [];
      assert r == [".."];
    }
  }

  /** With the project in `/app`, the guard as written accepts `/app` itself as an output directory to wipe. */
  lemma ParentOfDistSlipsThrough()
    ensures SafeAsWritten(["app", "dist"], ["app"])
    ensures !Safe(["app", "dist"], ["app"])
  {
    SafeAsWrittenExactly(["app", "dist"], ["app"]);
    SafeExactly(["app", "dist"], ["app"]);
    assert IsParent(["app"], ["app", "dist"]);
  }

  /** The elements of `s` in order of first occurrence: what `[...new Set(s)]` yields. */
  function Distinct(s: seq<PathSegments>): seq<PathSegments> {
    if s == [] then []
    else
      var d := Distinct(s[..|s| - 1]);
      if s[|s| - 1] in d then d else d + [s[|s| - 1]]
  }

  /** Each path appears once, and exactly the paths of the input appear. */
  lemma {:induction false} DistinctProperties(s: seq<PathSegments>)
    ensures var d := Distinct(s);
            && (forall i, j :: 0 <= i < j < |d| ==> d[i] != d[j])
            && (forall x :: x in d <==> x in s)
  {
    if s != [] {
      var init := s[..|s| - 1];
      DistinctProperties(init);
      assert forall x :: x in s <==> x in init || x == s[|s| - 1] by {
        assert s == init + [s[|s| - 1]];
      }
    }
  }

  /** One step of the de-duplication: adding `seen[i]` to the set of the paths before it. */
  method AddOnce(ghost seen: seq<PathSegments>, i: nat, paths: seq<PathSegments>, x: PathSegments) returns (r: seq<PathSegments>)
    requires i < |seen| && x == seen[i] && paths == Distinct(seen[..i])
    ensures r == Distinct(seen[..i + 1])
  {
    assert seen[..i + 1][..i] == seen[..i];
    r := paths;
    if x !in paths {
      r := paths + [x];
    }
  }

  function ResolveAll(raw: seq<seq<string>>): (r: seq<PathSegments>)
    ensures |r| == |raw| && forall i :: 0 <= i < |raw| ==> r[i] == Resolve(raw[i])
  {
    if raw == [] then [] else [Resolve(raw[0])] + ResolveAll(raw[1..])
  }

  /** The index of the first path the guard refuses, or `|paths|` when it refuses none. */
  function FirstUnsafe(dist: PathSegments, paths: seq<PathSegments>): (k: nat)
    ensures k <= |paths|
    ensures forall i :: 0 <= i < k ==> Safe(dist, paths[i])
    ensures k < |paths| ==> !Safe(dist, paths[k])
  {
    if paths == [] || !Safe(dist, paths[0]) then 0
    else 1 + FirstUnsafe(dist, paths[1..])
  }

  /** The guard refuses none of `paths` exactly when every one of them is safe. */
  lemma FirstUnsafeNone(dist: PathSegments, paths: seq<PathSegments>)
    ensures FirstUnsafe(dist, paths) == |paths| <==> forall i :: 0 <= i < |paths| ==> Safe(dist, paths[i])
  {
  }

  lemma FirstUnsafeStep(dist: PathSegments, paths: seq<PathSegments>, i: nat)
    requires i < |paths| && i <= FirstUnsafe(dist, paths)
    ensures Safe(dist, paths[i]) ==> i + 1 <= FirstUnsafe(dist, paths)
    ensures !Safe(dist, paths[i]) ==> i == FirstUnsafe(dist, paths)
  {
  }

  /** `<build dir>/../dist`, the one directory the build may wipe inside. */
  function DistDir(buildDir: seq<string>): PathSegments {
    Resolve(buildDir + ["..", "dist"])
  }

  /**
   * `clearOutPaths(configs)`, given the configs' output paths: the checked,
   * de-duplicated list of directories to remove, or the first offending path.
   * Removing the directories is left to the caller.
   */
  method ClearOutPaths(buildDir: seq<string>, outputPaths: seq<seq<string>>) returns (r: Result<seq<PathSegments>, PathError>)
    ensures var k := FirstUnsafe(DistDir(buildDir), ResolveAll(outputPaths));
            && (r.Ok? <==> k == |outputPaths|)
            && (r.Ok? ==> r.value == Distinct(ResolveAll(outputPaths)))
            && (r.Err? ==> k < |outputPaths| && r.error == UnsafeOutputPath(Resolve(outputPaths[k])))
  {
    var distDir := DistDir(buildDir);
    ghost var resolved := ResolveAll(outputPaths);
    var paths: seq<PathSegments> := [];
    for i := 0 to |outputPaths|
      invariant i <= FirstUnsafe(distDir, resolved)
      invariant paths == Distinct(resolved[..i])
    {
      var path := Resolve(outputPaths[i]);
      FirstUnsafeStep(distDir, resolved, i);
      if !Safe(distDir, path) {
        return Err(UnsafeOutputPath(path));
      }
      paths := AddOnce(resolved, i, paths, path);
    }
    assert resolved[..|outputPaths|] == resolved;
    return Ok(paths);
  }
}
