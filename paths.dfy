/**
 * POSIX paths as sequences of segments, with the two operations of Node's
 * `path` module that build/main.js relies on: `Path.resolve` on an absolute
 * path (normalisation of `.`, `..` and empty segments) and `Path.relative`.
 */
module Paths {
  import opened Strings

  /** An absolute path, root first: `/a/b` is `["a", "b"]`, `/` is `[]`. */
  type PathSegments = seq<string>

  /** A segment of a resolved path: non-empty, without `/`, neither `.` nor `..`. */
  predicate IsName(s: string) {
    s != "" && '/' !in s && s != "." && s != ".."
  }

  predicate Resolved(p: PathSegments) {
    forall i :: 0 <= i < |p| ==> IsName(p[i])
  }

  /**
   * The steps of `Path.resolve`: skip empty and `.` segments, pop at `..`
   * (never above the root), keep the rest. Raw segments are the pieces of a
   * path string split at `/`, so none of them holds a `/`; the branch that
   * skips such a segment only keeps the function total.
   */
  function ResolveFrom(acc: PathSegments, rest: seq<string>): (r: PathSegments)
    requires Resolved(acc)
    ensures Resolved(r)
    decreases |rest|
  {
    if rest == [] then acc
    else if rest[0] == "" || rest[0] == "." then ResolveFrom(acc, rest[1..])
    else if rest[0] == ".." then ResolveFrom(if acc == [] then [] else acc[..|acc| - 1], rest[1..])
    else if '/' in rest[0] then ResolveFrom(acc, rest[1..])
    else ResolveFrom(acc + [rest[0]], rest[1..])
  }

  /** `Path.resolve` of an absolute path given by its raw segments. */
  function Resolve(raw: seq<string>): (r: PathSegments)
    ensures Resolved(r)
  {
    ResolveFrom([], raw)
  }

  lemma {:induction false} ResolveFromResolved(acc: PathSegments, rest: seq<string>)
    requires Resolved(acc) && Resolved(rest)
    ensures ResolveFrom(acc, rest) == acc + rest
    decreases |rest|
  {
    if rest != [] {
      ResolveFromResolved(acc + [rest[0]], rest[1..]);
      assert acc + [rest[0]] + rest[1..] == acc + rest;
    }
  }

  /** Resolving a path that is already resolved leaves it as it is. */
  lemma ResolveIdempotent(p: PathSegments)
    requires Resolved(p)
    ensures Resolve(p) == p
  {
    ResolveFromResolved([], p);
  }

  /** `<dir>/../<name>` resolves to `<parent of dir>/<name>`. */
  lemma ResolveSibling(dir: PathSegments, name: string, sibling: string)
    requires Resolved(dir) && IsName(name) && IsName(sibling)
    ensures Resolve(dir + [name, "..", sibling]) == dir + [sibling]
  {
    ResolveFromResolved([], dir);
    assert [] + dir == dir;
    ResolveSplit([], dir, [name, "..", sibling]);
    assert [name, "..", sibling][1..] == ["..", sibling];
    assert ResolveFrom(dir, [name, "..", sibling]) == ResolveFrom(dir + [name], ["..", sibling]);
    assert (dir + [name])[..|dir|] == dir;
    assert ResolveFrom(dir + [name], ["..", sibling]) == ResolveFrom(dir, [sibling]);
    assert ResolveFrom(dir, [sibling]) == ResolveFrom(dir + [sibling], []);
  }

  lemma {:induction false} ResolveSplit(acc: PathSegments, a: seq<string>, b: seq<string>)
    requires Resolved(acc)
    ensures ResolveFrom(acc, a + b) == ResolveFrom(ResolveFrom(acc, a), b)
    decreases |a|
  {
    if a != [] {
      assert (a + b)[1..] == a[1..] + b;
      assert (a + b)[0] == a[0];
      var next := if a[0] == "" || a[0] == "." then acc
                  else if a[0] == ".." then (if acc == [] then [] else acc[..|acc| - 1])
                  else if '/' in a[0] then acc
                  else acc + [a[0]];
      assert ResolveFrom(acc, a + b) == ResolveFrom(next, (a + b)[1..]);
      assert ResolveFrom(acc, a) == ResolveFrom(next, a[1..]);
      ResolveSplit(next, a[1..], b);
    } else {
      assert a + b == b;
    }
  }

  /** Length of the longest common prefix of two paths. */
  function CommonPrefix(a: PathSegments, b: PathSegments): (k: nat)
    ensures k <= |a| && k <= |b| && a[..k] == b[..k]
    ensures k < |a| && k < |b| ==> a[k] != b[k]
  {
    if a == [] || b == [] || a[0] != b[0] then 0
    else
      var k := CommonPrefix(a[1..], b[1..]);
      assert a[..k + 1] == [a[0]] + a[1..][..k];
      assert b[..k + 1] == [b[0]] + b[1..][..k];
      k + 1
  }

  function Ups(n: nat): (r: seq<string>)
    ensures |r| == n && forall i :: 0 <= i < n ==> r[i] == ".."
  {
    if n == 0 then [] else [".."] + Ups(n - 1)
  }

  /** The segments of `Path.relative(from, to)`: climb out of `from` to the common prefix, then descend to `to`. */
  function RelativeSegments(from: PathSegments, to: PathSegments): seq<string> {
    var k := CommonPrefix(from, to);
    Ups(|from| - k) + to[k..]
  }

  /** `Path.relative(from, to)` for two resolved paths. */
  function Relative(from: PathSegments, to: PathSegments): string {
    Join(RelativeSegments(from, to), "/")
  }

  /** `to` lies strictly inside `dir`. */
  predicate StrictDescendant(to: PathSegments, dir: PathSegments) {
    |to| > |dir| && to[..|dir|] == dir
  }

  /** `to` is the directory that holds `dir`. */
  predicate IsParent(to: PathSegments, dir: PathSegments) {
    |dir| > 0 && to == dir[..|dir| - 1]
  }

  /** `Path.resolve` as a string: `/` followed by the segments joined with `/`. */
  function PathString(p: PathSegments): string {
    "/" + Join(p, "/")
  }
}
