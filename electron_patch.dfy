/**
 * build/electron.patch.js, preloaded into the electron process: it adds
 * `electron` to the list of builtin modules, and it removes from
 * `process.argv` the `--require <file>` pairs that electron's default app
 * leaves behind after the executable path.
 */
module ElectronPatch {

  const Require := "--require"

  /** Where the scan for `--require` flags that starts at index `i`, stepping two at a time, stops. */
  function ScanEnd(argv: seq<string>, i: nat): (end: nat)
    decreases |argv| + 2 - i
  {
    if i < |argv| && argv[i] == Require then ScanEnd(argv, i + 2) else i
  }

  /** `argv` after `argv.splice(1, end - 1)`: the first `end - 1` arguments after `argv[0]`, or as many as exist, are gone. */
  function FixedArgv(argv: seq<string>): seq<string> {
    if argv == [] then []
    else
      var end := ScanEnd(argv, 1);
      [argv[0]] + argv[if end <= |argv| then end else |argv|..]
  }

  /** The scan stops at or past the end, or at an argument that is not `--require`, having seen only `--require` on its way. */
  lemma {:induction false} ScanEndProperties(argv: seq<string>, i: nat)
    ensures var end := ScanEnd(argv, i);
            && end >= i && (end - i) % 2 == 0
            && (end >= |argv| || argv[end] != Require)
            && forall j :: i <= j < end && (j - i) % 2 == 0 ==> j < |argv| && argv[j] == Require
    decreases |argv| + 2 - i
  {
    if i < |argv| && argv[i] == Require {
      ScanEndProperties(argv, i + 2);
    }
  }

  /**
   * `argv[0]` is kept; what follows is a suffix of the old arguments that does
   * not start with `--require`, reached by removing `--require <file>` pairs
   * only; a trailing `--require` without its file goes only when nothing is left.
   */
  lemma FixedArgvProperties(argv: seq<string>)
    requires |argv| >= 1
    ensures var r := FixedArgv(argv);
            && 1 <= |r| <= |argv|
            && r[0] == argv[0]
            && (|r| == 1 || r[1] != Require)
            && r[1..] == argv[|argv| - (|r| - 1)..]
            && (forall j :: 1 <= j < |argv| - |r| + 1 && j % 2 == 1 ==> argv[j] == Require)
            && (|r| > 1 ==> (|argv| - |r|) % 2 == 0)
  {
    var end := ScanEnd(argv, 1);
    ScanEndProperties(argv, 1);
    var cut := if end <= |argv| then end else |argv|;
    FixedArgvCut(argv, cut);
    forall j | 1 <= j < cut && j % 2 == 1
      ensures argv[j] == Require
    {
      assert (j - 1) % 2 == 0;
    }
    if |argv| - cut > 0 {
      assert cut == end && argv[cut] != Require;
      assert (end - 1) % 2 == 0;
    }
  }

  /** The fixed arguments are `argv[0]` followed by everything from `cut` on. */
  lemma FixedArgvCut(argv: seq<string>, cut: nat)
    requires |argv| >= 1 && cut == (if ScanEnd(argv, 1) <= |argv| then ScanEnd(argv, 1) else |argv|)
    ensures var r := FixedArgv(argv);
            && r == [argv[0]] + argv[cut..] && |r| == |argv| - cut + 1
            && r[1..] == argv[cut..] && r[0] == argv[0]
  {
  }

  /** Arguments that do not start with `--require` are left alone. */
  lemma FixedArgvNoFlags(argv: seq<string>)
    requires |argv| < 2 || argv[1] != Require
    ensures FixedArgv(argv) == argv
  {
    if argv != [] {
      assert [argv[0]] + argv[1..] == argv;
    }
  }

  /** The parts of the node process the patch touches. */
  class NodeProcess {
    var argv: seq<string>
    var builtinModules: seq<string>

    constructor (argv: seq<string>, builtinModules: seq<string>)
      ensures this.argv == argv && this.builtinModules == builtinModules
    {
      this.argv := argv;
      this.builtinModules := builtinModules;
    }

    /** The two regions of the patch, in order. */
    method ApplyPatch()
      modifies this
      ensures builtinModules == old(builtinModules) + ["electron"]
      ensures argv == FixedArgv(old(argv))
    {
      builtinModules := builtinModules + ["electron"];

      var i := 1;
      while i < |argv| && argv[i] == Require
        invariant i >= 1
        invariant ScanEnd(argv, i) == ScanEnd(argv, 1)
        decreases |argv| + 2 - i
      {
        i := i + 2;
      }
      if |argv| > 0 {
        // `splice(1, i - 1)` removes what is there of the i - 1 arguments after argv[0]
        var cut := if i <= |argv| then i else |argv|;
        argv := [argv[0]] + argv[cut..];
      }
    }
  }
}
