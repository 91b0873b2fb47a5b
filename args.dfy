/** The argument split of `mainImpl`: package arguments before a `--`, pass-through arguments for
    `go test` after it, and the default package `.`. */
module Args {
  import opened Types

  /** The package arguments and the arguments passed through to `go test`. */
  datatype Split = Split(args: seq<string>, extra: seq<string>)

  /** The run-time panic of slicing a nil slice past its length. */
  const SliceBounds := "slice bounds out of range"

  /** `strings.HasPrefix(a, "-")`. */
  predicate IsFlag(a: string) {
    |a| >= 1 && a[0] == '-'
  }

  function WithDefault(args: seq<string>): (r: seq<string>)
    ensures r != []
  {
    if args == [] then ["."] else args
  }

  /** Index of the first `--`, or `|argv|` when there is none. */
  function FirstDashDash(argv: seq<string>): (d: nat)
    ensures d <= |argv|
    ensures forall i :: 0 <= i < d ==> argv[i] != "--"
    ensures d < |argv| ==> argv[d] == "--"
  {
    if argv == [] || argv[0] == "--" then 0 else 1 + FirstDashDash(argv[1..])
  }

  /** Index of the first argument that starts with `-` (`--` included), or `|argv|`. */
  function FirstFlag(argv: seq<string>): (h: nat)
    ensures h <= |argv|
    ensures forall i :: 0 <= i < h ==> !IsFlag(argv[i])
    ensures h < |argv| ==> IsFlag(argv[h])
  {
    if argv == [] || IsFlag(argv[0]) then 0 else 1 + FirstFlag(argv[1..])
  }

  /** Number of arguments among `argv[..n]` that start with `-` and are not `--`. */
  function FlagCount(argv: seq<string>, n: nat): nat
    requires n <= |argv|
  {
    if n == 0 then 0 else FlagCount(argv, n - 1) + (if argv[n - 1] != "--" && IsFlag(argv[n - 1]) then 1 else 0)
  }

  /** What the loop of `mainImpl` does, case by case: with no `-` argument ahead of the first
      `--`, it splits there; a `-` argument ahead of a `--` makes the slicing at the `--` panic;
      otherwise one `-` argument makes everything pass through, and a second one empties the
      pass-through list again. */
  function SplitAsWritten(argv: seq<string>): Result<Split> {
    var d := FirstDashDash(argv);
    var n := FlagCount(argv, d);
    if n == 0 then Ok(Split(WithDefault(argv[..d]), if d < |argv| then argv[d + 1..] else []))
    else if d < |argv| then Panic(SliceBounds)
    else if n == 1 then Ok(Split(["."], argv))
    else Ok(Split(["."], []))
  }

  /** The loop of `mainImpl` as written: it ranges over the original arguments while `args` is
      reassigned, and it does not stop at the first `-` argument. */
  method SplitArgsAsWritten(argv: seq<string>) returns (r: Result<Split>)
    ensures r == SplitAsWritten(argv)
  {
    var args := argv;
    var extra: seq<string> := [];
    for i := 0 to |argv|
      invariant forall k :: 0 <= k < i ==> argv[k] != "--"
      invariant FlagCount(argv, i) == 0 ==> args == argv && extra == []
      invariant FlagCount(argv, i) == 1 ==> args == [] && extra == argv
      invariant FlagCount(argv, i) >= 2 ==> args == [] && extra == []
    {
      var a := argv[i];
      if a == "--" {
        if i + 1 > |args| {
          return Panic(SliceBounds);
        }
        extra := args[i + 1..];
        args := args[..i];
        return Ok(Split(WithDefault(args), extra));
      }
      if IsFlag(a) {
        // Here the flag parser stopped at a leading `--` and dropped it: everything passes through.
        extra := args;
        args := [];
      }
    }
    assert FirstDashDash(argv) == |argv|;
    assert argv[..|argv|] == argv;
    return Ok(Split(WithDefault(args), extra));
  }

  /** The split as intended: at the first `--` when it comes first; all arguments pass through
      when an argument starting with `-` comes first; otherwise all arguments are packages. */
  function SplitIntended(argv: seq<string>): Split {
    var h := FirstFlag(argv);
    if h == |argv| then Split(WithDefault(argv), [])
    else if argv[h] == "--" then Split(WithDefault(argv[..h]), argv[h + 1..])
    else Split(["."], argv)
  }

  /** The split with the loop ended at the first `-` argument. */
  method SplitArgs(argv: seq<string>) returns (s: Split)
    ensures s == SplitIntended(argv)
  {
    var args := argv;
    var extra: seq<string> := [];
    for i := 0 to |argv|
      invariant forall k :: 0 <= k < i ==> !IsFlag(argv[k])
    {
      var a := argv[i];
      if a == "--" {
        extra := argv[i + 1..];
        args := argv[..i];
        return Split(WithDefault(args), extra);
      }
      if IsFlag(a) {
        return Split(["."], argv);
      }
    }
    return Split(WithDefault(args), extra);
  }

  /** The intended split loses no argument: each is a package, passed through, or a `--`; and
      there is always at least one package. */
  lemma SplitIntendedKeepsArguments(argv: seq<string>)
    ensures SplitIntended(argv).args != []
    ensures forall k :: 0 <= k < |argv| ==>
      argv[k] == "--" || argv[k] in SplitIntended(argv).args || argv[k] in SplitIntended(argv).extra
  {
    var h := FirstFlag(argv);
    if h < |argv| && argv[h] == "--" {
      forall k | 0 <= k < |argv| && argv[k] != "--"
        ensures argv[k] in SplitIntended(argv).args || argv[k] in SplitIntended(argv).extra
      {
        if k < h {
          assert argv[..h][k] == argv[k];
        } else {
          assert argv[h + 1..][k - h - 1] == argv[k];
        }
      }
    }
  }

  lemma {:induction false} FlagCountBeforeFirstFlag(argv: seq<string>, n: nat)
    requires n <= FirstFlag(argv)
    ensures FlagCount(argv, n) == 0
  {
    if n > 0 {
      FlagCountBeforeFirstFlag(argv, n - 1);
    }
  }

  /** With no `-` argument ahead of the first `--`, the first `-` argument is that `--`. */
  lemma NoFlagBeforeSeparator(argv: seq<string>)
    requires FlagCount(argv, FirstDashDash(argv)) == 0
    ensures FirstFlag(argv) == FirstDashDash(argv)
  {
    var d, h := FirstDashDash(argv), FirstFlag(argv);
    if h < d {
      FlagCountPositive(argv, h, d);
    }
  }

  /** The loop as written and the intended split give the same packages and pass-through list. */
  predicate Agree(argv: seq<string>) {
    SplitAsWritten(argv) == Ok(SplitIntended(argv))
  }

  /** With no `-` argument ahead of the first `--`, the two splits agree. */
  lemma AgreeWithoutFlag(argv: seq<string>)
    requires FlagCount(argv, FirstDashDash(argv)) == 0
    ensures Agree(argv)
  {
    NoFlagBeforeSeparator(argv);
    assert argv[..|argv|] == argv;
  }

  /** With no `--` and a single `-` argument, the two splits agree. */
  lemma AgreeWithOneFlag(argv: seq<string>)
    requires FirstDashDash(argv) == |argv| && FlagCount(argv, |argv|) == 1
    ensures Agree(argv)
  {
    if FirstFlag(argv) == |argv| {
      FlagCountBeforeFirstFlag(argv, |argv|);
    }
  }

  lemma {:induction false} FlagCountPositive(argv: seq<string>, h: nat, n: nat)
    requires h < n <= |argv| && IsFlag(argv[h]) && argv[h] != "--"
    ensures FlagCount(argv, n) >= 1
  {
    if n - 1 > h {
      FlagCountPositive(argv, h, n - 1);
    }
  }

  /** `covg -- -run TestX -v`: flag parsing strips the `--`, the loop then sees two `-` arguments
      and the pass-through list ends up empty, so `go test` receives neither `-run TestX` nor `-v`. */
  lemma AsWrittenDropsPassThrough()
    ensures SplitAsWritten(["-run", "TestX", "-v"]) == Ok(Split(["."], []))
    ensures SplitIntended(["-run", "TestX", "-v"]) == Split(["."], ["-run", "TestX", "-v"])
  {
    var argv := ["-run", "TestX", "-v"];
    assert FirstDashDash(argv) == 3 by {
      assert argv[1..][1..][1..] == [];
    }
    assert FlagCount(argv, 3) == 2;
    assert FirstFlag(argv) == 0;
  }

  /** A `-` argument followed later by a `--` makes the loop slice the nil `args` past its end. */
  lemma AsWrittenPanicsOnLateSeparator()
    ensures SplitAsWritten(["./pkg", "-v", "--", "-count=1"]) == Panic(SliceBounds)
    ensures SplitIntended(["./pkg", "-v", "--", "-count=1"]) == Split(["."], ["./pkg", "-v", "--", "-count=1"])
  {
    var argv := ["./pkg", "-v", "--", "-count=1"];
    assert FirstDashDash(argv) == 2 by {
      assert argv[1..][1..][0] == "--";
    }
    assert FlagCount(argv, 2) == 1;
    assert FirstFlag(argv) == 1 by {
      assert argv[1..][0] == "-v";
    }
  }
}
