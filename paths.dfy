/** Path elision: how many leading characters of every file name the report leaves out
    (`commonPrefix` and the offset computation of `printCoverage`). Paths use '/' as separator. */
module Paths {

  /** The character-wise longest common prefix of `a` and `b`. */
  function CommonPrefixOf(a: string, b: string): (p: string)
    ensures p <= a && p <= b
    ensures |p| == |a| || |p| == |b| || a[|p|] != b[|p|]
  {
    if a == [] || b == [] || a[0] != b[0] then [] else [a[0]] + CommonPrefixOf(a[1..], b[1..])
  }

  /** Every common prefix of `a` and `b` is a prefix of `CommonPrefixOf(a, b)`. */
  lemma {:induction false} CommonPrefixGreatest(a: string, b: string, q: string)
    requires q <= a && q <= b
    ensures q <= CommonPrefixOf(a, b)
  {
    if q != [] {
      CommonPrefixGreatest(a[1..], b[1..], q[1..]);
    }
  }

  /** The index loop of `commonPrefix`. */
  method CommonPrefix(a: string, b: string) returns (p: string)
    ensures p == CommonPrefixOf(a, b)
  {
    var l := |a|;
    if |b| < l {
      l := |b|;
    }
    var i := 0;
    while i < l && a[i] == b[i]
      invariant 0 <= i <= l
      invariant a[..i] == b[..i]
    {
      i := i + 1;
    }
    p := a[..i];
    CommonPrefixGreatest(a, b, p);
    assert |CommonPrefixOf(a, b)| <= i;
  }

  /** `commonPrefix` folded over `dirs` from the left, starting from `dirs[0]`. */
  function FoldPrefix(dirs: seq<string>): string
    requires dirs != []
  {
    if |dirs| == 1 then dirs[0] else CommonPrefixOf(FoldPrefix(dirs[..|dirs| - 1]), dirs[|dirs| - 1])
  }

  predicate CommonToAll(q: string, dirs: seq<string>) {
    forall k :: 0 <= k < |dirs| ==> q <= dirs[k]
  }

  /** The fold is the longest common prefix of all the directories: it is a prefix of each, and
      every string that is a prefix of each is a prefix of it. */
  lemma {:induction false} FoldPrefixLongest(dirs: seq<string>)
    requires dirs != []
    ensures CommonToAll(FoldPrefix(dirs), dirs)
    ensures forall q :: CommonToAll(q, dirs) ==> q <= FoldPrefix(dirs)
  {
    if |dirs| > 1 {
      var init := dirs[..|dirs| - 1];
      var last := dirs[|dirs| - 1];
      FoldPrefixLongest(init);
      var p := FoldPrefix(dirs);
      assert p <= FoldPrefix(init) && p <= last;
      assert forall k :: 0 <= k < |init| ==> init[k] == dirs[k];
      forall q | CommonToAll(q, dirs)
        ensures q <= p
      {
        assert CommonToAll(q, init);
        CommonPrefixGreatest(FoldPrefix(init), last, q);
      }
    }
  }

  /** The offset as `printCoverage` computes it: zero in full-path mode or with no profile;
      otherwise the length of the common prefix of the directories plus one for the separator,
      unless that prefix is empty. */
  function OffsetAsWritten(all: bool, dirs: seq<string>): nat {
    if all || dirs == [] then 0
    else
      var p := FoldPrefix(dirs);
      if p == [] then 0 else |p| + 1
  }

  /** The loop of `printCoverage` that folds `commonPrefix` over the directories. */
  method FoldCommonPrefix(dirs: seq<string>) returns (prefix: string)
    requires dirs != []
    ensures prefix == FoldPrefix(dirs)
  {
    prefix := dirs[0];
    for i := 1 to |dirs|
      invariant prefix == FoldPrefix(dirs[..i])
    {
      assert dirs[..i + 1][..i] == dirs[..i];
      prefix := CommonPrefix(prefix, dirs[i]);
    }
    assert dirs[..|dirs|] == dirs;
  }

  /** The offset computation of `printCoverage`, as written. */
  method PathOffsetAsWritten(all: bool, dirs: seq<string>) returns (offset: nat)
    ensures offset == OffsetAsWritten(all, dirs)
    ensures !all && |dirs| == 1 ==> offset == (if dirs[0] == "" then 0 else |dirs[0]| + 1)
  {
    offset := 0;
    if !all {
      if |dirs| == 1 {
        offset := |dirs[0]|;
        if offset != 0 {
          offset := offset + 1;
        }
      } else if |dirs| != 0 {
        var prefix := FoldCommonPrefix(dirs);
        offset := |prefix|;
        if offset != 0 {
          offset := offset + 1;
        }
      }
    }
  }

  /** Length of the longest prefix of `p` that ends with a separator; 0 when `p` holds none. */
  function DirBoundary(p: string): (n: nat)
    ensures n <= |p|
    ensures n == 0 || p[n - 1] == '/'
    ensures forall i :: n <= i < |p| ==> p[i] != '/'
  {
    if p == [] then 0 else if p[|p| - 1] == '/' then |p| else DirBoundary(p[..|p| - 1])
  }

  /** Every directory followed by the separator, as it appears at the head of its file names. */
  function Slashed(dirs: seq<string>): (r: seq<string>)
    ensures |r| == |dirs| && forall k :: 0 <= k < |dirs| ==> r[k] == dirs[k] + "/"
  {
    seq(|dirs|, k requires 0 <= k < |dirs| => dirs[k] + "/")
  }

  /** The offset as intended: the longest run of whole directories, separators included, that
      every file name starts with, that is, the common prefix of the directories each followed
      by its separator, cut after its last separator. */
  function Offset(all: bool, dirs: seq<string>): nat {
    if all || dirs == [] then 0 else DirBoundary(FoldPrefix(Slashed(dirs)))
  }

  /** Both offsets for two profiles, in terms of the common prefix of their directories. */
  lemma PairOffsets(a: string, b: string)
    ensures OffsetAsWritten(false, [a, b]) == if CommonPrefixOf(a, b) == [] then 0 else |CommonPrefixOf(a, b)| + 1
    ensures Offset(false, [a, b]) == DirBoundary(CommonPrefixOf(a + "/", b + "/"))
  {
    assert [a, b][..1] == [a];
    assert FoldPrefix([a, b]) == CommonPrefixOf(a, b);
    var s := Slashed([a, b]);
    assert s[..1] == [a + "/"];
    assert FoldPrefix(s) == CommonPrefixOf(a + "/", b + "/");
  }

  /** When all the directories are the same, the fold gives that directory. */
  lemma FoldPrefixOfSame(dirs: seq<string>)
    requires dirs != [] && forall k :: 0 <= k < |dirs| ==> dirs[k] == dirs[0]
    ensures FoldPrefix(dirs) == dirs[0]
  {
    FoldPrefixLongest(dirs);
    assert CommonToAll(dirs[0], dirs);
  }

  /** The corrected offset computation: the same fold over the directories with their separator,
      then a cut after the last separator of the result. */
  method PathOffset(all: bool, dirs: seq<string>) returns (offset: nat)
    ensures offset == Offset(all, dirs)
  {
    offset := 0;
    if !all && |dirs| != 0 {
      var prefix := FoldCommonPrefix(Slashed(dirs));
      offset := DirBoundary(prefix);
    }
  }

  /** `q` is a run of whole directories, ending with a separator, that every directory followed by
      its separator starts with. */
  predicate DirPrefix(q: string, dirs: seq<string>) {
    q != [] && q[|q| - 1] == '/' && CommonToAll(q, Slashed(dirs))
  }

  /** The corrected offset is exactly the length of the longest common run of whole directories:
      when it is not zero, that many characters form such a run, and no such run is longer. */
  lemma OffsetIsLongestDirPrefix(all: bool, dirs: seq<string>)
    ensures dirs != [] ==> Offset(all, dirs) <= |dirs[0]| + 1
    ensures !all && dirs != [] && Offset(all, dirs) > 0 ==> DirPrefix((dirs[0] + "/")[..Offset(all, dirs)], dirs)
    ensures !all && dirs != [] ==> forall q :: DirPrefix(q, dirs) ==> |q| <= Offset(all, dirs)
  {
    if !all && dirs != [] {
      var s := Slashed(dirs);
      var p := FoldPrefix(s);
      var n := DirBoundary(p);
      FoldPrefixLongest(s);
      assert p <= s[0];
      if n > 0 {
        assert (dirs[0] + "/")[..n] == p[..n];
        forall k | 0 <= k < |s|
          ensures p[..n] <= s[k]
        {
          assert p <= s[k];
        }
      }
      forall q | DirPrefix(q, dirs)
        ensures |q| <= n
      {
        assert q <= p;
        assert p[|q| - 1] == '/';
      }
    }
  }

  /** Each file name starts with its directory and a separator, as `filepath.Dir` gives it. */
  predicate InDirs(files: seq<string>, dirs: seq<string>) {
    |files| == |dirs| && forall k :: 0 <= k < |files| ==> dirs[k] + "/" <= files[k]
  }

  lemma DistinctSuffixes(files: seq<string>, n: nat)
    requires forall k :: 0 <= k < |files| ==> n <= |files[k]|
    requires forall k :: 0 <= k < |files| ==> files[k][..n] == files[0][..n]
    ensures forall k, l :: 0 <= k < |files| && 0 <= l < |files| && files[k] != files[l] ==> files[k][n..] != files[l][n..]
  {
    forall k, l | 0 <= k < |files| && 0 <= l < |files| && files[k] != files[l]
      ensures files[k][n..] != files[l][n..]
    {
      assert files[k] == files[k][..n] + files[k][n..];
      assert files[l] == files[l][..n] + files[l][n..];
    }
  }

  /** The corrected offset only elides characters that every file name shares, never more than a
      file's directory and separator, and it cuts at a separator: file names stay distinct and
      every trimmed path starts with a path component. */
  lemma OffsetElidesCommonDirectories(files: seq<string>, dirs: seq<string>, all: bool)
    requires InDirs(files, dirs)
    ensures forall k :: 0 <= k < |files| ==> Offset(all, dirs) <= |dirs[k]| + 1 <= |files[k]|
    ensures forall k :: 0 <= k < |files| ==> files[k][..Offset(all, dirs)] == files[0][..Offset(all, dirs)]
    ensures forall k :: 0 <= k < |files| && Offset(all, dirs) > 0 ==> files[k][Offset(all, dirs) - 1] == '/'
    ensures forall k, l :: 0 <= k < |files| && 0 <= l < |files| && files[k] != files[l] ==>
      files[k][Offset(all, dirs)..] != files[l][Offset(all, dirs)..]
  {
    var n := Offset(all, dirs);
    if !all && dirs != [] {
      var s := Slashed(dirs);
      var p := FoldPrefix(s);
      FoldPrefixLongest(s);
      forall k | 0 <= k < |files|
        ensures n <= |dirs[k]| + 1 <= |files[k]| && files[k][..n] == p[..n] && (n > 0 ==> files[k][n - 1] == '/')
      {
        assert p <= s[k];
        assert s[k] <= files[k];
        assert files[k][..n] == s[k][..n] == p[..n];
      }
    }
    DistinctSuffixes(files, n);
  }

  /** The correction changes nothing when every profile lies in one directory, in particular for
      a single profile, except for an empty directory name, which `filepath.Dir` never returns:
      there the corrected offset elides the separator the file names then start with. */
  lemma OffsetAgreesForOneDirectory(all: bool, dirs: seq<string>)
    requires forall k :: 0 <= k < |dirs| ==> dirs[k] == dirs[0]
    ensures all || dirs == [] || dirs[0] != "" ==> Offset(all, dirs) == OffsetAsWritten(all, dirs)
    ensures !all && dirs != [] && dirs[0] == "" ==> Offset(all, dirs) == 1 && OffsetAsWritten(all, dirs) == 0
  {
    if !all && dirs != [] {
      FoldPrefixOfSame(dirs);
      FoldPrefixOfSame(Slashed(dirs));
      var d := dirs[0] + "/";
      assert d[|d| - 1] == '/';
      assert DirBoundary(d) == |d|;
    }
  }

  /** Two profiles in sibling directories `x/a` and `x/b`: the common prefix is `x/`, which already
      ends with the separator, so adding one more elides the `a` and the `b`; both files are then
      printed as `/f.go`. */
  lemma AsWrittenOffsetMergesSiblings()
    ensures OffsetAsWritten(false, ["x/a", "x/b"]) == 3
    ensures "x/a/f.go"[3..] == "x/b/f.go"[3..] == "/f.go"
    ensures Offset(false, ["x/a", "x/b"]) == 2
    ensures "x/a/f.go"[2..] == "a/f.go" && "x/b/f.go"[2..] == "b/f.go"
  {
    PairOffsets("x/a", "x/b");
    assert "x/a" + "/" == "x/a/" && "x/b" + "/" == "x/b/";
    SiblingsPrefix();
    SiblingsSlashedPrefix();
    assert DirBoundary("x/") == 2;
  }

  lemma SiblingsPrefix()
    ensures CommonPrefixOf("x/a", "x/b") == "x/"
  {
    assert CommonPrefixOf("a", "b") == [];
    assert CommonPrefixOf("/a", "/b") == "/";
  }

  lemma SiblingsSlashedPrefix()
    ensures CommonPrefixOf("x/a/", "x/b/") == "x/"
  {
    assert CommonPrefixOf("a/", "b/") == [];
    assert CommonPrefixOf("/a/", "/b/") == "/";
  }

  /** Two profiles in `/a/bee` and `/a/box`: the common prefix `/a/b` ends inside a directory name,
      and the offset as written, adding one for a separator that is not there, cuts one
      character further, leaving `e/f.go` and `x/g.go`; the corrected offset stops after `/a/`. */
  lemma AsWrittenOffsetCutsNames()
    ensures OffsetAsWritten(false, ["/a/bee", "/a/box"]) == 5
    ensures "/a/bee/f.go"[5..] == "e/f.go" && "/a/box/g.go"[5..] == "x/g.go"
    ensures Offset(false, ["/a/bee", "/a/box"]) == 3
    ensures "/a/bee/f.go"[3..] == "bee/f.go" && "/a/box/g.go"[3..] == "box/g.go"
  {
    PairOffsets("/a/bee", "/a/box");
    assert "/a/bee" + "/" == "/a/bee/" && "/a/box" + "/" == "/a/box/";
    BeeBoxPrefix();
    BeeBoxSlashedPrefix();
    assert DirBoundary("/a/b") == DirBoundary("/a/") == 3;
  }

  lemma BeeBoxPrefix()
    ensures CommonPrefixOf("/a/bee", "/a/box") == "/a/b"
  {
    assert CommonPrefixOf("ee", "ox") == [];
    assert CommonPrefixOf("bee", "box") == "b";
    assert CommonPrefixOf("/bee", "/box") == "/b";
    assert CommonPrefixOf("a/bee", "a/box") == "a/b";
  }

  lemma BeeBoxSlashedPrefix()
    ensures CommonPrefixOf("/a/bee/", "/a/box/") == "/a/b"
  {
    assert CommonPrefixOf("ee/", "ox/") == [];
    assert CommonPrefixOf("bee/", "box/") == "b";
    assert CommonPrefixOf("/bee/", "/box/") == "/b";
    assert CommonPrefixOf("a/bee/", "a/box/") == "a/b";
  }

  /** A profile directory `x` and its sub-directory `x/sub`: the common prefix is the whole
      directory `x`, and both computations elide `x/`, leaving `f.go` and `sub/g.go`. */
  lemma NestedDirectoriesAgree()
    ensures OffsetAsWritten(false, ["x", "x/sub"]) == Offset(false, ["x", "x/sub"]) == 2
    ensures "x/f.go"[2..] == "f.go" && "x/sub/g.go"[2..] == "sub/g.go"
  {
    PairOffsets("x", "x/sub");
    assert "x" + "/" == "x/" && "x/sub" + "/" == "x/sub/";
    NestedPrefix();
    NestedSlashedPrefix();
    assert DirBoundary("x/") == 2;
  }

  lemma NestedPrefix()
    ensures CommonPrefixOf("x", "x/sub") == "x"
  {
    assert CommonPrefixOf("", "/sub") == [];
  }

  lemma NestedSlashedPrefix()
    ensures CommonPrefixOf("x/", "x/sub/") == "x/"
  {
    assert CommonPrefixOf("", "sub/") == [];
    assert CommonPrefixOf("/", "/sub/") == "/";
  }
}
