/** The block matcher: the blocks of a file that belong to one function (`(*FuncExtent).profile`). */
module Matcher {
  import opened Types

  /** `b` starts at or after the end of `f`. */
  predicate PastEnd(f: FuncExtent, b: Block) {
    b.StartLine > f.endLine || (b.StartLine == f.endLine && b.StartCol >= f.endCol)
  }

  /** `b` ends at or before the start of `f`. */
  predicate BeforeStart(f: FuncExtent, b: Block) {
    b.EndLine < f.startLine || (b.EndLine == f.startLine && b.EndCol <= f.startCol)
  }

  /** Index of the first block that lies past the end of `f`, or `|bs|` when there is none. */
  function FirstPast(f: FuncExtent, bs: seq<Block>): (e: nat)
    ensures e <= |bs|
    ensures forall i :: 0 <= i < e ==> !PastEnd(f, bs[i])
    ensures e < |bs| ==> PastEnd(f, bs[e])
  {
    if bs == [] || PastEnd(f, bs[0]) then 0 else 1 + FirstPast(f, bs[1..])
  }

  /** Index of the first block, ahead of `FirstPast`, that is not wholly before `f`;
      `FirstPast(f, bs)` itself when every block up to there is before `f`. */
  function FirstInRange(f: FuncExtent, bs: seq<Block>): (s: nat)
    ensures s <= FirstPast(f, bs)
    ensures forall i :: 0 <= i < s ==> BeforeStart(f, bs[i])
    ensures s < FirstPast(f, bs) ==> !BeforeStart(f, bs[s])
  {
    if bs == [] || PastEnd(f, bs[0]) || !BeforeStart(f, bs[0]) then 0 else 1 + FirstInRange(f, bs[1..])
  }

  /** The blocks that belong to `f`: the window from the first block not before `f` up to the
      first block past it. A function with no block in that window is a fatal inconsistency. */
  function Match(f: FuncExtent, bs: seq<Block>): (r: Result<seq<Block>>)
    ensures r.Panic? <==> forall i :: 0 <= i < FirstPast(f, bs) ==> BeforeStart(f, bs[i])
    ensures r.Panic? ==> r.message == f.name
    ensures r.Ok? ==> r.value != [] && !BeforeStart(f, r.value[0])
    ensures r.Ok? ==> forall k :: 0 <= k < |r.value| ==> !PastEnd(f, r.value[k])
  {
    var s, e := FirstInRange(f, bs), FirstPast(f, bs);
    if s == e then Panic(f.name) else Ok(bs[s..e])
  }

  /** One forward scan over the blocks, as `(*FuncExtent).profile` does it. */
  method Profile(f: FuncExtent, bs: seq<Block>) returns (r: Result<seq<Block>>)
    ensures r == Match(f, bs)
    ensures r.Ok? ==> r.value == bs[FirstInRange(f, bs)..FirstPast(f, bs)]
  {
    var start := -1;
    var i := 0;
    while i < |bs|
      invariant 0 <= i <= |bs|
      invariant forall k :: 0 <= k < i ==> !PastEnd(f, bs[k])
      invariant -1 <= start < i
      invariant forall k :: 0 <= k < i && (start == -1 || k < start) ==> BeforeStart(f, bs[k])
      invariant start != -1 ==> !BeforeStart(f, bs[start])
    {
      var b := bs[i];
      if PastEnd(f, b) {
        if start == -1 {
          return Panic(f.name);
        }
        return Ok(bs[start..i]);
      }
      if BeforeStart(f, b) {
        i := i + 1;
        continue;
      }
      if start == -1 {
        start := i;
      }
      i := i + 1;
    }
    if start == -1 {
      return Panic(f.name);
    }
    assert FirstPast(f, bs) == |bs|;
    assert FirstInRange(f, bs) == start;
    assert bs[start..] == bs[start..|bs|];
    return Ok(bs[start..]);
  }

  /** When every block is either wholly before `f` or past its end, the matcher panics. */
  lemma OutOfRangeBlocksPanic(f: FuncExtent, bs: seq<Block>)
    requires forall i :: 0 <= i < |bs| ==> BeforeStart(f, bs[i]) || PastEnd(f, bs[i])
    ensures Match(f, bs) == Panic(f.name)
  {
  }

  /** A block that overlaps `f` and comes ahead of every block past it is always matched:
      the matcher cannot miss a block of the function. */
  lemma {:induction false} OverlappingBlockMatched(f: FuncExtent, bs: seq<Block>, j: nat)
    requires j < |bs| && !BeforeStart(f, bs[j]) && !PastEnd(f, bs[j])
    requires forall i :: 0 <= i < j ==> !PastEnd(f, bs[i])
    ensures Match(f, bs).Ok?
    ensures FirstInRange(f, bs) <= j < FirstPast(f, bs)
  {
  }

  // ---- The matched windows partition the blocks ----

  /** `b` has a positive extent: it starts strictly before it ends. */
  predicate NonEmpty(b: Block) {
    b.StartLine < b.EndLine || (b.StartLine == b.EndLine && b.StartCol < b.EndCol)
  }

  /** `f` starts at or before its end. */
  predicate Spans(f: FuncExtent) {
    f.startLine < f.endLine || (f.startLine == f.endLine && f.startCol <= f.endCol)
  }

  /** `f` ends at or before `g` starts. */
  predicate EndsBefore(f: FuncExtent, g: FuncExtent) {
    f.endLine < g.startLine || (f.endLine == g.startLine && f.endCol <= g.startCol)
  }

  /** The functions of a file in source order, as the declaration walk finds them: each spans
      forwards and ends before every later one starts. */
  predicate Ordered(fs: seq<FuncExtent>) {
    (forall k :: 0 <= k < |fs| ==> Spans(fs[k])) &&
    (forall k, l :: 0 <= k < l < |fs| ==> EndsBefore(fs[k], fs[l]))
  }

  /** `b` lies within `f`. */
  predicate Within(b: Block, f: FuncExtent) {
    (f.startLine < b.StartLine || (f.startLine == b.StartLine && f.startCol <= b.StartCol)) &&
    (b.EndLine < f.endLine || (b.EndLine == f.endLine && b.EndCol <= f.endCol))
  }

  /** Every block is non-empty and lies within one of the functions, as the blocks of a profile
      made by `go test -cover` lie within function bodies. */
  predicate Inside(bs: seq<Block>, fs: seq<FuncExtent>) {
    forall i :: 0 <= i < |bs| ==> NonEmpty(bs[i]) && exists k :: 0 <= k < |fs| && Within(bs[i], fs[k])
  }

  /** Every function has its blocks matched. */
  predicate AllMatched(fs: seq<FuncExtent>, bs: seq<Block>) {
    forall k :: 0 <= k < |fs| ==> Match(fs[k], bs).Ok?
  }

  /** The blocks matched to each function of `fs`, in order, concatenated; a function the matcher
      panics on adds none. */
  function Windows(fs: seq<FuncExtent>, bs: seq<Block>): seq<Block> {
    if fs == [] then []
    else
      Windows(fs[..|fs| - 1], bs) + match Match(fs[|fs| - 1], bs) case Ok(w) => w case Panic(_) => []
  }

  /** A block within function `j` is past the end of every earlier function, before the start of
      every later one, and overlaps function `j` itself. */
  lemma Relative(fs: seq<FuncExtent>, b: Block, j: nat, k: nat)
    requires Ordered(fs) && NonEmpty(b) && j < |fs| && k < |fs| && Within(b, fs[j])
    ensures k < j ==> PastEnd(fs[k], b) && !BeforeStart(fs[k], b)
    ensures k == j ==> !PastEnd(fs[k], b) && !BeforeStart(fs[k], b)
    ensures k > j ==> BeforeStart(fs[k], b) && !PastEnd(fs[k], b)
  {
    assert Spans(fs[k]);
    if k < j {
      assert EndsBefore(fs[k], fs[j]);
    } else if k > j {
      assert EndsBefore(fs[j], fs[k]);
    }
  }

  /** `FirstInRange` is the one index with its three properties. */
  lemma FirstInRangeIs(f: FuncExtent, bs: seq<Block>, x: nat)
    requires x <= FirstPast(f, bs)
    requires forall i :: 0 <= i < x ==> BeforeStart(f, bs[i])
    requires x < FirstPast(f, bs) ==> !BeforeStart(f, bs[x])
    ensures FirstInRange(f, bs) == x
  {
  }

  /** Blocks ahead of `x` that are none past `f` put `FirstPast` at or after `x`. */
  lemma FirstPastFrom(f: FuncExtent, bs: seq<Block>, x: nat)
    requires x <= |bs|
    requires forall i :: 0 <= i < x ==> !PastEnd(f, bs[i])
    ensures x <= FirstPast(f, bs)
  {
  }

  /** For the functions `k` and `k + 1`, a block is past the first exactly when it is not before
      the second, and past the second only when past the first. */
  lemma Neighbours(fs: seq<FuncExtent>, b: Block, k: nat)
    requires Ordered(fs) && k + 1 < |fs| && NonEmpty(b) && exists j :: 0 <= j < |fs| && Within(b, fs[j])
    ensures PastEnd(fs[k], b) <==> !BeforeStart(fs[k + 1], b)
    ensures PastEnd(fs[k + 1], b) ==> PastEnd(fs[k], b)
  {
    var j :| 0 <= j < |fs| && Within(b, fs[j]);
    Relative(fs, b, j, k);
    Relative(fs, b, j, k + 1);
  }

  /** The window of one function ends where the window of the next one starts. */
  lemma Boundary(fs: seq<FuncExtent>, bs: seq<Block>, k: nat)
    requires Ordered(fs) && Inside(bs, fs) && k + 1 < |fs|
    ensures FirstInRange(fs[k + 1], bs) == FirstPast(fs[k], bs)
  {
    var e := FirstPast(fs[k], bs);
    forall i | 0 <= i < |bs|
      ensures PastEnd(fs[k], bs[i]) <==> !BeforeStart(fs[k + 1], bs[i])
      ensures PastEnd(fs[k + 1], bs[i]) ==> PastEnd(fs[k], bs[i])
    {
      Neighbours(fs, bs[i], k);
    }
    FirstPastFrom(fs[k + 1], bs, e);
    FirstInRangeIs(fs[k + 1], bs, e);
  }

  /** The window of the first function starts at the first block. */
  lemma FirstWindowStart(fs: seq<FuncExtent>, bs: seq<Block>)
    requires Ordered(fs) && Inside(bs, fs) && fs != []
    ensures FirstInRange(fs[0], bs) == 0
  {
    if bs != [] {
      var j :| 0 <= j < |fs| && Within(bs[0], fs[j]);
      Relative(fs, bs[0], j, 0);
    }
  }

  /** No block lies past the end of the last function. */
  lemma LastWindowEnd(fs: seq<FuncExtent>, bs: seq<Block>)
    requires Ordered(fs) && Inside(bs, fs) && fs != []
    ensures FirstPast(fs[|fs| - 1], bs) == |bs|
  {
    forall i | 0 <= i < |bs|
      ensures !PastEnd(fs[|fs| - 1], bs[i])
    {
      var j :| 0 <= j < |fs| && Within(bs[i], fs[j]);
      Relative(fs, bs[i], j, |fs| - 1);
    }
    FirstPastFrom(fs[|fs| - 1], bs, |bs|);
  }

  lemma SliceJoin(bs: seq<Block>, s: nat, e: nat)
    requires s <= e <= |bs|
    ensures bs[..s] + bs[s..e] == bs[..e]
  {
  }

  /** One more matched function adds its window. */
  lemma WindowsLast(fs: seq<FuncExtent>, bs: seq<Block>, n: nat)
    requires 1 <= n <= |fs| && Match(fs[n - 1], bs).Ok?
    ensures Windows(fs[..n], bs) == Windows(fs[..n - 1], bs) + bs[FirstInRange(fs[n - 1], bs)..FirstPast(fs[n - 1], bs)]
  {
    assert fs[..n][..n - 1] == fs[..n - 1];
    assert fs[..n][n - 1] == fs[n - 1];
  }

  /** The windows follow each other: the first starts at the first block and each next one
      starts where the previous one ends. */
  predicate Chained(fs: seq<FuncExtent>, bs: seq<Block>) {
    (fs != [] ==> FirstInRange(fs[0], bs) == 0) &&
    forall k :: 0 <= k < |fs| - 1 ==> FirstInRange(fs[k + 1], bs) == FirstPast(fs[k], bs)
  }

  lemma {:induction false} WindowsPrefix(fs: seq<FuncExtent>, bs: seq<Block>, n: nat)
    requires Chained(fs, bs) && AllMatched(fs, bs) && 1 <= n <= |fs|
    ensures Windows(fs[..n], bs) == bs[..FirstPast(fs[n - 1], bs)]
  {
    var s, e := FirstInRange(fs[n - 1], bs), FirstPast(fs[n - 1], bs);
    WindowsLast(fs, bs, n);
    if n == 1 {
      assert Windows(fs[..0], bs) == [];
      assert s == 0;
    } else {
      WindowsPrefix(fs, bs, n - 1);
      assert s == FirstPast(fs[n - 2], bs);
    }
    SliceJoin(bs, s, e);
  }

  /** Only an empty file has no function to hold its blocks. */
  lemma InsideSome(bs: seq<Block>, fs: seq<FuncExtent>)
    requires Inside(bs, fs)
    ensures bs != [] ==> fs != []
  {
    if bs != [] {
      assert NonEmpty(bs[0]);
    }
  }

  /** The partition law of the matcher: when the functions are in source order, every block lies
      within one of them and each is matched, their windows, in order, are exactly the blocks of
      the file, so no block is lost or counted twice. */
  lemma Partition(fs: seq<FuncExtent>, bs: seq<Block>)
    requires Ordered(fs) && Inside(bs, fs) && AllMatched(fs, bs)
    ensures Windows(fs, bs) == bs
  {
    InsideSome(bs, fs);
    if fs != [] {
      FirstWindowStart(fs, bs);
      forall k | 0 <= k < |fs| - 1
        ensures FirstInRange(fs[k + 1], bs) == FirstPast(fs[k], bs)
      {
        Boundary(fs, bs, k);
      }
      WindowsPrefix(fs, bs, |fs|);
      LastWindowEnd(fs, bs);
      assert fs[..|fs|] == fs;
    }
  }
}
