/** The report driver of `printCoverage`: match, aggregate and format every function of every
    profile, and accumulate the grand totals. */
module Report {
  import opened Types
  import opened Matcher
  import opened Coverage
  import opened Ranges
  import opened Text
  import Paths

  /** A profile together with the function extents that the resolver found in its source file. */
  datatype FileFuncs = FileFuncs(profile: Profile, funcs: seq<FuncExtent>)

  /** One report line: trimmed path, start line and name of the function, its covered and total
      statements (printed as a percentage), and its ranges column. */
  datatype ReportLine = ReportLine(path: string, line: int, name: string, covered: int, total: int, ranges: string)

  /** The report lines so far and the grand totals of the `total:` line. */
  datatype Summary = Summary(lines: seq<ReportLine>, covered: int, total: int)

  /** The run-time panic of `fn[offset:]` when the offset exceeds the file name. */
  const SliceBounds := "slice bounds out of range"

  /** What one function adds to the report. */
  function Step(acc: Summary, fn: string, bs: seq<Block>, f: FuncExtent, offset: nat, all: bool): Result<Summary> {
    match Match(f, bs)
    case Panic(m) => Panic(m)
    case Ok(blocks) => StepOn(acc, fn, blocks, f, offset, all)
  }

  /** What function `f`, whose blocks are `blocks`, adds to the report. */
  function StepOn(acc: Summary, fn: string, blocks: seq<Block>, f: FuncExtent, offset: nat, all: bool): Result<Summary> {
    var c, t := CoveredStmts(blocks), TotalStmts(blocks);
    if f.name == "_" && !all then Ok(acc)
    else
      var counted := Summary(acc.lines, acc.covered + c, acc.total + t);
      if c == t && !all then Ok(counted)
      else if offset > |fn| then Panic(SliceBounds)
      else
        var ranges := if c == t then ExtentsBlocks(blocks) else MissingRanges(blocks);
        Ok(counted.(lines := counted.lines + [ReportLine(fn[offset..], f.startLine, f.name, c, t, RenderAll(ranges))]))
  }

  /** The report after one more function: a panic so far stays, otherwise the function's step. */
  function Next(r: Result<Summary>, fn: string, bs: seq<Block>, f: FuncExtent, offset: nat, all: bool): Result<Summary> {
    if r.Panic? then r else Step(r.value, fn, bs, f, offset, all)
  }

  /** The functions of one file, in order; the first panic ends the report. */
  function FuncsReport(acc: Result<Summary>, fn: string, bs: seq<Block>, funcs: seq<FuncExtent>, offset: nat, all: bool): Result<Summary>
    decreases |funcs|
  {
    if funcs == [] then acc
    else
      Next(FuncsReport(acc, fn, bs, funcs[..|funcs| - 1], offset, all), fn, bs, funcs[|funcs| - 1], offset, all)
  }

  function FileStep(acc: Result<Summary>, file: FileFuncs, offset: nat, all: bool): Result<Summary> {
    FuncsReport(acc, file.profile.FileName, file.profile.Blocks, file.funcs, offset, all)
  }

  function FilesFold(acc: Result<Summary>, files: seq<FileFuncs>, offset: nat, all: bool): Result<Summary>
    decreases |files|
  {
    if files == [] then acc else FileStep(FilesFold(acc, files[..|files| - 1], offset, all), files[|files| - 1], offset, all)
  }

  /** The whole report for a list of profiles. */
  function FilesReport(files: seq<FileFuncs>, offset: nat, all: bool): Result<Summary> {
    FilesFold(Ok(Summary([], 0, 0)), files, offset, all)
  }

  predicate NumberedFiles(files: seq<FileFuncs>) {
    forall i :: 0 <= i < |files| ==> Numbered(files[i].profile.Blocks)
  }

  lemma {:induction false} FuncsPanicStays(m: string, fn: string, bs: seq<Block>, funcs: seq<FuncExtent>, offset: nat, all: bool)
    ensures FuncsReport(Panic(m), fn, bs, funcs, offset, all) == Panic(m)
    decreases |funcs|
  {
    if funcs != [] {
      FuncsPanicStays(m, fn, bs, funcs[..|funcs| - 1], offset, all);
    }
  }

  lemma {:induction false} FilesPanicStays(m: string, files: seq<FileFuncs>, offset: nat, all: bool)
    ensures FilesFold(Panic(m), files, offset, all) == Panic(m)
    decreases |files|
  {
    if files != [] {
      FilesPanicStays(m, files[..|files| - 1], offset, all);
      var f := files[|files| - 1];
      FuncsPanicStays(m, f.profile.FileName, f.profile.Blocks, f.funcs, offset, all);
    }
  }

  /** A panic at function `j` of a file is the outcome for the whole file. */
  lemma {:induction false} FuncsPanicEnds(acc: Result<Summary>, fn: string, bs: seq<Block>, funcs: seq<FuncExtent>, j: nat, m: string, offset: nat, all: bool)
    requires j < |funcs| && FuncsReport(acc, fn, bs, funcs[..j + 1], offset, all) == Panic(m)
    ensures FuncsReport(acc, fn, bs, funcs, offset, all) == Panic(m)
    decreases |funcs|
  {
    if j + 1 == |funcs| {
      assert funcs[..j + 1] == funcs;
    } else {
      var init := funcs[..|funcs| - 1];
      assert init[..j + 1] == funcs[..j + 1];
      FuncsPanicEnds(acc, fn, bs, init, j, m, offset, all);
    }
  }

  /** A panic in file `i` is the outcome of the whole report. */
  lemma {:induction false} FilesPanicEnds(files: seq<FileFuncs>, i: nat, m: string, offset: nat, all: bool)
    requires i < |files| && FilesReport(files[..i + 1], offset, all) == Panic(m)
    ensures FilesReport(files, offset, all) == Panic(m)
    decreases |files|
  {
    if i + 1 == |files| {
      assert files[..i + 1] == files;
    } else {
      var init := files[..|files| - 1];
      var f := files[|files| - 1];
      assert init[..i + 1] == files[..i + 1];
      FilesPanicEnds(init, i, m, offset, all);
      FuncsPanicStays(m, f.profile.FileName, f.profile.Blocks, f.funcs, offset, all);
    }
  }

  lemma NumberedSlice(bs: seq<Block>, s: nat, e: nat)
    requires s <= e <= |bs| && Numbered(bs)
    ensures Numbered(bs[s..e])
  {
  }

  /** The body of the inner loop of `printCoverage`: one function of one profile. */
  method ReportFunc(acc: Summary, fn: string, bs: seq<Block>, f: FuncExtent, offset: nat, all: bool) returns (r: Result<Summary>)
    ensures Numbered(bs) ==> r == Step(acc, fn, bs, f, offset, all)
  {
    var blocks := Matcher.Profile(f, bs);
    if blocks.Panic? {
      return Panic(blocks.message);
    }
    if Numbered(bs) {
      NumberedSlice(bs, FirstInRange(f, bs), FirstPast(f, bs));
    }
    r := ReportBlocks(acc, fn, blocks.value, f, offset, all);
  }

  /** The rest of that loop body, once the blocks of the function are known. */
  method ReportBlocks(acc: Summary, fn: string, blocks: seq<Block>, f: FuncExtent, offset: nat, all: bool) returns (r: Result<Summary>)
    ensures Numbered(blocks) ==> r == StepOn(acc, fn, blocks, f, offset, all)
  {
    var c, t := CoverageBlocks(blocks);
    // A function named `_` is left out of the totals and the lines unless `all` is set.
    if f.name == "_" && !all {
      return Ok(acc);
    }
    var total := acc.total + t;
    var covered := acc.covered + c;
    if c == t {
      if !all {
        return Ok(Summary(acc.lines, covered, total));
      }
      if offset > |fn| {
        return Panic(SliceBounds);
      }
      var line := ReportLine(fn[offset..], f.startLine, f.name, c, t, RenderAll(ExtentsBlocks(blocks)));
      return Ok(Summary(acc.lines + [line], covered, total));
    }
    var missing := MissingBlocks(blocks);
    if offset > |fn| {
      return Panic(SliceBounds);
    }
    var line := ReportLine(fn[offset..], f.startLine, f.name, c, t, RenderAll(missing));
    return Ok(Summary(acc.lines + [line], covered, total));
  }

  /** The inner loop of `printCoverage`: the functions of one profile. */
  method ReportFuncs(acc: Summary, fn: string, bs: seq<Block>, funcs: seq<FuncExtent>, offset: nat, all: bool) returns (r: Result<Summary>)
    ensures Numbered(bs) ==> r == FuncsReport(Ok(acc), fn, bs, funcs, offset, all)
  {
    var cur := acc;
    for j := 0 to |funcs|
      invariant Numbered(bs) ==> FuncsReport(Ok(acc), fn, bs, funcs[..j], offset, all) == Ok(cur)
    {
      assert funcs[..j + 1][..j] == funcs[..j];
      var step := ReportFunc(cur, fn, bs, funcs[j], offset, all);
      if step.Panic? {
        if Numbered(bs) {
          FuncsPanicEnds(Ok(acc), fn, bs, funcs, j, step.message, offset, all);
        }
        return step;
      }
      cur := step.value;
    }
    assert funcs[..|funcs|] == funcs;
    r := Ok(cur);
  }

  /** The outer loop of `printCoverage` over the profiles. */
  method Report(files: seq<FileFuncs>, offset: nat, all: bool) returns (r: Result<Summary>)
    ensures NumberedFiles(files) ==> r == FilesReport(files, offset, all)
  {
    var acc := Summary([], 0, 0);
    for i := 0 to |files|
      invariant NumberedFiles(files) ==> FilesReport(files[..i], offset, all) == Ok(acc)
    {
      assert files[..i + 1][..i] == files[..i];
      var step := ReportFuncs(acc, files[i].profile.FileName, files[i].profile.Blocks, files[i].funcs, offset, all);
      if step.Panic? {
        if NumberedFiles(files) {
          FilesPanicEnds(files, i, step.message, offset, all);
        }
        return step;
      }
      acc := step.value;
    }
    assert files[..|files|] == files;
    r := Ok(acc);
  }

  /** `printCoverage` after parsing, as written: the path offset, then the report. */
  method PrintCoverage(files: seq<FileFuncs>, dirs: seq<string>, all: bool) returns (r: Result<Summary>)
    ensures NumberedFiles(files) ==> r == FilesReport(files, Paths.OffsetAsWritten(all, dirs), all)
  {
    var offset := Paths.PathOffsetAsWritten(all, dirs);
    r := Report(files, offset, all);
  }

  /** `printCoverage` with the corrected path offset, which elides whole directories only. */
  method PrintCoverageCorrected(files: seq<FileFuncs>, dirs: seq<string>, all: bool) returns (r: Result<Summary>)
    ensures NumberedFiles(files) ==> r == FilesReport(files, Paths.Offset(all, dirs), all)
  {
    var offset := Paths.PathOffset(all, dirs);
    r := Report(files, offset, all);
  }

  // ---- What the report promises ----

  /** A line of the default report names a function other than `_`, is not fully covered, and
      lists at least one missing range. */
  predicate DefaultLine(l: ReportLine) {
    l.name != "_" && l.covered != l.total && l.ranges != ""
  }

  predicate DefaultLines(lines: seq<ReportLine>) {
    forall k :: 0 <= k < |lines| ==> DefaultLine(lines[k])
  }

  lemma StepOnDefaultLines(acc: Summary, fn: string, blocks: seq<Block>, f: FuncExtent, offset: nat)
    requires DefaultLines(acc.lines) && StepOn(acc, fn, blocks, f, offset, false).Ok?
    ensures DefaultLines(StepOn(acc, fn, blocks, f, offset, false).value.lines)
  {
    var c, t := CoveredStmts(blocks), TotalStmts(blocks);
    if f.name != "_" && c != t {
      if forall i :: 0 <= i < |blocks| ==> Covered(blocks[i]) {
        AllCoveredFull(blocks);
      }
      NoMissingIffAllCovered(blocks);
      RenderAllShape(MissingRanges(blocks));
    }
  }

  lemma {:induction false} FuncsDefaultLines(acc: Summary, fn: string, bs: seq<Block>, funcs: seq<FuncExtent>, offset: nat)
    requires DefaultLines(acc.lines) && FuncsReport(Ok(acc), fn, bs, funcs, offset, false).Ok?
    ensures DefaultLines(FuncsReport(Ok(acc), fn, bs, funcs, offset, false).value.lines)
    decreases |funcs|
  {
    if funcs != [] {
      var init := funcs[..|funcs| - 1];
      FuncsDefaultLines(acc, fn, bs, init, offset);
      var r := FuncsReport(Ok(acc), fn, bs, init, offset, false);
      var f := funcs[|funcs| - 1];
      if Match(f, bs).Ok? {
        StepOnDefaultLines(r.value, fn, Match(f, bs).value, f, offset);
      }
    }
  }

  lemma {:induction false} FilesDefaultLines(files: seq<FileFuncs>, offset: nat)
    requires FilesReport(files, offset, false).Ok?
    ensures DefaultLines(FilesReport(files, offset, false).value.lines)
    decreases |files|
  {
    if files != [] {
      var init := files[..|files| - 1];
      var file := files[|files| - 1];
      if FilesReport(init, offset, false).Panic? {
        FuncsPanicStays(FilesReport(init, offset, false).message, file.profile.FileName, file.profile.Blocks, file.funcs, offset, false);
      } else {
        FilesDefaultLines(init, offset);
        FuncsDefaultLines(FilesReport(init, offset, false).value, file.profile.FileName, file.profile.Blocks, file.funcs, offset);
      }
    }
  }

  predicate NonNegativeFiles(files: seq<FileFuncs>) {
    forall i :: 0 <= i < |files| ==> NonNegativeStmts(files[i].profile.Blocks)
  }

  predicate Bounded(s: Summary) {
    0 <= s.covered <= s.total
  }

  lemma StepBounded(acc: Summary, fn: string, bs: seq<Block>, f: FuncExtent, offset: nat, all: bool)
    requires NonNegativeStmts(bs) && Bounded(acc) && Step(acc, fn, bs, f, offset, all).Ok?
    ensures Bounded(Step(acc, fn, bs, f, offset, all).value)
  {
    var blocks := Match(f, bs).value;
    assert NonNegativeStmts(blocks) by {
      assert blocks == bs[FirstInRange(f, bs)..FirstPast(f, bs)];
    }
    CoveredAtMostTotal(blocks);
  }

  lemma {:induction false} FuncsBounded(acc: Summary, fn: string, bs: seq<Block>, funcs: seq<FuncExtent>, offset: nat, all: bool)
    requires NonNegativeStmts(bs) && Bounded(acc) && FuncsReport(Ok(acc), fn, bs, funcs, offset, all).Ok?
    ensures Bounded(FuncsReport(Ok(acc), fn, bs, funcs, offset, all).value)
    decreases |funcs|
  {
    if funcs != [] {
      var init := funcs[..|funcs| - 1];
      FuncsBounded(acc, fn, bs, init, offset, all);
      StepBounded(FuncsReport(Ok(acc), fn, bs, init, offset, all).value, fn, bs, funcs[|funcs| - 1], offset, all);
    }
  }

  /** With non-negative statement counts the grand totals satisfy 0 <= covered <= total. */
  lemma {:induction false} FilesBounded(files: seq<FileFuncs>, offset: nat, all: bool)
    requires NonNegativeFiles(files) && FilesReport(files, offset, all).Ok?
    ensures Bounded(FilesReport(files, offset, all).value)
    decreases |files|
  {
    if files != [] {
      var init := files[..|files| - 1];
      var file := files[|files| - 1];
      assert NonNegativeFiles(init) by {
        assert forall i :: 0 <= i < |init| ==> init[i] == files[i];
      }
      if FilesReport(init, offset, all).Panic? {
        FuncsPanicStays(FilesReport(init, offset, all).message, file.profile.FileName, file.profile.Blocks, file.funcs, offset, all);
      } else {
        FilesBounded(init, offset, all);
        FuncsBounded(FilesReport(init, offset, all).value, file.profile.FileName, file.profile.Blocks, file.funcs, offset, all);
      }
    }
  }

  /** Whether the totals count function `f`: only `_` is discounted, and only in default mode. */
  predicate Counted(f: FuncExtent, all: bool) {
    !(f.name == "_" && !all)
  }

  /** The statements of the functions that count, summed function by function; a function whose
      blocks cannot be matched adds nothing (the report panics there anyway). */
  function SumStmts(bs: seq<Block>, funcs: seq<FuncExtent>, all: bool, covered: bool): int {
    if funcs == [] then 0
    else
      var f := funcs[|funcs| - 1];
      var add := match Match(f, bs)
        case Panic(_) => 0
        case Ok(blocks) => if covered then CoveredStmts(blocks) else TotalStmts(blocks);
      SumStmts(bs, funcs[..|funcs| - 1], all, covered) + (if Counted(f, all) then add else 0)
  }

  /** The totals of a file's functions are the sums over the functions that count, whatever the
      offset, and the lines printed do not affect them. */
  lemma {:induction false} FuncsTotals(acc: Summary, fn: string, bs: seq<Block>, funcs: seq<FuncExtent>, offset: nat, all: bool)
    requires FuncsReport(Ok(acc), fn, bs, funcs, offset, all).Ok?
    ensures FuncsReport(Ok(acc), fn, bs, funcs, offset, all).value.total == acc.total + SumStmts(bs, funcs, all, false)
    ensures FuncsReport(Ok(acc), fn, bs, funcs, offset, all).value.covered == acc.covered + SumStmts(bs, funcs, all, true)
    decreases |funcs|
  {
    if funcs != [] {
      var init := funcs[..|funcs| - 1];
      if FuncsReport(Ok(acc), fn, bs, init, offset, all).Panic? {
        assert false;
      }
      FuncsTotals(acc, fn, bs, init, offset, all);
    }
  }

  /** The statements of the functions that count, summed file by file. */
  function FilesSum(files: seq<FileFuncs>, all: bool, covered: bool): int {
    if files == [] then 0
    else
      var file := files[|files| - 1];
      FilesSum(files[..|files| - 1], all, covered) + SumStmts(file.profile.Blocks, file.funcs, all, covered)
  }

  /** The grand totals that `printCoverage` returns are the sums, over every file, of the
      statements of its functions that count. */
  lemma {:induction false} FilesTotals(files: seq<FileFuncs>, offset: nat, all: bool)
    requires FilesReport(files, offset, all).Ok?
    ensures FilesReport(files, offset, all).value.total == FilesSum(files, all, false)
    ensures FilesReport(files, offset, all).value.covered == FilesSum(files, all, true)
    decreases |files|
  {
    if files != [] {
      var init := files[..|files| - 1];
      var file := files[|files| - 1];
      if FilesReport(init, offset, all).Panic? {
        FuncsPanicStays(FilesReport(init, offset, all).message, file.profile.FileName, file.profile.Blocks, file.funcs, offset, all);
      } else {
        FilesTotals(init, offset, all);
        FuncsTotals(FilesReport(init, offset, all).value, file.profile.FileName, file.profile.Blocks, file.funcs, offset, all);
      }
    }
  }

  /** In full-detail mode every function counts, and the sums are those of the matched windows. */
  lemma {:induction false} SumIsWindows(bs: seq<Block>, funcs: seq<FuncExtent>, covered: bool)
    ensures SumStmts(bs, funcs, true, covered) == if covered then CoveredStmts(Windows(funcs, bs)) else TotalStmts(Windows(funcs, bs))
    decreases |funcs|
  {
    if funcs != [] {
      var init := funcs[..|funcs| - 1];
      SumIsWindows(bs, init, covered);
      var w := match Match(funcs[|funcs| - 1], bs) case Ok(w) => w case Panic(_) => [];
      StmtsAppend(Windows(init, bs), w);
    }
  }

  lemma MatchedLast(acc: Summary, fn: string, bs: seq<Block>, f: FuncExtent, offset: nat, all: bool)
    requires Step(acc, fn, bs, f, offset, all).Ok?
    ensures Match(f, bs).Ok?
  {
  }

  /** A report that does not panic has matched every function. */
  lemma {:induction false} FuncsOkMatched(acc: Summary, fn: string, bs: seq<Block>, funcs: seq<FuncExtent>, offset: nat, all: bool)
    requires FuncsReport(Ok(acc), fn, bs, funcs, offset, all).Ok?
    ensures AllMatched(funcs, bs)
    decreases |funcs|
  {
    if funcs != [] {
      var init := funcs[..|funcs| - 1];
      if FuncsReport(Ok(acc), fn, bs, init, offset, all).Panic? {
        assert false;
      }
      FuncsOkMatched(acc, fn, bs, init, offset, all);
      MatchedLast(FuncsReport(Ok(acc), fn, bs, init, offset, all).value, fn, bs, funcs[|funcs| - 1], offset, all);
      forall k | 0 <= k < |init|
        ensures Match(funcs[k], bs).Ok?
      {
        assert init[k] == funcs[k];
      }
    }
  }

  /** In full-detail mode, when the functions are in source order and hold every block, a file
      adds exactly its own statements to the totals: each block is counted once. */
  lemma FullTotalsCountEveryBlock(acc: Summary, fn: string, bs: seq<Block>, funcs: seq<FuncExtent>, offset: nat)
    requires Ordered(funcs) && Inside(bs, funcs)
    requires FuncsReport(Ok(acc), fn, bs, funcs, offset, true).Ok?
    ensures FuncsReport(Ok(acc), fn, bs, funcs, offset, true).value.total == acc.total + TotalStmts(bs)
    ensures FuncsReport(Ok(acc), fn, bs, funcs, offset, true).value.covered == acc.covered + CoveredStmts(bs)
  {
    FuncsOkMatched(acc, fn, bs, funcs, offset, true);
    Partition(funcs, bs);
    FuncsTotals(acc, fn, bs, funcs, offset, true);
    SumIsWindows(bs, funcs, false);
    SumIsWindows(bs, funcs, true);
  }

  /** The lines that the default mode keeps from the full-detail mode. */
  predicate Kept(l: ReportLine) {
    l.name != "_" && l.covered != l.total
  }

  function Filter(lines: seq<ReportLine>): seq<ReportLine> {
    if lines == [] then []
    else Filter(lines[..|lines| - 1]) + (if Kept(lines[|lines| - 1]) then [lines[|lines| - 1]] else [])
  }

  lemma FilterAppend(lines: seq<ReportLine>, l: ReportLine)
    ensures Filter(lines + [l]) == Filter(lines) + (if Kept(l) then [l] else [])
  {
    assert (lines + [l])[..|lines|] == lines;
  }

  lemma StepFilter(at: Summary, af: Summary, fn: string, bs: seq<Block>, f: FuncExtent, offset: nat)
    requires af.lines == Filter(at.lines) && Step(at, fn, bs, f, offset, true).Ok?
    ensures Step(af, fn, bs, f, offset, false).Ok?
    ensures Step(af, fn, bs, f, offset, false).value.lines == Filter(Step(at, fn, bs, f, offset, true).value.lines)
  {
    var st := Step(at, fn, bs, f, offset, true).value;
    assert |st.lines| == |at.lines| + 1;
    FilterAppend(at.lines, st.lines[|at.lines|]);
    assert st.lines == at.lines + [st.lines[|at.lines|]];
  }

  lemma {:induction false} FuncsFilter(at: Summary, af: Summary, fn: string, bs: seq<Block>, funcs: seq<FuncExtent>, offset: nat)
    requires af.lines == Filter(at.lines) && FuncsReport(Ok(at), fn, bs, funcs, offset, true).Ok?
    ensures FuncsReport(Ok(af), fn, bs, funcs, offset, false).Ok?
    ensures FuncsReport(Ok(af), fn, bs, funcs, offset, false).value.lines
      == Filter(FuncsReport(Ok(at), fn, bs, funcs, offset, true).value.lines)
    decreases |funcs|
  {
    if funcs != [] {
      var init := funcs[..|funcs| - 1];
      FuncsFilter(at, af, fn, bs, init, offset);
      StepFilter(FuncsReport(Ok(at), fn, bs, init, offset, true).value, FuncsReport(Ok(af), fn, bs, init, offset, false).value,
                 fn, bs, funcs[|funcs| - 1], offset);
    }
  }

  /** The full-detail mode only adds lines: dropping from its report the lines of `_` and of fully
      covered functions gives the default report, line for line; where the full-detail report
      succeeds, so does the default one. */
  lemma {:induction false} DefaultIsFilteredFull(files: seq<FileFuncs>, offset: nat)
    requires FilesReport(files, offset, true).Ok?
    ensures FilesReport(files, offset, false).Ok?
    ensures FilesReport(files, offset, false).value.lines == Filter(FilesReport(files, offset, true).value.lines)
    decreases |files|
  {
    if files != [] {
      var init := files[..|files| - 1];
      var file := files[|files| - 1];
      if FilesReport(init, offset, true).Panic? {
        FuncsPanicStays(FilesReport(init, offset, true).message, file.profile.FileName, file.profile.Blocks, file.funcs, offset, true);
      } else {
        DefaultIsFilteredFull(init, offset);
        FuncsFilter(FilesReport(init, offset, true).value, FilesReport(init, offset, false).value,
                    file.profile.FileName, file.profile.Blocks, file.funcs, offset);
      }
    }
  }
}
