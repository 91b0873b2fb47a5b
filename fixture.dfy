/** The fixture package testpkg: three functions, `tested` (run), `untested` (never run) and
    `partlytested` (run with `false`, so the `if` branch is missed). The block columns follow the
    layout of testpkg/testpkg.go; only the lines and counts matter to the report. */
module Fixture {
  import opened Types
  import opened Matcher
  import opened Coverage
  import opened Ranges
  import opened Text
  import opened Report
  import Paths

  const FileName := "github.com/maruel/covg/testpkg/testpkg.go"
  const Dir := "github.com/maruel/covg/testpkg"

  const Tested := FuncExtent("tested", 7, 1, 9, 2)
  const Untested := FuncExtent("untested", 11, 1, 13, 2)
  const PartlyTested := FuncExtent("partlytested", 15, 1, 23, 2)

  const B0 := Block(7, 23, 9, 2, 1, 1)      // body of tested
  const B1 := Block(11, 25, 13, 2, 1, 0)    // body of untested
  const B2 := Block(15, 35, 17, 7, 2, 1)    // r := ""; if b
  const B3 := Block(17, 7, 19, 3, 1, 0)     // r = "c"
  const B4 := Block(19, 8, 21, 3, 1, 1)     // r = "d"
  const B5 := Block(22, 2, 22, 10, 1, 1)    // return r

  const Blocks := [B0, B1, B2, B3, B4, B5]
  const Files := [FileFuncs(Profile(FileName, Blocks), Funcs)]

  lemma FixtureMatches()
    ensures Match(Tested, Blocks) == Ok([B0])
    ensures Match(Untested, Blocks) == Ok([B1])
    ensures Match(PartlyTested, Blocks) == Ok(Partly)
  {
    assert FirstPast(Tested, Blocks) == 1;
    assert FirstInRange(Tested, Blocks) == 0;
    assert Blocks[0..1] == [B0];
    assert FirstPast(Untested, Blocks) == 2 by {
      assert Blocks[1..][1..][0] == B2;
    }
    assert FirstInRange(Untested, Blocks) == 1;
    assert Blocks[1..2] == [B1];
    assert FirstPast(PartlyTested, Blocks) == 6 by {
      assert Blocks[1..][1..][1..][1..][1..][1..] == [];
    }
    assert FirstInRange(PartlyTested, Blocks) == 2 by {
      assert Blocks[1..][1..][0] == B2;
    }
    assert Blocks[2..6] == Partly;
  }

  const Partly := [B2, B3, B4, B5]

  lemma PartlyStmts()
    ensures CoveredStmts(Partly) == 4 && TotalStmts(Partly) == 5
  {
    assert [B5][1..] == [];
    assert CoveredStmts([B5]) == 1 && TotalStmts([B5]) == 1;
    assert [B4, B5][1..] == [B5];
    assert CoveredStmts([B4, B5]) == 2 && TotalStmts([B4, B5]) == 2;
    assert [B3, B4, B5][1..] == [B4, B5];
    assert CoveredStmts([B3, B4, B5]) == 2 && TotalStmts([B3, B4, B5]) == 3;
    assert Partly[1..] == [B3, B4, B5];
  }

  lemma PartlyRuns()
    ensures Runs(Partly) == [(1, 2)]
  {
    var p := Partly;
    assert RunEnd(p, 1) == 2;
    assert RunsFrom(p, 4) == [];
    assert RunsFrom(p, 3) == [];
    assert RunsFrom(p, 2) == [];
    assert RunsFrom(p, 1) == [(1, 2)];
  }

  lemma Rendered()
    ensures RenderAll([Lines(7, 9)]) == "7-9"
    ensures RenderAll([Lines(11, 13)]) == "11-13"
    ensures RenderAll([Lines(17, 19)]) == "17-19"
  {
    assert Digits(11) == "11" && Digits(13) == "13" && Digits(17) == "17" && Digits(19) == "19";
  }

  lemma FixtureRanges()
    ensures CoveredStmts([B0]) == 1 && TotalStmts([B0]) == 1
    ensures CoveredStmts([B1]) == 0 && TotalStmts([B1]) == 1
    ensures CoveredStmts(Partly) == 4 && TotalStmts(Partly) == 5
    ensures RenderAll(ExtentsBlocks([B0])) == "7-9"
    ensures RenderAll(MissingRanges([B1])) == "11-13"
    ensures RenderAll(MissingRanges(Partly)) == "17-19"
  {
    PartlyStmts();
    PartlyRuns();
    Rendered();
    AllUncoveredOneRange([B1]);
    assert MissingRanges(Partly) == [Lines(17, 19)];
  }

  const Untested31 := ReportLine("testpkg.go", 11, "untested", 0, 1, "11-13")
  const Partly31 := ReportLine("testpkg.go", 15, "partlytested", 4, 5, "17-19")

  lemma DefaultSteps()
    ensures StepOn(Summary([], 0, 0), FileName, [B0], Tested, 31, false) == Ok(Summary([], 1, 1))
    ensures StepOn(Summary([], 1, 1), FileName, [B1], Untested, 31, false) == Ok(Summary([Untested31], 1, 2))
    ensures StepOn(Summary([Untested31], 1, 2), FileName, Partly, PartlyTested, 31, false) == Ok(Summary([Untested31, Partly31], 5, 7))
  {
    FixtureRanges();
    assert |FileName| == 41;
    assert FileName[31..] == "testpkg.go";
    var r1 := RenderAll(MissingRanges([B1]));
    assert r1 == "11-13";
    assert StepOn(Summary([], 1, 1), FileName, [B1], Untested, 31, false)
      == Ok(Summary([] + [ReportLine(FileName[31..], 11, "untested", 0, 1, r1)], 1, 2));
    assert ReportLine(FileName[31..], 11, "untested", 0, 1, r1) == Untested31;
    assert [] + [Untested31] == [Untested31];
    var r2 := RenderAll(MissingRanges(Partly));
    assert StepOn(Summary([Untested31], 1, 2), FileName, Partly, PartlyTested, 31, false)
      == Ok(Summary([Untested31] + [ReportLine(FileName[31..], 15, "partlytested", 4, 5, r2)], 5, 7));
    assert ReportLine(FileName[31..], 15, "partlytested", 4, 5, r2) == Partly31;
    assert [Untested31] + [Partly31] == [Untested31, Partly31];
  }

  const TestedFull := ReportLine(FileName, 7, "tested", 1, 1, "7-9")
  const UntestedFull := ReportLine(FileName, 11, "untested", 0, 1, "11-13")
  const PartlyFull := ReportLine(FileName, 15, "partlytested", 4, 5, "17-19")

  lemma FullSteps()
    ensures StepOn(Summary([], 0, 0), FileName, [B0], Tested, 0, true) == Ok(Summary([TestedFull], 1, 1))
    ensures StepOn(Summary([TestedFull], 1, 1), FileName, [B1], Untested, 0, true) == Ok(Summary([TestedFull, UntestedFull], 1, 2))
    ensures StepOn(Summary([TestedFull, UntestedFull], 1, 2), FileName, Partly, PartlyTested, 0, true)
      == Ok(Summary([TestedFull, UntestedFull, PartlyFull], 5, 7))
  {
    FixtureRanges();
    assert FileName[0..] == FileName;
    var r0 := RenderAll(ExtentsBlocks([B0]));
    assert StepOn(Summary([], 0, 0), FileName, [B0], Tested, 0, true)
      == Ok(Summary([] + [ReportLine(FileName[0..], 7, "tested", 1, 1, r0)], 1, 1));
    assert [] + [TestedFull] == [TestedFull];
    var r1 := RenderAll(MissingRanges([B1]));
    assert StepOn(Summary([TestedFull], 1, 1), FileName, [B1], Untested, 0, true)
      == Ok(Summary([TestedFull] + [ReportLine(FileName[0..], 11, "untested", 0, 1, r1)], 1, 2));
    assert [TestedFull] + [UntestedFull] == [TestedFull, UntestedFull];
    var r2 := RenderAll(MissingRanges(Partly));
    assert StepOn(Summary([TestedFull, UntestedFull], 1, 2), FileName, Partly, PartlyTested, 0, true)
      == Ok(Summary([TestedFull, UntestedFull] + [ReportLine(FileName[0..], 15, "partlytested", 4, 5, r2)], 5, 7));
    assert [TestedFull, UntestedFull] + [PartlyFull] == [TestedFull, UntestedFull, PartlyFull];
  }

  const Funcs := [Tested, Untested, PartlyTested]

  lemma OneFile(acc: Result<Summary>, file: FileFuncs, offset: nat, all: bool)
    ensures FilesFold(acc, [file], offset, all) == FileStep(acc, file, offset, all)
  {
    assert [file][..0] == [];
  }

  /** Extending the functions by one adds that function's step, once its blocks are matched. */
  lemma FoldNext(fn: string, bs: seq<Block>, funcs: seq<FuncExtent>, n: nat, blocks: seq<Block>, acc: Summary, offset: nat, all: bool)
    requires 1 <= n <= |funcs| && Match(funcs[n - 1], bs) == Ok(blocks)
    requires FuncsReport(Ok(Summary([], 0, 0)), fn, bs, funcs[..n - 1], offset, all) == Ok(acc)
    ensures FuncsReport(Ok(Summary([], 0, 0)), fn, bs, funcs[..n], offset, all)
      == StepOn(acc, fn, blocks, funcs[n - 1], offset, all)
  {
    assert funcs[..n][..n - 1] == funcs[..n - 1];
  }

  /** Three functions of one file add their steps one after the other. */
  lemma ChainFuncs(fn: string, bs: seq<Block>, fs: seq<FuncExtent>,
                   b0: seq<Block>, b1: seq<Block>, b2: seq<Block>, s1: Summary, s2: Summary, s3: Summary, offset: nat, all: bool)
    requires |fs| == 3 && Match(fs[0], bs) == Ok(b0) && Match(fs[1], bs) == Ok(b1) && Match(fs[2], bs) == Ok(b2)
    requires StepOn(Summary([], 0, 0), fn, b0, fs[0], offset, all) == Ok(s1)
    requires StepOn(s1, fn, b1, fs[1], offset, all) == Ok(s2)
    requires StepOn(s2, fn, b2, fs[2], offset, all) == Ok(s3)
    ensures FuncsReport(Ok(Summary([], 0, 0)), fn, bs, fs, offset, all) == Ok(s3)
  {
    assert fs[..0] == [];
    FoldNext(fn, bs, fs, 1, b0, Summary([], 0, 0), offset, all);
    assert FuncsReport(Ok(Summary([], 0, 0)), fn, bs, fs[..1], offset, all) == Ok(s1);
    FoldNext(fn, bs, fs, 2, b1, s1, offset, all);
    assert FuncsReport(Ok(Summary([], 0, 0)), fn, bs, fs[..2], offset, all) == Ok(s2);
    FoldNext(fn, bs, fs, 3, b2, s2, offset, all);
    assert fs[..3] == fs;
  }

  /** The report of one file with three functions is what the three add, one after the other. */
  lemma Chain(fn: string, bs: seq<Block>, f0: FuncExtent, f1: FuncExtent, f2: FuncExtent,
              b0: seq<Block>, b1: seq<Block>, b2: seq<Block>, s1: Summary, s2: Summary, s3: Summary, offset: nat, all: bool)
    requires Match(f0, bs) == Ok(b0) && Match(f1, bs) == Ok(b1) && Match(f2, bs) == Ok(b2)
    requires StepOn(Summary([], 0, 0), fn, b0, f0, offset, all) == Ok(s1)
    requires StepOn(s1, fn, b1, f1, offset, all) == Ok(s2)
    requires StepOn(s2, fn, b2, f2, offset, all) == Ok(s3)
    ensures FilesReport([FileFuncs(Profile(fn, bs), [f0, f1, f2])], offset, all) == Ok(s3)
  {
    OneFile(Ok(Summary([], 0, 0)), FileFuncs(Profile(fn, bs), [f0, f1, f2]), offset, all);
    ChainFuncs(fn, bs, [f0, f1, f2], b0, b1, b2, s1, s2, s3, offset, all);
  }

  /** The default report of the fixture: `untested` with `11-13` and `partlytested` with
      `17-19`, the fully covered `tested` left out, and 5 of 7 statements covered in total. */
  lemma DefaultReport()
    ensures FilesReport(Files, 31, false) == Ok(Summary([
      ReportLine("testpkg.go", 11, "untested", 0, 1, "11-13"),
      ReportLine("testpkg.go", 15, "partlytested", 4, 5, "17-19")], 5, 7))
  {
    DefaultSteps();
    FixtureMatches();
    Chain(FileName, Blocks, Tested, Untested, PartlyTested, [B0], [B1], Partly, Summary([], 1, 1), Summary([Untested31], 1, 2), Summary([Untested31, Partly31], 5, 7), 31, false);
  }

  /** The full-detail report adds `tested` with its whole extent `7-9`, with full paths. */
  lemma FullReport()
    ensures FilesReport(Files, 0, true) == Ok(Summary([
      ReportLine(FileName, 7, "tested", 1, 1, "7-9"),
      ReportLine(FileName, 11, "untested", 0, 1, "11-13"),
      ReportLine(FileName, 15, "partlytested", 4, 5, "17-19")], 5, 7))
  {
    FullSteps();
    FixtureMatches();
    Chain(FileName, Blocks, Tested, Untested, PartlyTested, [B0], [B1], Partly, Summary([TestedFull], 1, 1), Summary([TestedFull, UntestedFull], 1, 2),
          Summary([TestedFull, UntestedFull, PartlyFull], 5, 7), 0, true);
  }

  /** A single package directory is elided with its trailing separator, unless `all` is set,
      by the offset as written and by the corrected one alike. */
  lemma FixtureOffset()
    ensures Paths.OffsetAsWritten(false, [Dir]) == Paths.Offset(false, [Dir]) == 31
    ensures Paths.OffsetAsWritten(true, [Dir]) == Paths.Offset(true, [Dir]) == 0
  {
    Paths.OffsetAgreesForOneDirectory(false, [Dir]);
  }
}
