/** The coverage aggregator: statements covered versus statements in total (`coverageBlocks`). */
module Coverage {
  import opened Types

  /** Sum of the statement counts of `bs`. */
  function TotalStmts(bs: seq<Block>): int {
    if bs == [] then 0 else bs[0].NumStmt + TotalStmts(bs[1..])
  }

  /** Sum of the statement counts of the covered blocks of `bs`: no partial credit within a block. */
  function CoveredStmts(bs: seq<Block>): int {
    if bs == [] then 0 else (if Covered(bs[0]) then bs[0].NumStmt else 0) + CoveredStmts(bs[1..])
  }

  /** Both sums split over a concatenation. */
  lemma {:induction false} StmtsAppend(a: seq<Block>, b: seq<Block>)
    ensures TotalStmts(a + b) == TotalStmts(a) + TotalStmts(b)
    ensures CoveredStmts(a + b) == CoveredStmts(a) + CoveredStmts(b)
  {
    if a == [] {
      assert a + b == b;
    } else {
      assert (a + b)[1..] == a[1..] + b;
      StmtsAppend(a[1..], b);
    }
  }

  /** The accumulator loop of `coverageBlocks`. */
  method CoverageBlocks(bs: seq<Block>) returns (covered: int, total: int)
    ensures covered == CoveredStmts(bs) && total == TotalStmts(bs)
  {
    covered, total := 0, 0;
    for i := 0 to |bs|
      invariant covered == CoveredStmts(bs[..i]) && total == TotalStmts(bs[..i])
    {
      var b := bs[i];
      StmtsAppend(bs[..i], [b]);
      assert bs[..i + 1] == bs[..i] + [b];
      total := total + b.NumStmt;
      if Covered(b) {
        covered := covered + b.NumStmt;
      }
    }
    assert bs[..|bs|] == bs;
  }

  /** Statement counts are never negative in a profile. */
  predicate NonNegativeStmts(bs: seq<Block>) {
    forall i :: 0 <= i < |bs| ==> bs[i].NumStmt >= 0
  }

  /** Covered statements never exceed the total. */
  lemma {:induction false} CoveredAtMostTotal(bs: seq<Block>)
    requires NonNegativeStmts(bs)
    ensures 0 <= CoveredStmts(bs) <= TotalStmts(bs)
  {
    if bs != [] {
      CoveredAtMostTotal(bs[1..]);
    }
  }

  /** A block list is fully covered exactly when every block that holds statements ran. */
  lemma {:induction false} FullyCoveredIff(bs: seq<Block>)
    requires NonNegativeStmts(bs)
    ensures CoveredStmts(bs) == TotalStmts(bs) <==> forall i :: 0 <= i < |bs| && bs[i].NumStmt > 0 ==> Covered(bs[i])
  {
    if bs != [] {
      FullyCoveredIff(bs[1..]);
      CoveredAtMostTotal(bs[1..]);
      assert forall i :: 1 <= i < |bs| ==> bs[i] == bs[1..][i - 1];
    }
  }

  /** When every block ran, covered equals total, whatever the statement counts. */
  lemma {:induction false} AllCoveredFull(bs: seq<Block>)
    requires forall i :: 0 <= i < |bs| ==> Covered(bs[i])
    ensures CoveredStmts(bs) == TotalStmts(bs)
  {
    if bs != [] {
      AllCoveredFull(bs[1..]);
    }
  }
}
