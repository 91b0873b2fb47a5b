/** The range formatter: line ranges of single blocks, of whole functions and of the
    runs of uncovered blocks (`formatBlock`, `extentsBlocks`, `allBlocks`, `missingBlocks`). */
module Ranges {
  import opened Types

  /** What `formatBlock` prints: one line number `L`, or a span `L1-L2`. */
  datatype LineRange = Line(line: int) | Lines(first: int, last: int) {
    function First(): int {
      if Line? then line else first
    }
    function Last(): int {
      if Line? then line else last
    }
  }

  /** The range from line `first` to line `last`, written as a single line when the two coincide. */
  function Span(first: int, last: int): (r: LineRange)
    ensures r.First() == first && r.Last() == last
    ensures r.Line? <==> first == last
  {
    if first == last then Line(first) else Lines(first, last)
  }

  /** The line range of one block. */
  function FormatBlock(b: Block): (r: LineRange)
    ensures r.First() == b.StartLine && r.Last() == b.EndLine
    ensures r.Line? <==> b.StartLine == b.EndLine
  {
    Span(b.StartLine, b.EndLine)
  }

  /** The range of a whole block list, from the start of its first block to the end of its last;
      nothing for the empty list. The source formats a copy of the first block whose end line
      is replaced by that of the last. */
  function ExtentsBlocks(bs: seq<Block>): (r: seq<LineRange>)
    ensures bs == [] <==> r == []
    ensures bs != [] ==> |r| == 1 && r[0].First() == bs[0].StartLine && r[0].Last() == bs[|bs| - 1].EndLine
    ensures bs != [] ==> (r[0].Line? <==> bs[0].StartLine == bs[|bs| - 1].EndLine)
  {
    if bs == [] then []
    else
      var b := bs[0].(EndLine := bs[|bs| - 1].EndLine);
      [FormatBlock(b)]
  }

  /** One range per block, in block order. */
  method AllBlocks(bs: seq<Block>) returns (out: seq<LineRange>)
    ensures |out| == |bs|
    ensures forall i :: 0 <= i < |bs| ==> out[i].First() == bs[i].StartLine && out[i].Last() == bs[i].EndLine
    ensures forall i :: 0 <= i < |bs| ==> out[i] == FormatBlock(bs[i])
  {
    out := [];
    for i := 0 to |bs|
      invariant |out| == i
      invariant forall k :: 0 <= k < i ==> out[k] == FormatBlock(bs[k])
    {
      out := out + [FormatBlock(bs[i])];
    }
  }

  /** Index of the first covered block at or after `i`, or `|bs|` when there is none. */
  function RunEnd(bs: seq<Block>, i: nat): (j: nat)
    requires i <= |bs|
    ensures i <= j <= |bs|
    ensures forall k :: i <= k < j ==> !Covered(bs[k])
    ensures j < |bs| ==> Covered(bs[j])
    decreases |bs| - i
  {
    if i == |bs| || Covered(bs[i]) then i else RunEnd(bs, i + 1)
  }

  /** The runs of uncovered blocks in `bs[i..]`, as half-open index intervals, in block order. */
  function RunsFrom(bs: seq<Block>, i: nat): (runs: seq<(nat, nat)>)
    requires i <= |bs|
    ensures forall k :: 0 <= k < |runs| ==> i <= runs[k].0 < runs[k].1 <= |bs|
    decreases |bs| - i
  {
    if i == |bs| then []
    else if Covered(bs[i]) then RunsFrom(bs, i + 1)
    else
      var j := RunEnd(bs, i);
      [(i, j)] + RunsFrom(bs, j)
  }

  function Runs(bs: seq<Block>): seq<(nat, nat)> {
    RunsFrom(bs, 0)
  }

  predicate WellFormedRuns(bs: seq<Block>, runs: seq<(nat, nat)>) {
    forall k :: 0 <= k < |runs| ==> runs[k].0 < runs[k].1 <= |bs|
  }

  /** The line range of each run: from the start line of its first block to the end line of its last. */
  function RangesOf(bs: seq<Block>, runs: seq<(nat, nat)>): (r: seq<LineRange>)
    requires WellFormedRuns(bs, runs)
  {
    seq(|runs|, k requires 0 <= k < |runs| => Span(bs[runs[k].0].StartLine, bs[runs[k].1 - 1].EndLine))
  }

  /** The uncovered line ranges of a block list: one per maximal run of uncovered blocks. */
  function MissingRanges(bs: seq<Block>): seq<LineRange> {
    RangesOf(bs, Runs(bs))
  }

  lemma RangesOfAppend(bs: seq<Block>, r1: seq<(nat, nat)>, r2: seq<(nat, nat)>)
    requires WellFormedRuns(bs, r1) && WellFormedRuns(bs, r2)
    ensures WellFormedRuns(bs, r1 + r2)
    ensures RangesOf(bs, r1 + r2) == RangesOf(bs, r1) + RangesOf(bs, r2)
  {
    assert forall k :: 0 <= k < |r1| + |r2| ==> (r1 + r2)[k] == if k < |r1| then r1[k] else r2[k - |r1|];
  }

  /** A maximal run of uncovered blocks: `bs[a..b]` holds no covered block and both neighbours,
      where they exist, are covered. */
  predicate IsMaximalRun(bs: seq<Block>, a: nat, b: nat) {
    MaximalFrom(bs, 0, a, b)
  }

  /** No block of `bs[a..b]` is covered. */
  predicate AllUncovered(bs: seq<Block>, a: nat, b: nat)
    requires a <= b <= |bs|
  {
    forall m :: a <= m < b ==> !Covered(bs[m])
  }

  /** `bs[a..b]` is a run of uncovered blocks within `bs[i..]` that cannot be extended either way. */
  predicate MaximalFrom(bs: seq<Block>, i: nat, a: nat, b: nat) {
    && i <= a < b <= |bs|
    && (a == i || Covered(bs[a - 1]))
    && AllUncovered(bs, a, b)
    && (b == |bs| || Covered(bs[b]))
  }

  lemma {:induction false} RunsFromMaximal(bs: seq<Block>, i: nat)
    requires i <= |bs|
    ensures forall k :: 0 <= k < |RunsFrom(bs, i)| ==> MaximalFrom(bs, i, RunsFrom(bs, i)[k].0, RunsFrom(bs, i)[k].1)
    decreases |bs| - i
  {
    if i < |bs| {
      if Covered(bs[i]) {
        assert RunsFrom(bs, i) == RunsFrom(bs, i + 1);
        RunsFromMaximal(bs, i + 1);
      } else {
        var j := RunEnd(bs, i);
        RunsFromMaximal(bs, j);
        var rest := RunsFrom(bs, j);
        var runs := RunsFrom(bs, i);
        assert runs == [(i, j)] + rest;
        forall k | 0 <= k < |runs|
          ensures MaximalFrom(bs, i, runs[k].0, runs[k].1)
        {
          if k > 0 {
            assert runs[k] == rest[k - 1];
            assert MaximalFrom(bs, j, rest[k - 1].0, rest[k - 1].1);
            assert !Covered(bs[rest[k - 1].0]);
          }
        }
      }
    }
  }

  lemma {:induction false} RunsFromOrdered(bs: seq<Block>, i: nat)
    requires i <= |bs|
    ensures forall k :: 0 < k < |RunsFrom(bs, i)| ==> RunsFrom(bs, i)[k - 1].1 < RunsFrom(bs, i)[k].0
    decreases |bs| - i
  {
    if i < |bs| {
      if Covered(bs[i]) {
        assert RunsFrom(bs, i) == RunsFrom(bs, i + 1);
        RunsFromOrdered(bs, i + 1);
      } else {
        var j := RunEnd(bs, i);
        RunsFromOrdered(bs, j);
        RunsFromMaximal(bs, j);
        var rest := RunsFrom(bs, j);
        var runs := RunsFrom(bs, i);
        assert runs == [(i, j)] + rest;
        if rest != [] {
          assert MaximalFrom(bs, j, rest[0].0, rest[0].1);
          assert !Covered(bs[rest[0].0]);
        }
        forall k | 0 < k < |runs|
          ensures runs[k - 1].1 < runs[k].0
        {
          if k > 1 {
            assert runs[k - 1] == rest[k - 2] && runs[k] == rest[k - 1];
          }
        }
      }
    }
  }

  lemma {:induction false} RunsFromComplete(bs: seq<Block>, i: nat, j: nat)
    requires i <= j < |bs| && !Covered(bs[j])
    ensures var runs := RunsFrom(bs, i);
      exists k :: 0 <= k < |runs| && runs[k].0 <= j < runs[k].1
    decreases |bs| - i
  {
    if Covered(bs[i]) {
      assert RunsFrom(bs, i) == RunsFrom(bs, i + 1);
      RunsFromComplete(bs, i + 1, j);
    } else {
      var e := RunEnd(bs, i);
      var runs := RunsFrom(bs, i);
      assert runs == [(i, e)] + RunsFrom(bs, e);
      if j < e {
        assert runs[0].0 <= j < runs[0].1;
      } else {
        RunsFromComplete(bs, e, j);
        var k :| 0 <= k < |RunsFrom(bs, e)| && RunsFrom(bs, e)[k].0 <= j < RunsFrom(bs, e)[k].1;
        assert runs[k + 1] == RunsFrom(bs, e)[k];
      }
    }
  }

  /** The runs behind `MissingRanges` are exactly the maximal runs of uncovered blocks, in block
      order, and every uncovered block lies in one of them. */
  lemma RunsAreMaximal(bs: seq<Block>)
    ensures forall k :: 0 <= k < |Runs(bs)| ==> IsMaximalRun(bs, Runs(bs)[k].0, Runs(bs)[k].1)
    ensures forall k :: 0 < k < |Runs(bs)| ==> Runs(bs)[k - 1].1 < Runs(bs)[k].0
    ensures forall j :: 0 <= j < |bs| && !Covered(bs[j]) ==>
      exists k :: 0 <= k < |Runs(bs)| && Runs(bs)[k].0 <= j < Runs(bs)[k].1
  {
    RunsFromMaximal(bs, 0);
    RunsFromOrdered(bs, 0);
    forall j | 0 <= j < |bs| && !Covered(bs[j])
      ensures exists k :: 0 <= k < |Runs(bs)| && Runs(bs)[k].0 <= j < Runs(bs)[k].1
    {
      RunsFromComplete(bs, 0, j);
      var k :| 0 <= k < |RunsFrom(bs, 0)| && RunsFrom(bs, 0)[k].0 <= j < RunsFrom(bs, 0)[k].1;
      assert Runs(bs)[k].0 <= j < Runs(bs)[k].1;
    }
  }

  /** No missing range is reported exactly when every block is covered. */
  lemma NoMissingIffAllCovered(bs: seq<Block>)
    ensures MissingRanges(bs) == [] <==> forall i :: 0 <= i < |bs| ==> Covered(bs[i])
  {
    RunsAreMaximal(bs);
    if Runs(bs) != [] {
      assert !Covered(bs[Runs(bs)[0].0]);
    }
  }

  /** A list of uncovered blocks only is reported as one range, from its first block's start line to
      its last block's end line: the same range as the whole-function extent. */
  lemma AllUncoveredOneRange(bs: seq<Block>)
    requires bs != [] && forall i :: 0 <= i < |bs| ==> !Covered(bs[i])
    ensures MissingRanges(bs) == [Span(bs[0].StartLine, bs[|bs| - 1].EndLine)]
    ensures MissingRanges(bs) == ExtentsBlocks(bs)
  {
    assert RunEnd(bs, 0) == |bs|;
    assert RunsFrom(bs, |bs|) == [];
    assert Runs(bs) == [(0, |bs|)] + RunsFrom(bs, |bs|);
  }

  /** Line numbers start at 1; `missingBlocks` uses start line 0 to mean "no open range". */
  predicate Numbered(bs: seq<Block>) {
    forall i :: 0 <= i < |bs| ==> bs[i].StartLine >= 1
  }

  /** The missing ranges of the blocks from index `i` on. */
  function Pending(bs: seq<Block>, i: nat): seq<LineRange>
    requires i <= |bs|
  {
    RangesOf(bs, RunsFrom(bs, i))
  }

  /** The loop of `missingBlocks`: it grows an accumulated block over consecutive uncovered blocks
      and flushes it at each covered block and at the end. */
  method MissingBlocks(bs: seq<Block>) returns (out: seq<LineRange>)
    ensures Numbered(bs) ==> out == MissingRanges(bs)
  {
    out := [];
    var accumul := Block(0, 0, 0, 0, 0, 0);
    ghost var s: nat := 0;
    for i := 0 to |bs|
      invariant Numbered(bs) && accumul.StartLine == 0 ==>
        out + Pending(bs, i) == MissingRanges(bs)
      invariant Numbered(bs) && accumul.StartLine != 0 ==>
        && s < i
        && (forall k :: s <= k < i ==> !Covered(bs[k]))
        && accumul.StartLine == bs[s].StartLine && accumul.EndLine == bs[i - 1].EndLine
        && out + Pending(bs, s) == MissingRanges(bs)
    {
      var b := bs[i];
      if Covered(b) {
        if accumul.StartLine != 0 {
          if Numbered(bs) {
            Flush(bs, s, i, accumul, out);
          }
          out := out + [FormatBlock(accumul)];
          accumul := accumul.(StartLine := 0);
        }
        continue;
      }
      if accumul.StartLine == 0 {
        accumul := accumul.(StartLine := b.StartLine);
        s := i;
      }
      accumul := accumul.(EndLine := b.EndLine);
    }
    if accumul.StartLine != 0 {
      if Numbered(bs) {
        Flush(bs, s, |bs|, accumul, out);
      }
      out := out + [FormatBlock(accumul)];
    }
  }

  /** An uncovered run `bs[s..i]` ended by a covered block (or by the end) is the next run,
      and the runs after it start past that covered block. */
  lemma RunAt(bs: seq<Block>, s: nat, i: nat)
    requires s < i <= |bs| && (forall k :: s <= k < i ==> !Covered(bs[k]))
    requires i < |bs| ==> Covered(bs[i])
    ensures RunsFrom(bs, s) == [(s, i)] + RunsFrom(bs, if i < |bs| then i + 1 else i)
  {
    assert RunEnd(bs, s) == i;
    if i < |bs| {
      assert RunsFrom(bs, i) == RunsFrom(bs, i + 1);
    }
  }

  /** Closing the open run `bs[s..i]` at a covered block `bs[i]` (or at the end) emits exactly the
      next range of `MissingRanges`. */
  lemma Flush(bs: seq<Block>, s: nat, i: nat, accumul: Block, out: seq<LineRange>)
    requires s < i <= |bs| && (forall k :: s <= k < i ==> !Covered(bs[k]))
    requires i < |bs| ==> Covered(bs[i])
    requires accumul.StartLine == bs[s].StartLine && accumul.EndLine == bs[i - 1].EndLine
    ensures out + Pending(bs, s) == (out + [FormatBlock(accumul)]) + Pending(bs, if i < |bs| then i + 1 else i)
  {
    var next := if i < |bs| then i + 1 else i;
    var rest := RunsFrom(bs, next);
    RunAt(bs, s, i);
    RangesOfAppend(bs, [(s, i)], rest);
    assert RangesOf(bs, [(s, i)]) == [FormatBlock(accumul)];
    assert Pending(bs, s) == [FormatBlock(accumul)] + Pending(bs, next);
    assert out + ([FormatBlock(accumul)] + Pending(bs, next)) == (out + [FormatBlock(accumul)]) + Pending(bs, next);
  }
}
