# covg report core in Dafny

covg runs `go test` with coverage and prints one line per function that is not fully covered:

- the file;
- the start line and name of the function;
- the percentage of its statements covered;
- the source lines whose statements never ran, as `L` or `L1-L2` ranges joined by commas.

With `-a` it prints every function with its full path. Fully covered functions then show their whole extent.

This project models the data logic behind that report, in `main.go`:

- **Block matcher** (`Matcher`). `(*FuncExtent).profile` finds the window of a file's position-ordered coverage blocks that belongs to a function. It panics when that window is empty. For functions in source order that hold every block, the windows of all the functions partition the blocks.
- **Coverage sums** (`Coverage`). `coverageBlocks` counts covered and total statements; a block counts all of its statements or none.
- **Line ranges** (`Ranges`, `Text`).
  - `formatBlock`, `extentsBlocks` and `allBlocks` compute line ranges. `Ranges` models them as a `LineRange` datatype.
  - `missingBlocks` merges each run of consecutive uncovered blocks into one range.
  - `Text` renders ranges as `%d` text joined by `,`.
- **Path elision** (`Paths`). `commonPrefix`, and the offset that `printCoverage` trims from every file name.
- **Report driver** (`Report`). The loops of `printCoverage` over profiles and functions:
  - match the blocks and count them;
  - discount `_`;
  - select the lines to print;
  - accumulate the grand totals.

  A Go panic becomes the `Panic` case of a `Result`. This covers the matcher's panic and `fn[offset:]` slicing past the end.
- **Arguments** (`Args`). The `--` argument split of `mainImpl`.
- **Fixture** (`Fixture`). The `testpkg` package of the tests, with its blocks and function extents. The verified report is the one the tests expect.

Each loop of the source is a method with its invariants, proved equal to a specification function. The properties are proved about those functions.

Some contracts hold only when every block's start line is at least 1, the `Numbered` predicate. These are the contracts of `MissingBlocks`, `Report` and the methods that use them. The reason is that `missingBlocks` uses start line 0 to mean "no open range". Go's cover tool numbers lines from 1.

`printCoverage` collects one directory per profile, duplicates included. Several profiles in one directory therefore give the same offset as a single profile there (`OffsetAgreesForOneDirectory`).

## Model

| member | source | states |
|---|---|---|
| Matcher.FirstPast | main.go:50-58 | The index of the first block past the function's end, or the number of blocks. No earlier block is past the end. |
| Matcher.FirstInRange | main.go:59-65 | The index of the first block not wholly before the function, ahead of the first past-end block. Every earlier block ends before the function. |
| Matcher.Match | main.go:48-71 | Panics, with the function's name, exactly when every block ahead of the first past-end block lies before the function. On success the result is non-empty, starts with a block not before the function, and holds no past-end block. |
| Matcher.Profile | main.go:48-71 | The single forward scan, with its `start` sentinel and early return, returns `Match`. On success that is the contiguous slice `bs[FirstInRange..FirstPast]`. |
| Matcher.OutOfRangeBlocksPanic | main.go:53-55 | When every block is before the function or past it, the matcher panics. |
| Matcher.OverlappingBlockMatched | main.go:59-66 | A block that overlaps the function and comes ahead of every past-end block lies inside the returned window, so it is never missed. |
| Matcher.Relative | main.go:53-65 | A non-empty block within function `j` of functions in source order is past the end of every earlier function, before the start of every later one, and neither for function `j`. |
| Matcher.Boundary | main.go:48-71 | For functions in source order that hold every block, the window of each function ends exactly where the window of the next one starts. |
| Matcher.Partition | main.go:48-71 | For functions in source order that hold every block, all matched, the windows of the functions, concatenated in order, are exactly the file's blocks: no block is lost or matched twice. |
| Coverage.StmtsAppend | main.go:85-90 | The covered and total sums split over a concatenation of block lists. |
| Coverage.CoverageBlocks | main.go:83-92 | The accumulator loop returns the sum of `NumStmt` over the covered blocks and over all blocks. |
| Coverage.CoveredAtMostTotal | main.go:83-92 | With non-negative statement counts, `0 <= covered <= total`. |
| Coverage.FullyCoveredIff | main.go:83-92 | `covered == total` exactly when every block that holds statements ran. |
| Coverage.AllCoveredFull | main.go:83-92 | When every block ran, `covered == total`. |
| Ranges.Span | main.go:74-79 | A range from `first` to `last`. It is a single line exactly when the two are equal. |
| Ranges.FormatBlock | main.go:74-79 | A block's range runs from its start line to its end line. It is a single line exactly when they are equal. |
| Ranges.ExtentsBlocks | main.go:95-102 | Nothing for no blocks. Otherwise one range from the first block's start line to the last block's end line. |
| Ranges.AllBlocks | main.go:105-111 | One range per block, in block order, each that block's `FormatBlock`. |
| Ranges.RunEnd | main.go:117-129 | The first covered block at or after `i`. Every block in between is uncovered. |
| Ranges.RunsFrom | main.go:117-129 | Runs of uncovered blocks as in-bounds, non-empty index intervals. |
| Ranges.RunsFromMaximal | main.go:117-129 | Every run is maximal: no block in it is covered, and each neighbour is covered or absent. |
| Ranges.RunsFromOrdered | main.go:117-129 | The runs are in block order and separated by at least one block. |
| Ranges.RunsFromComplete | main.go:117-129 | Every uncovered block lies in one of the runs. |
| Ranges.RunsAreMaximal | main.go:114-134 | The missing ranges come from exactly the maximal runs of uncovered blocks, in order, and leave no uncovered block out. |
| Ranges.NoMissingIffAllCovered | main.go:114-134 | No missing range exactly when every block is covered. |
| Ranges.AllUncoveredOneRange | main.go:114-134 | A list of uncovered blocks gives one range, first start line to last end line, the same as its extent. |
| Ranges.MissingBlocks | main.go:114-134 | The `accumul` loop, with its 0-sentinel and flushes, returns one range per maximal uncovered run, in order, when line numbers start at 1. |
| Ranges.RunAt | main.go:117-129 | An uncovered run ended by a covered block, or by the end, is the next run. The runs after it start past that covered block. |
| Ranges.Flush | main.go:118-123 | Closing the open run at a covered block, or at the end, emits exactly the next missing range. |
| Text.Digits | main.go:76 | The `%d` digits of a natural number: at least one, all decimal, no leading zero. |
| Text.DigitsRoundTrip | main.go:76 | Reading the digits back gives the number. |
| Text.Decimal | main.go:76 | The text of a line number is non-empty and holds no comma. |
| Text.Render | main.go:74-79 | The text of a range is non-empty and holds no comma. |
| Text.JoinCommas | main.go:110 | Joining non-empty, comma-free parts gives one comma fewer than parts. |
| Text.RenderAllShape | main.go:133 | The ranges column is empty exactly when there is no range. Otherwise it holds one comma fewer than ranges. |
| Paths.CommonPrefixOf | main.go:141-150 | A prefix of both strings that ends one of them or stops at the first differing characters. |
| Paths.CommonPrefixGreatest | main.go:141-150 | Every common prefix of the two strings is a prefix of `CommonPrefixOf`. |
| Paths.CommonPrefix | main.go:141-150 | The index loop returns `CommonPrefixOf`. |
| Paths.FoldPrefixLongest | main.go:180-184 | Folding `commonPrefix` over the directories gives a prefix of each, and every prefix of all of them is a prefix of the fold. |
| Paths.FoldCommonPrefix | main.go:180-184 | The loop folding `commonPrefix` over the directories returns `FoldPrefix`, their longest common prefix. |
| Paths.FoldPrefixOfSame | main.go:180-184 | When all directories are the same, the fold gives that directory. |
| Paths.PathOffsetAsWritten | main.go:169-190 | The offset as written. 0 with `all` or with no profiles. Otherwise the length of the folded prefix plus one, or 0 for an empty prefix. For one profile, `len(dir)+1`, or 0 for an empty directory. |
| Paths.DirBoundary | main.go:185-188 | The length of the longest prefix that ends with `/`, or 0. No `/` comes after it. |
| Paths.PathOffset | main.go:169-190 | The corrected computation, the same fold over every directory followed by `/` and then a cut after the last `/`, returns `Offset`. |
| Paths.OffsetIsLongestDirPrefix | main.go:180-189 | Without `all`, the corrected offset is exactly the length of the longest run of whole directories, ending with `/`, that starts every directory followed by `/`. When it is not 0, that many characters form such a run, and no such run is longer. |
| Paths.OffsetElidesCommonDirectories | main.go:169-190 | The corrected offset never exceeds any file's directory and separator. It trims only characters that all files share, cuts right after a `/`, and keeps distinct file names distinct. |
| Paths.OffsetAgreesForOneDirectory | main.go:175-179 | The correction changes nothing when all profiles share one directory, in particular for a single profile. The exception is the empty directory name: the code gives 0 there, the correction 1. |
| Paths.AsWrittenOffsetMergesSiblings | main.go:180-189 | As written, `x/a/f.go` and `x/b/f.go` both print as `/f.go`. Corrected, they print as `a/f.go` and `b/f.go`. |
| Paths.AsWrittenOffsetCutsNames | main.go:180-189 | As written, `/a/bee/f.go` and `/a/box/g.go` print as `e/f.go` and `x/g.go`: the prefix `/a/b` ends inside a name and the extra one cuts further. Corrected, they print as `bee/f.go` and `box/g.go`. |
| Paths.NestedDirectoriesAgree | main.go:180-189 | For `x` and `x/sub` both offsets are 2, so `x/f.go` and `x/sub/g.go` print as `f.go` and `sub/g.go`. |
| Report.ReportFunc | main.go:204-220 | One iteration of the inner loop, matcher included, is one report step. |
| Report.ReportBlocks | main.go:206-219 | Counts the function's blocks and discounts `_` in default mode. A fully covered function gets a line, with its extent, only with `all`; any other function gets a line with its missing ranges. `fn[offset:]` past the end panics. |
| Report.ReportFuncs | main.go:204-220 | The inner loop over a profile's functions computes the fold over those functions, stopping at the first panic. |
| Report.Report | main.go:192-221 | The outer loop over the profiles computes the report fold, stopping at the first panic. |
| Report.PrintCoverage | main.go:169-221 | The offset as written followed by the report loops gives the report fold at `OffsetAsWritten`. |
| Report.PrintCoverageCorrected | main.go:169-221 | The corrected offset followed by the same report loops gives the report fold at `Offset`. |
| Report.FuncsPanicStays | main.go:205 | After a panic no further function changes the outcome. |
| Report.FuncsPanicEnds | main.go:204-205 | A panic at any function of a file is the outcome for the whole file. |
| Report.FilesPanicEnds | main.go:193-205 | A panic in any file is the outcome of the whole report. |
| Report.StepOnDefaultLines | main.go:208-219 | A default-mode step adds only lines for functions other than `_` that are not fully covered and have a non-empty ranges column. |
| Report.FilesDefaultLines | main.go:204-220 | Every line of a default-mode report names a function other than `_`, is not fully covered, and lists at least one range. |
| Report.StepBounded | main.go:206-212 | One step keeps the totals within `0 <= covered <= total`. |
| Report.FilesBounded | main.go:192-222 | With non-negative statement counts, the grand totals satisfy `0 <= covered <= total`. |
| Report.FuncsTotals | main.go:204-212 | A file's grand totals are the covered and total statements summed over the functions that count. Only `_` in default mode does not count. |
| Report.FilesTotals | main.go:192-212 | The grand totals of a report that does not panic are the covered and total statements of the functions that count, summed over every file. |
| Report.SumIsWindows | main.go:204-212 | In full-detail mode the summed statements are those of the concatenated function windows. |
| Report.FuncsOkMatched | main.go:204-206 | A file whose report does not panic has every function matched. |
| Report.FullTotalsCountEveryBlock | main.go:192-212 | In full-detail mode, for functions in source order that hold every block, a file adds exactly its own covered and total statements to the grand totals: each block is counted once. |
| Report.StepFilter | main.go:208-219 | One default-mode step prints the full-detail step's line, less the lines of `_` and of fully covered functions. |
| Report.DefaultIsFilteredFull | main.go:204-220 | Where the full-detail report succeeds, so does the default one. Its lines are the full-detail lines without `_` and fully covered functions. |
| Args.WithDefault | main.go:287-289 | No package arguments stand for `.`. The result is never empty. |
| Args.FirstDashDash | main.go:275-280 | The index of the first `--`, or the number of arguments. |
| Args.FirstFlag | main.go:281 | The index of the first argument starting with `-`, or the number of arguments. |
| Args.SplitArgsAsWritten | main.go:273-289 | The loop as written returns `SplitAsWritten`, case by case. With no `-` argument ahead of the first `--`, it splits there. A `-` argument ahead of a `--` panics. One `-` argument passes everything through. A second `-` argument empties the pass-through list. |
| Args.SplitArgs | main.go:273-289 | The loop that stops at the first `-` argument returns `SplitIntended`. |
| Args.SplitIntendedKeepsArguments | main.go:273-289 | The intended split leaves at least one package. Every argument other than `--` is a package or passed through. |
| Args.AgreeWithoutFlag | main.go:275-280 | With no `-` argument ahead of the first `--`, the code and the intended split agree. |
| Args.AgreeWithOneFlag | main.go:281-285 | With no `--` and a single `-` argument, the code and the intended split agree. |
| Args.NoFlagBeforeSeparator | main.go:275-285 | With no `-` argument ahead of the first `--`, the first argument starting with `-` is that `--`. |
| Args.AsWrittenDropsPassThrough | main.go:281-285 | As written, `-run TestX -v` reaches `go test` as no arguments at all. Intended, all three are passed through. |
| Args.AsWrittenPanicsOnLateSeparator | main.go:276-278 | As written, `./pkg -v -- -count=1` panics slicing the nil `args`. |
| Fixture.FixtureMatches | testpkg/testpkg.go:7-23 | The matcher assigns `tested`, `untested` and `partlytested` their own blocks of the fixture profile. |
| Fixture.FixtureRanges | testpkg/testpkg.go:7-23 | The fixture functions have 1/1, 0/1 and 4/5 statements covered. Their ranges are `7-9`, `11-13` and `17-19`. |
| Fixture.FixtureOffset | main.go:175-179 | A single package directory is trimmed with its separator, except in full-path mode, by the offset as written and by the corrected one. |
| Fixture.DefaultReport | main_test.go:23 | The default report of the fixture is `untested` 0/1 `11-13` and `partlytested` 4/5 `17-19`, both under `testpkg.go`, with totals 5 of 7. |
| Fixture.FullReport | main_test.go:36 | The full-detail report adds `tested` 1/1 `7-9` and prints the full file names. |

## Left out

- Parsing of the profile file (`cover.ParseProfiles`) is a library call. Profiles are inputs.
- Locating the files and functions is left out: `findPkgs`, `findFile` and `findFuncs` are not part of this model. Each profile comes with its function extents as an input.
- `filepath.Dir` is left out. `PrintCoverage` takes the directory of each profile as an input.
- The percentage (`percent`, `%5.1f%%`) is floating point and is not modelled. A report line carries covered and total statements instead.
- The `total:` line is not modelled as text. `Summary` carries its two numbers.
- `tabwriter` column layout and `bufio` flushing are output formatting and are left out. So are the file and line text (`%s:%d:`) of a report line: `ReportLine` keeps its fields.
- Process and I/O glue is left out: `command`, `printCoverageOld`, `runCover` (temporary file, `go test`), `getPackages` (`go list`), flag parsing, logging, the signal goroutine and exit codes. They are external processes, I/O and concurrency.
- Statement sums use unbounded integers. The overflow of the `int64` totals is not modelled.
- Paths use `/` as separator. Windows separators are not modelled.
- Paths: file names and directories are sequences of characters. Go's `len`, indexing, slicing and `commonPrefix` count UTF-8 bytes. For directory names with non-ASCII characters the offsets the code computes can differ from the modelled ones.
- Matcher.Partition: the function extents in source order, holding every block, are hypotheses. `findFuncs`, which walks the source to find them, is not part of this model.
- Paths.OffsetAgreesForOneDirectory: the agreement excludes the empty directory name. `filepath.Dir` never returns one, and the correction then trims the `/` that such file names start with.
- MissingBlocks: its result is characterised only when every block's start line is at least 1. A block on line 0 would be merged by the 0-sentinel, which Go's cover tool never produces.
- Report: equal to the report fold only when every profile's start lines are at least 1, because it uses `MissingBlocks`.
- PrintCoverage: conditional on start lines of at least 1, for the same reason.
- PrintCoverageCorrected: conditional on start lines of at least 1, for the same reason.
- ReportFunc: conditional on start lines of at least 1, for the same reason.
- ReportBlocks: conditional on start lines of at least 1, for the same reason.
- ReportFuncs: conditional on start lines of at least 1, for the same reason.
- Args: models the loop over the arguments that are left after flag parsing. Flag parsing itself (`-a`, `-v`, and stripping a leading `--`) is left out.
- The fixture's block columns follow Go's cover conventions for `testpkg/testpkg.go`. The report depends only on their lines and counts.

## Findings

| source | as written | input that shows it | evidently intended | confidence | as-written member | corrected member |
|---|---|---|---|---|---|---|
| main.go:180-189 | The offset is the length of the character-wise common prefix of the directories, plus one for the separator. For sibling directories the prefix already ends with `/`, so the extra one cuts the first character of each differing directory name. When the prefix ends inside a name, the cut lands inside the names. | Profiles in `x/a` and `x/b`: the prefix is `x/` and the offset is 3, so `x/a/f.go` and `x/b/f.go` both print as `/f.go`. Profiles in `/a/bee` and `/a/box` print as `e/f.go` and `x/g.go`. | Drop exactly the longest run of whole directories that all files share. That is the common prefix of the directories, each followed by `/`, cut after its last `/`. | not executed | Paths.PathOffsetAsWritten, Paths.AsWrittenOffsetMergesSiblings, Paths.AsWrittenOffsetCutsNames, Report.PrintCoverage | Paths.PathOffset, Paths.OffsetIsLongestDirPrefix, Paths.OffsetElidesCommonDirectories, Report.PrintCoverageCorrected |
| main.go:281-285 | After the first argument starting with `-`, the loop goes on with no `break`. A second such argument sets `extraArgs` to the now-nil `args`; a later `--` slices the nil `args` past its end. | `covg -- -run TestX -v` (flag parsing strips the `--`): `go test` receives no argument. `covg ./pkg -v -- -count=1` panics. | The first argument starting with `-` passes it and all later ones through to `go test`, as the comment beside it says. | not executed | Args.SplitArgsAsWritten, Args.AsWrittenDropsPassThrough, Args.AsWrittenPanicsOnLateSeparator | Args.SplitArgs, Args.SplitIntendedKeepsArguments |
