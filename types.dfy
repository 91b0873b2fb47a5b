/** The profile model: what a parsed coverage profile and a function resolver hand to the report. */
module Types {

  /** Outcome of an operation that the Go code ends with a run-time panic; `Panic` carries the panic value. */
  datatype Result<+T> = Ok(value: T) | Panic(message: string)

  /** One coverage block of a profile, as golang.org/x/tools/cover.ProfileBlock:
      a line/column extent, the number of statements it holds and how often it ran. */
  datatype Block = Block(StartLine: int, StartCol: int, EndLine: int, EndCol: int, NumStmt: int, Count: int)

  /** The textual span of one function declaration in a source file. */
  datatype FuncExtent = FuncExtent(name: string, startLine: int, startCol: int, endLine: int, endCol: int)

  /** The blocks of one instrumented file, sorted by position by the profile parser. */
  datatype Profile = Profile(FileName: string, Blocks: seq<Block>)

  /** A block counts as covered, for all of its statements, when it ran at least once. */
  predicate Covered(b: Block) {
    b.Count > 0
  }
}
