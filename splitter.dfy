// Model of compiler/splitter.rs: the second copy of the line trimmer.

module Splitter {
  import Text
  import Trimmer

  /** `splitter::trim`: the same character loop as the trimmer, over an owned
      string. Its result is specified by the trimmer's scan, so every
      property proved there (comments cut, placeholders turned into spaces,
      flag carried across lines, result trimmed) holds here as well. */
  method Trim(line: string, inBlockComment: bool) returns (result: string, inBlockCommentAfter: bool)
    ensures result == Trimmer.Finish(Trimmer.Scan(line, Trimmer.Start(inBlockComment)))
    ensures inBlockCommentAfter == Trimmer.Scan(line, Trimmer.Start(inBlockComment)).inBlockComment
    ensures Text.IsTrimmed(result)
  {
    result, inBlockCommentAfter := Trimmer.TrimLine(line, inBlockComment);
  }
}
