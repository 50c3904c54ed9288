// `ExpressionKind` of compiler/parser/parse.rs (its declaration is not part
// of this model's sources; the variants are the ones the parser matches
// on): what a statement or modifier expects next, paired in a format with
// whether it is required.

module ExpressionKinds {
  /** The payloads of `Keyword(_)` and `Identifier(_)` are never read by the
      parser, so the variants carry none. */
  datatype ExpressionKind =
    | Value
    | Assignment
    | KeywordKind
    | IdentifierKind
    | CodeBlock
    | ParameterDescriptorArray
    | StringLiteral

  /** A format: the expected kinds in order, each with its `required` flag. */
  type Format = seq<(ExpressionKind, bool)>
}
